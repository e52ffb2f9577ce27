/** A user's password over runs: Secret, status and every password on its way to the database
    agree if the spec gives one, and in any case a completed pass leaves in the Secret the
    password it gave to the database. */
module UserPasswords {
  import opened Base
  import opened Resources
  import opened Stores
  import opened Machine
  import opened Invariant
  import opened Flights
  import S = StreamController
  import T = TenantController
  import U = UserController
  import C = ClientController
  import A = AuthController
  import I = InitController
  import D = DataPlaneController

  /** No other user of its namespace has the username of `k`; and when a password is given,
      `k` has always this username and password. */
  predicate SpecAllowed(k: Key, username: string, given: Option<string>, j: Key, r: Resource) {
    r.UserR? ==>
      && (j == k && given.Some? ==> r.user.spec.username == username && r.user.spec.password == given.value)
      && (j != k && j.namespace == k.namespace ==> r.user.spec.username != username)
  }

  predicate Allowed(k: Key, username: string, given: Option<string>, l: Label) {
    match l
    case Create(j, r) => SpecAllowed(k, username, given, j, r)
    case Edit(j, r) => SpecAllowed(k, username, given, j, r)
    case WriteSecret(n, _) => n != UserSecretName(k, username)
    case _ => true
  }

  ghost predicate Owned(st: Stores, k: Key, username: string, given: Option<string>) {
    forall j, i :: 0 <= i < |LogOf(st.log, j)| && LogOf(st.log, j)[i].Some?
      ==> SpecAllowed(k, username, given, j, LogOf(st.log, j)[i].value)
  }

  /** Every version of the Secret holds the password. */
  ghost predicate SecretAgrees(st: Stores, k: Key, username: string, password: string) {
    forall i :: 0 <= i < |LogOf(st.secrets, UserSecretName(k, username))|
        && LogOf(st.secrets, UserSecretName(k, username))[i].Some?
      ==> var d := LogOf(st.secrets, UserSecretName(k, username))[i].value;
          "password" in d && d["password"] == password
  }

  lemma OwnedNext(w: World, l: Label, k: Key, username: string, given: Option<string>)
    requires Inv(w) && Owned(w.st, k, username, given) && Allowed(k, username, given, l)
    ensures Owned(Next(w, l).st, k, username, given)
  {
    hide PassStep, Grows, Inv;
    if l.Call? && l.k in w.passes {
      OwnedCall(w, l.k, l.c, k, username, given);
    }
  }

  lemma OwnedCall(w: World, k': Key, c: Choice, k: Key, username: string, given: Option<string>)
    requires Inv(w) && Owned(w.st, k, username, given) && k' in w.passes
    ensures Owned(Next(w, Call(k', c)).st, k, username, given)
  {
    hide Inv, Next;
    var j, v := CallWrites(w, k', c);
  }

  lemma SecretNameIs(k: Key, j: Key, username: string, other: string)
    requires UserSecretName(k, username) == UserSecretName(j, other)
    ensures k.namespace == j.namespace && username == other
  {
    assert UserSecretName(k, username).name[10..] == username;
    assert UserSecretName(j, other).name[10..] == other;
  }

  lemma UserStepAgrees(cfg: Config, st: Stores, k': Key, p: U.UserPass, c: Choice, k: Key, username: string,
      password: string)
    requires UserPassOk(cfg, st, k', p) && k'.kind == k.kind == UserKind && password != ""
    requires Owned(st, k, username, Some(password)) && SecretAgrees(st, k, username, password)
    ensures SecretAgrees(U.Step(cfg, st, k', p, c).0, k, username, password)
  {
    hide Grows, U.Step;
    U.StepSecrets(cfg, st, k', p, c);
    if (p.AtCreate? || p.AtUpdate?) && U.SecretName(k', p.u) == UserSecretName(k, username) {
      SecretNameIs(k', k, p.u.spec.username, username);
    }
  }

  lemma ClientStepAgrees(cfg: Config, st: Stores, k': Key, p: C.ClientPass, c: Choice, k: Key, username: string,
      password: string)
    requires SecretAgrees(st, k, username, password)
    ensures SecretAgrees(C.Step(cfg, st, k', p, c).0, k, username, password)
  {
    hide Grows, C.Step;
    C.StepSecrets(cfg, st, k', p, c);
    SecretNamesApart(k', k, username);
  }

  lemma CallAgrees(w: World, k': Key, c: Choice, k: Key, username: string, password: string)
    requires Inv(w) && k' in w.passes && k.kind == UserKind && password != ""
    requires Owned(w.st, k, username, Some(password)) && SecretAgrees(w.st, k, username, password)
    ensures SecretAgrees(PassStep(w.cfg, w.st, k', w.passes[k'], c).0, k, username, password)
  {
    hide LogsOk, TenantsInjective, Grows, S.Step, T.Step, U.Step, C.Step, A.Step, I.Step, D.Step;
    hide StreamPassOk, TenantPassOk, UserPassOk, ClientPassOk, AuthPassOk, InitPassOk, DataPlanePassOk, Owned;
    assert PassOk(w.cfg, w.st, k', w.passes[k']);
    match w.passes[k'] {
      case OfStream(_) =>
      case OfTenant(_) =>
      case OfUser(p) => UserStepAgrees(w.cfg, w.st, k', p, c, k, username, password);
      case OfClient(p) => ClientStepAgrees(w.cfg, w.st, k', p, c, k, username, password);
      case OfAuth(_) =>
      case OfInit(_) =>
      case OfDataPlane(_) =>
    }
  }

  lemma NextAgrees(w: World, l: Label, k: Key, username: string, password: string)
    requires Inv(w) && k.kind == UserKind && password != "" && Allowed(k, username, Some(password), l)
    requires Owned(w.st, k, username, Some(password)) && SecretAgrees(w.st, k, username, password)
    ensures SecretAgrees(Next(w, l).st, k, username, password)
  {
    hide Inv, Owned, PassStep, Grows;
    if l.Call? && l.k in w.passes {
      CallAgrees(w, l.k, l.c, k, username, password);
    }
  }

  lemma {:induction false} ExecAgrees(w: World, ls: seq<Label>, k: Key, username: string, password: string)
    requires Inv(w) && k.kind == UserKind && password != ""
    requires forall l :: l in ls ==> Allowed(k, username, Some(password), l)
    requires Owned(w.st, k, username, Some(password)) && SecretAgrees(w.st, k, username, password)
    ensures Inv(Exec(w, ls))
    ensures Owned(Exec(w, ls).st, k, username, Some(password)) && SecretAgrees(Exec(w, ls).st, k, username, password)
    decreases |ls|
  {
    hide Inv, Owned, Next, Allowed, SecretAgrees;
    if ls != [] {
      NextInv(w, ls[0]);
      OwnedNext(w, ls[0], k, username, Some(password));
      NextAgrees(w, ls[0], k, username, password);
      ExecAgrees(Next(w, ls[0]), ls[1..], k, username, password);
    }
  }

  lemma {:induction false} StatusAgrees(cfg: Config, st: Stores, k: Key, i: nat, username: string, password: string)
    requires LogsOk(cfg, st) && Owned(st, k, username, Some(password)) && password != "" && k.kind == UserKind
    requires i < |LogOf(st.log, k)| && LogOf(st.log, k)[i].Some?
    ensures LogOf(st.log, k)[i].value.UserR?
    ensures LogOf(st.log, k)[i].value.user.status.password in {"", password}
    decreases i
  {
    hide LogsOk;
    KindAt(cfg, st, k, i);
    assert LogOk(cfg, st, k) by { AllLogsOk(cfg, st, k); }
    if i > 0 {
      assert LinkOk(cfg, st, k, LogOf(st.log, k)[i - 1], LogOf(st.log, k)[i]);
      if LogOf(st.log, k)[i - 1].Some? {
        StatusAgrees(cfg, st, k, i - 1, username, password);
      }
    }
  }

  lemma AllLogsOk(cfg: Config, st: Stores, k: Key)
    requires LogsOk(cfg, st)
    ensures LogOk(cfg, st, k)
  {
  }

  /** The password a pass gives to the database and to the Secret, once it has settled on one. */
  function Carried(p: U.UserPass): Option<string> {
    match p
    case Begin => None
    case AtGenerate(_, _) => None
    case AtTenant(_, _, pw) => Some(pw)
    case AtRow(_, _, pw, _) => Some(pw)
    case AtSecret(_, _, pw) => Some(pw)
    case AtCreate(_, _, pw) => Some(pw)
    case AtUpdate(_, _, pw, _) => Some(pw)
    case AtWrite(_, _, pw) => Some(pw)
  }

  lemma CarriedIs(cfg: Config, st: Stores, k: Key, p: U.UserPass, username: string, password: string)
    requires UserPassOk(cfg, st, k, p) && Owned(st, k, username, Some(password)) && password != ""
    ensures Carried(p) in {None, Some(password)} && !p.AtGenerate?
  {
  }

  /** From a fresh start, with a constant username and non-empty password that no other user of
      the namespace shares: in every reachable world every version of the Secret and of the
      status, and every pass on its way to the database, shows that password or none. */
  lemma GivenPasswordAgrees(w: World, ls: seq<Label>, k: Key, username: string, password: string)
    requires Initial(w) && k.kind == UserKind && password != ""
    requires LogOf(w.st.secrets, UserSecretName(k, username)) == [None]
    requires forall l :: l in ls ==> Allowed(k, username, Some(password), l)
    ensures var v := Exec(w, ls);
      && SecretAgrees(v.st, k, username, password)
      && (Latest(v.st.log, k).Some? ==> Latest(v.st.log, k).value.UserR?
                                        && Latest(v.st.log, k).value.user.status.password in {"", password})
      && (k in v.passes ==> v.passes[k].OfUser? && Carried(v.passes[k].u) in {None, Some(password)})
  {
    hide Next, LogsOk, Allowed, TenantsInjective, Owned, SecretAgrees, Carried, UserPassOk;
    InitialInv(w);
    assert Owned(w.st, k, username, Some(password)) by { EmptyOwned(w, k, username, Some(password)); }
    assert SecretAgrees(w.st, k, username, password) by { NoSecretAgrees(w.st, k, username, password); }
    ExecAgrees(w, ls, k, username, password);
    var v := Exec(w, ls);
    if Latest(v.st.log, k).Some? {
      StatusAgrees(v.cfg, v.st, k, Version(v.st.log, k), username, password);
    }
    if k in v.passes {
      assert PassOk(v.cfg, v.st, k, v.passes[k]);
      CarriedIs(v.cfg, v.st, k, v.passes[k].u, username, password);
    }
  }

  lemma EmptyOwned(w: World, k: Key, username: string, given: Option<string>)
    requires w.st.log == map[]
    ensures Owned(w.st, k, username, given)
  {
  }

  lemma NoSecretAgrees(st: Stores, k: Key, username: string, password: string)
    requires LogOf(st.secrets, UserSecretName(k, username)) == [None]
    ensures SecretAgrees(st, k, username, password)
  {
  }

  // ---- What passes leave in runs --------------------------------------------------------

  /** A pass that is about to write its status has its password in the Secret of `username`. */
  ghost predicate SecretWritten(w: World, k: Key, username: string) {
    k in w.passes && w.passes[k].OfUser? && w.passes[k].u.AtWrite? && w.passes[k].u.u.spec.username == username ==>
      Latest(w.st.secrets, UserSecretName(k, username)) == Some(U.SecretOf(w.passes[k].u.u, w.passes[k].u.password))
  }

  /** Another user's pass writes another Secret. */
  lemma OtherUserKeeps(cfg: Config, st: Stores, j: Key, p: U.UserPass, c: Choice, k: Key, username: string)
    requires UserPassOk(cfg, st, j, p) && Owned(st, k, username, None) && j != k && j.kind == k.kind == UserKind
    ensures LogOf(U.Step(cfg, st, j, p, c).0.secrets, UserSecretName(k, username))
            == LogOf(st.secrets, UserSecretName(k, username))
  {
    hide Grows, U.Step;
    U.StepSecrets(cfg, st, j, p, c);
    if (p.AtCreate? || p.AtUpdate?) && U.SecretName(j, p.u) == UserSecretName(k, username) {
      SecretNameIs(j, k, p.u.spec.username, username);
      UserSpecKept(cfg, st, j, p);
    }
  }

  lemma ClientKeeps(cfg: Config, st: Stores, j: Key, p: C.ClientPass, c: Choice, k: Key, username: string)
    ensures LogOf(C.Step(cfg, st, j, p, c).0.secrets, UserSecretName(k, username))
            == LogOf(st.secrets, UserSecretName(k, username))
  {
    hide Grows, C.Step;
    C.StepSecrets(cfg, st, j, p, c);
    SecretNamesApart(j, k, username);
  }

  lemma OtherCallKeeps(w: World, j: Key, c: Choice, k: Key, username: string)
    requires Inv(w) && j in w.passes && j != k && k.kind == UserKind && Owned(w.st, k, username, None)
    ensures LogOf(PassStep(w.cfg, w.st, j, w.passes[j], c).0.secrets, UserSecretName(k, username))
            == LogOf(w.st.secrets, UserSecretName(k, username))
  {
    hide LogsOk, TenantsInjective, Grows, S.Step, T.Step, U.Step, C.Step, A.Step, I.Step, D.Step, Owned;
    hide StreamPassOk, TenantPassOk, UserPassOk, ClientPassOk, AuthPassOk, InitPassOk, DataPlanePassOk, UserSecretName;
    assert PassOk(w.cfg, w.st, j, w.passes[j]);
    match w.passes[j] {
      case OfStream(_) =>
      case OfTenant(_) =>
      case OfUser(p) => OtherUserKeeps(w.cfg, w.st, j, p, c, k, username);
      case OfClient(p) => ClientKeeps(w.cfg, w.st, j, p, c, k, username);
      case OfAuth(_) =>
      case OfInit(_) =>
      case OfDataPlane(_) =>
    }
  }

  /** The pass's own calls: the status write is reached only right after the Secret's. */
  lemma OwnCallWrites(cfg: Config, st: Stores, k: Key, p: U.UserPass, c: Choice)
    requires U.Step(cfg, st, k, p, c).1.Go? && U.Step(cfg, st, k, p, c).1.pass.AtWrite?
    ensures var q := U.Step(cfg, st, k, p, c).1.pass;
      Latest(U.Step(cfg, st, k, p, c).0.secrets, U.SecretName(k, q.u)) == Some(U.SecretOf(q.u, q.password))
  {
    hide Grows, LogsGrow, TenantsInjective, EnsureTenant, EnsureUser, CreateSecret, UpdateSecret, U.SecretOf,
        U.SecretName;
    if p.AtCreate? || p.AtUpdate? {
      U.SecretHoldsPassword(cfg, st, k, p, c);
    }
  }

  lemma OwnCallKeepsWritten(w: World, k: Key, c: Choice, username: string)
    requires k in w.passes && w.passes[k].OfUser?
    ensures SecretWritten(Next(w, Call(k, c)), k, username)
  {
    hide U.Step, Grows, TenantsInjective, U.SecretOf;
    if U.Step(w.cfg, w.st, k, w.passes[k].u, c).1.Go? && U.Step(w.cfg, w.st, k, w.passes[k].u, c).1.pass.AtWrite? {
      OwnCallWrites(w.cfg, w.st, k, w.passes[k].u, c);
    }
  }

  lemma EnvironmentKeeps(st: Stores, l: Label, n: Name)
    requires !(l.WriteSecret? && l.n == n)
    ensures LogOf(Environment(st, l).secrets, n) == LogOf(st.secrets, n)
  {
    hide Grows, LogsGrow;
  }

  lemma NextWritten(w: World, l: Label, k: Key, username: string)
    requires Inv(w) && k.kind == UserKind && Owned(w.st, k, username, None)
    requires Allowed(k, username, None, l) && SecretWritten(w, k, username)
    ensures SecretWritten(Next(w, l), k, username)
  {
    hide LogsOk, TenantsInjective, PassOk, Owned, PassStep, Grows, Environment, U.SecretOf, UserSecretName, SpecAllowed;
    if l.Call? && l.k in w.passes {
      if l.k == k {
        UserPassOfKind(w, k);
        OwnCallKeepsWritten(w, k, l.c, username);
      } else {
        OtherCallKeeps(w, l.k, l.c, k, username);
      }
    } else if !l.Call? {
      EnvironmentKeeps(w.st, l, UserSecretName(k, username));
      BeginWritesNothing(k.kind);
    }
  }

  lemma UserPassOfKind(w: World, k: Key)
    requires Inv(w) && k in w.passes && k.kind == UserKind
    ensures w.passes[k].OfUser? && UserPassOk(w.cfg, w.st, k, w.passes[k].u)
  {
    hide LogsOk, TenantsInjective, UserPassOk;
    assert PassOk(w.cfg, w.st, k, w.passes[k]);
  }

  lemma BeginWritesNothing(kind: Kind)
    ensures BeginOf(kind).OfUser? ==> BeginOf(kind).u.Begin?
  {
  }

  lemma {:induction false} ExecWritten(w: World, ls: seq<Label>, k: Key, username: string)
    requires Inv(w) && k.kind == UserKind && forall l :: l in ls ==> Allowed(k, username, None, l)
    requires Owned(w.st, k, username, None) && SecretWritten(w, k, username)
    ensures Inv(Exec(w, ls)) && Owned(Exec(w, ls).st, k, username, None) && SecretWritten(Exec(w, ls), k, username)
    decreases |ls|
  {
    hide Inv, Owned, Next, Allowed, SecretWritten;
    if ls != [] {
      NextInv(w, ls[0]);
      OwnedNext(w, ls[0], k, username, None);
      NextWritten(w, ls[0], k, username);
      ExecWritten(Next(w, ls[0]), ls[1..], k, username);
    }
  }

  /** In every reachable world, whatever the spec says and however it is edited, while no other
      user of the namespace has the username and nobody else writes its Secret: a pass that is
      about to write its status has its password in that Secret. */
  lemma SecretComesFirst(w: World, ls: seq<Label>, k: Key, username: string)
    requires Initial(w) && k.kind == UserKind && forall l :: l in ls ==> Allowed(k, username, None, l)
    ensures SecretWritten(Exec(w, ls), k, username)
  {
    hide Next, LogsOk, PassOk, Allowed, TenantsInjective, Owned;
    InitialInv(w);
    assert Owned(w.st, k, username, None) by { EmptyOwned(w, k, username, None); }
    ExecWritten(w, ls, k, username);
  }

  // ---- From its choice of a password to its end ---------------------------------------------

  ghost predicate IsCarrying(p: Pass, u: FrkrUser, password: string) {
    p.OfUser? && !p.u.Begin? && p.u.u == u && Carried(p.u) == Some(password)
  }

  lemma StepCarries(cfg: Config, st: Stores, k: Key, p: U.UserPass, c: Choice)
    requires Carried(p).Some? && U.Step(cfg, st, k, p, c).1.Go?
    ensures var q := U.Step(cfg, st, k, p, c).1.pass; !q.Begin? && q.u == p.u && Carried(q) == Carried(p)
  {
    hide Grows, LogsGrow, TenantsInjective, EnsureTenant, EnsureUser, CreateSecret, UpdateSecret, UpdateStatus;
  }

  lemma CarryingIsClosed(k: Key, u: FrkrUser, password: string)
    ensures Closed(k, p => IsCarrying(p, u, password))
  {
    hide U.Step, Grows, TenantsInjective, Carried;
    forall cfg: Config, st: Stores, p: Pass, c: Choice | IsCarrying(p, u, password) && PassStep(cfg, st, k, p, c).1.Go?
      ensures IsCarrying(PassStep(cfg, st, k, p, c).1.pass, u, password)
    {
      StepCarries(cfg, st, k, p.u, c);
    }
  }

  /** The last call of a pass that completes writes what the pass carries, over the version it
      had read, and leaves the Secret as it is. */
  lemma LastCallWrites(cfg: Config, st: Stores, k: Key, p: U.UserPass, c: Choice)
    requires p.AtWrite? && U.Step(cfg, st, k, p, c).1.Done?
    ensures p.ver == Version(st.log, k)
    ensures var st' := U.Step(cfg, st, k, p, c).0; Latest(st'.log, k) == Some(UserR(p.u)) && st'.secrets == st.secrets
  {
    hide Grows, LogsGrow;
  }

  ghost predicate AllAllowed(k: Key, username: string, ls: seq<Label>) {
    forall l :: l in ls ==> Allowed(k, username, None, l)
  }

  /** The pass of `k` writes its status with this call, and is done. */
  ghost predicate Completes(z: World, k: Key, d: Choice) {
    k in z.passes && z.passes[k].OfUser? && z.passes[k].u.AtWrite? && U.Step(z.cfg, z.st, k, z.passes[k].u, d).1.Done?
  }

  /** From the choice of a password to the end of the pass, anything else in between: if the
      pass completes, Secret and status are those the pass carried; and the status it replaced
      decides whether the two show the same password. */
  lemma CarriedToTheEnd(w: World, before: seq<Label>, v: World, between: seq<Label>, z: World, k: Key, d: Choice,
      u: FrkrUser, password: string)
    requires Initial(w) && k.kind == UserKind && v == Exec(w, before) && z == Exec(v, between)
    requires k in v.passes && IsCarrying(v.passes[k], u, password) && Lasts(v, k, between) && Completes(z, k, d)
    requires AllAllowed(k, u.spec.username, before) && AllAllowed(k, u.spec.username, between)
    ensures k in z.passes && IsCarrying(z.passes[k], u, password) && CompletedWith(z, k, d, u, password)
  {
    hide Next, LogsOk, PassOk, Allowed, TenantsInjective, Initial, U.Step, Closed, CompletedWith, Lasts, SecretWritten;
    CarryingIsClosed(k, u, password);
    LastsKeeps(v, k, between, p => IsCarrying(p, u, password));
    ExecConcat(w, before, between);
    SecretComesFirst(w, before + between, k, u.spec.username);
    Reachable(w, before + between);
    CompletedFrom(z, k, d, u, password);
  }

  /** What the last call of `k` leaves: its Secret holds the password, its status is that of
      `u`, and they agree exactly when the status it replaces showed none, or this one. */
  ghost predicate CompletedWith(z: World, k: Key, d: Choice, u: FrkrUser, password: string) {
    var st' := Next(z, Call(k, d)).st;
    && Latest(st'.secrets, U.SecretName(k, u)) == Some(U.SecretOf(u, password))
    && Latest(st'.log, k) == Some(UserR(u))
    && Latest(z.st.log, k).Some? && Latest(z.st.log, k).value.UserR?
    && (u.status.password == password <==> Latest(z.st.log, k).value.user.status.password in {"", password})
  }

  lemma CompletedFrom(z: World, k: Key, d: Choice, u: FrkrUser, password: string)
    requires Inv(z) && k.kind == UserKind && Completes(z, k, d) && IsCarrying(z.passes[k], u, password)
    requires SecretWritten(z, k, u.spec.username)
    ensures CompletedWith(z, k, d, u, password)
  {
    hide LogsOk, TenantsInjective, U.Step, Grows, U.SecretOf;
    LastCallWrites(z.cfg, z.st, k, z.passes[k].u, d);
    UserPassOfKind(z, k);
  }

  /** The pass of `k` gives its password to the database with this call, and goes on. */
  ghost predicate Gives(v: World, k: Key, c: Choice) {
    k in v.passes && v.passes[k].OfUser? && v.passes[k].u.AtRow? && Survives(v, k, Call(k, c))
  }

  ghost predicate Generates(v: World, k: Key, c: Choice) {
    k in v.passes && v.passes[k].OfUser? && v.passes[k].u.AtGenerate? && Survives(v, k, Call(k, c))
  }

  lemma RowCall(v: World, k: Key, c: Choice)
    requires Gives(v, k, c)
    ensures var p := v.passes[k].u;
      && EnsureUser(v.st, p.tenantID, p.u.spec.username, p.password, c).1
      && k in Next(v, Call(k, c)).passes
      && Next(v, Call(k, c)).passes[k] == OfUser(U.AtSecret(p.ver, p.u, p.password))
  {
    hide Grows, TenantsInjective, EnsureUser;
  }

  lemma GenerateCall(v: World, k: Key, c: Choice) returns (u: FrkrUser)
    requires Generates(v, k, c)
    ensures u.spec == v.passes[k].u.u.spec
    ensures k in Next(v, Call(k, c)).passes && IsCarrying(Next(v, Call(k, c)).passes[k], u, c.text)
  {
    hide Grows, TenantsInjective;
    u := Next(v, Call(k, c)).passes[k].u.u;
  }

  lemma StepAllowed(k: Key, username: string, before: seq<Label>, c: Choice)
    requires AllAllowed(k, username, before)
    ensures AllAllowed(k, username, before + [Call(k, c)])
  {
  }

  /** In any run: a pass that generates a password and completes leaves its text in the Secret
      and keeps in the status the first one ever. The two agree exactly when the status it
      replaced showed none, or that very text. */
  lemma GeneratedPasswordAgrees(w: World, before: seq<Label>, v: World, c: Choice, between: seq<Label>, z: World,
      k: Key, d: Choice)
    requires Initial(w) && k.kind == UserKind && v == Exec(w, before) && Generates(v, k, c)
    requires z == Exec(Next(v, Call(k, c)), between) && Lasts(Next(v, Call(k, c)), k, between) && Completes(z, k, d)
    requires AllAllowed(k, v.passes[k].u.u.spec.username, before)
    requires AllAllowed(k, v.passes[k].u.u.spec.username, between)
    ensures CompletedWith(z, k, d, z.passes[k].u.u, c.text)
  {
    hide Next, Initial, Lasts, Completes, CompletedWith, AllAllowed, Survives;
    ExecAppend(w, before, Call(k, c));
    var u := GenerateCall(v, k, c);
    StepAllowed(k, u.spec.username, before, c);
    CarriedToTheEnd(w, before + [Call(k, c)], Next(v, Call(k, c)), between, z, k, d, u, c.text);
  }

  /** In any run: a pass that gives a password to the database, goes on, and completes leaves
      that very password in its Secret. */
  lemma CompletedPassWritesSecret(w: World, before: seq<Label>, v: World, c: Choice, between: seq<Label>, z: World,
      k: Key, d: Choice)
    requires Initial(w) && k.kind == UserKind && v == Exec(w, before) && Gives(v, k, c)
    requires z == Exec(Next(v, Call(k, c)), between) && Lasts(Next(v, Call(k, c)), k, between) && Completes(z, k, d)
    requires AllAllowed(k, v.passes[k].u.u.spec.username, before)
    requires AllAllowed(k, v.passes[k].u.u.spec.username, between)
    ensures var p := v.passes[k].u;
      && EnsureUser(v.st, p.tenantID, p.u.spec.username, p.password, c).1
      && CompletedWith(z, k, d, p.u, p.password)
  {
    hide Next, Initial, Lasts, Completes, CompletedWith, AllAllowed, Survives, EnsureUser, Grows;
    ExecAppend(w, before, Call(k, c));
    RowCall(v, k, c);
    var p := v.passes[k].u;
    StepAllowed(k, p.u.spec.username, before, c);
    CarriedToTheEnd(w, before + [Call(k, c)], Next(v, Call(k, c)), between, z, k, d, p.u, p.password);
  }
}
