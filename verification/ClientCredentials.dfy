/** A client's two credentials, the database row and the Kubernetes Secret, over every run
    that leaves the client its key: when they agree, when they cannot, and what is kept. */
module ClientCredentials {
  import opened Base
  import opened Resources
  import opened Stores
  import opened Machine
  import opened Invariant
  import S = StreamController
  import T = TenantController
  import U = UserController
  import C = ClientController
  import A = AuthController
  import I = InitController
  import D = DataPlaneController

  // ---- Runs that leave the client alone ----------------------------------------------

  /** A spec the run allows for `j`: client `k` has the secret `secret`, and when a row key is
      given, `k` has that key and no other client does. */
  predicate SpecAllowed(k: Key, row: Option<RowKey>, secret: string, j: Key, r: Resource) {
    r.ClientR? ==>
      && (j == k ==> r.client.spec.secret == secret)
      && (row.Some? ==> (C.RowKeyOf(r.client.spec) == row.value <==> j == k))
  }

  /** Users may do anything but touch this client's Secret, change its key or its secret, or
      give its key to another client. */
  predicate Allowed(k: Key, row: Option<RowKey>, secret: string, l: Label) {
    match l
    case Create(j, r) => SpecAllowed(k, row, secret, j, r)
    case Edit(j, r) => SpecAllowed(k, row, secret, j, r)
    case WriteSecret(n, _) => n != ClientSecretName(k)
    case _ => true
  }

  ghost predicate AllAllowed(k: Key, row: Option<RowKey>, secret: string, ls: seq<Label>) {
    forall l :: l in ls ==> Allowed(k, row, secret, l)
  }

  ghost predicate Owned(st: Stores, k: Key, row: Option<RowKey>, secret: string) {
    forall j, i :: 0 <= i < |LogOf(st.log, j)| && LogOf(st.log, j)[i].Some?
      ==> SpecAllowed(k, row, secret, j, LogOf(st.log, j)[i].value)
  }

  /** The stores a label leaves still have only allowed specs, because status writes keep
      the spec. */
  lemma OwnedNext(w: World, l: Label, k: Key, row: Option<RowKey>, secret: string)
    requires Inv(w) && Owned(w.st, k, row, secret) && Allowed(k, row, secret, l)
    ensures Owned(Next(w, l).st, k, row, secret)
  {
    hide LogsOk, PassOk, PassStep, Grows, TenantsInjective, Inv;
    if l.Call? && l.k in w.passes {
      OwnedCall(w, l.k, l.c, k, row, secret);
    }
  }

  lemma OwnedCall(w: World, k': Key, c: Choice, k: Key, row: Option<RowKey>, secret: string)
    requires Inv(w) && Owned(w.st, k, row, secret) && k' in w.passes
    ensures Owned(Next(w, Call(k', c)).st, k, row, secret)
  {
    hide Inv, Next;
    var j, v := CallWrites(w, k', c);
  }

  // ---- Who touches the two credentials -------------------------------------------------

  /** Row and Secret of client `k` are the same in both stores. */
  ghost predicate SameCredentials(st: Stores, st': Stores, k: Key, row: Option<RowKey>) {
    && LogOf(st'.secrets, ClientSecretName(k)) == LogOf(st.secrets, ClientSecretName(k))
    && (row.Some? ==> (row.value in st'.clientRows <==> row.value in st.clientRows))
    && (row.Some? && row.value in st.clientRows ==> st'.clientRows[row.value] == st.clientRows[row.value])
  }

  /** A call by anything but the passes of client `k` leaves its Secret and, if its key is
      its own, its row alone. */
  lemma OthersKeepCredentials(w: World, k': Key, c: Choice, k: Key, row: Option<RowKey>, secret: string)
    requires Inv(w) && Owned(w.st, k, row, secret) && k' in w.passes && k' != k && k.kind == ClientKind
    ensures SameCredentials(w.st, PassStep(w.cfg, w.st, k', w.passes[k'], c).0, k, row)
  {
    hide LogsOk, TenantsInjective, Grows, S.Step, T.Step, U.Step, C.Step, A.Step, I.Step, D.Step;
    hide StreamPassOk, TenantPassOk, UserPassOk, ClientPassOk, AuthPassOk, InitPassOk, DataPlanePassOk, Owned;
    assert PassOk(w.cfg, w.st, k', w.passes[k']);
    match w.passes[k'] {
      case OfStream(_) =>
      case OfTenant(_) =>
      case OfUser(p) => UserKeeps(w.cfg, w.st, k', p, c, k, row);
      case OfClient(p) => OtherClientKeeps(w, k', p, c, k, row, secret);
      case OfAuth(_) =>
      case OfInit(_) =>
      case OfDataPlane(_) =>
    }
  }

  lemma UserKeeps(cfg: Config, st: Stores, k': Key, p: U.UserPass, c: Choice, k: Key, row: Option<RowKey>)
    ensures SameCredentials(st, U.Step(cfg, st, k', p, c).0, k, row)
  {
    hide U.Step, Grows;
    U.StepSecrets(cfg, st, k', p, c);
    if p.AtCreate? || p.AtUpdate? {
      SecretNamesApart(k, k', p.u.spec.username);
    }
  }

  lemma OtherClientKeeps(w: World, k': Key, p: C.ClientPass, c: Choice, k: Key, row: Option<RowKey>, secret: string)
    requires Owned(w.st, k, row, secret) && k' != k && k.kind == k'.kind == ClientKind
    requires ClientPassOk(w.cfg, w.st, k', p)
    ensures SameCredentials(w.st, C.Step(w.cfg, w.st, k', p, c).0, k, row)
  {
    hide C.Step, C.PassOk, Grows;
    C.StepSecrets(w.cfg, w.st, k', p, c);
    C.StepRows(w.cfg, w.st, k', p, c);
    if ClientSecretName(k') == ClientSecretName(k) {
      SecretNamesInjective(k', k);
    }
    if p.AtInsert? {
      ClientSpecKept(w.cfg, w.st, k', p);
    }
  }

  /** Labels other than calls and external Secret writes leave both credentials alone. */
  lemma RuntimeKeepsCredentials(w: World, l: Label, k: Key, row: Option<RowKey>)
    requires !l.Call? && !(l.WriteSecret? && l.n == ClientSecretName(k))
    ensures SameCredentials(w.st, Next(w, l).st, k, row)
  {
    hide PassStep, Grows, Environment, LogOf;
    EnvironmentKeepsCredentials(w.st, l, k, row);
  }

  lemma EnvironmentKeepsCredentials(st: Stores, l: Label, k: Key, row: Option<RowKey>)
    requires !(l.WriteSecret? && l.n == ClientSecretName(k))
    ensures SameCredentials(st, Environment(st, l), k, row)
  {
    hide Grows, LogsGrow;
  }

  // ---- A secret given in the spec --------------------------------------------------------

  /** Row and Secret, wherever they exist or ever existed, hold `secret`. */
  ghost predicate BothHold(st: Stores, k: Key, row: Option<RowKey>, secret: string) {
    && (row.Some? && row.value in st.clientRows ==> st.clientRows[row.value].secret == secret)
    && forall i :: 0 <= i < |LogOf(st.secrets, ClientSecretName(k))| && LogOf(st.secrets, ClientSecretName(k))[i].Some?
         ==> C.Held(LogOf(st.secrets, ClientSecretName(k))[i].value) == secret
  }

  lemma OwnStepHolds(cfg: Config, st: Stores, p: C.ClientPass, c: Choice, k: Key, row: Option<RowKey>, secret: string)
    requires ClientPassOk(cfg, st, k, p) && Owned(st, k, row, secret) && k.kind == ClientKind && secret != ""
    requires BothHold(st, k, row, secret)
    ensures BothHold(C.Step(cfg, st, k, p, c).0, k, row, secret)
  {
    hide Grows, C.Step;
    C.StepSecrets(cfg, st, k, p, c);
    C.StepRows(cfg, st, k, p, c);
  }

  lemma SameHolds(st: Stores, st': Stores, k: Key, row: Option<RowKey>, secret: string)
    requires BothHold(st, k, row, secret) && SameCredentials(st, st', k, row)
    ensures BothHold(st', k, row, secret)
  {
  }

  lemma CallStores(w: World, k: Key, c: Choice)
    ensures Next(w, Call(k, c)).st == if k in w.passes then PassStep(w.cfg, w.st, k, w.passes[k], c).0 else w.st
  {
    hide PassStep, Grows;
  }

  lemma OwnPass(w: World, k: Key, c: Choice)
    requires Inv(w) && k in w.passes && k.kind == ClientKind
    ensures w.passes[k].OfClient? && ClientPassOk(w.cfg, w.st, k, w.passes[k].c)
    ensures PassStep(w.cfg, w.st, k, w.passes[k], c).0 == C.Step(w.cfg, w.st, k, w.passes[k].c, c).0
  {
    hide LogsOk, TenantsInjective, Grows, C.Step, ClientPassOk;
    assert PassOk(w.cfg, w.st, k, w.passes[k]);
  }

  lemma NextHolds(w: World, l: Label, k: Key, row: Option<RowKey>, secret: string)
    requires Inv(w) && Owned(w.st, k, row, secret) && k.kind == ClientKind && secret != ""
    requires Allowed(k, row, secret, l) && BothHold(w.st, k, row, secret)
    ensures BothHold(Next(w, l).st, k, row, secret)
  {
    hide Inv, Owned, Next, PassStep, BothHold, SameCredentials, C.Step, ClientPassOk;
    if l.Call? {
      CallStores(w, l.k, l.c);
      if l.k in w.passes {
        if l.k == k {
          OwnPass(w, k, l.c);
          OwnStepHolds(w.cfg, w.st, w.passes[k].c, l.c, k, row, secret);
        } else {
          OthersKeepCredentials(w, l.k, l.c, k, row, secret);
          SameHolds(w.st, Next(w, l).st, k, row, secret);
        }
      }
    } else {
      RuntimeKeepsCredentials(w, l, k, row);
      SameHolds(w.st, Next(w, l).st, k, row, secret);
    }
  }

  lemma {:induction false} ExecHolds(w: World, ls: seq<Label>, k: Key, row: Option<RowKey>, secret: string)
    requires Inv(w) && Owned(w.st, k, row, secret) && k.kind == ClientKind && secret != ""
    requires AllAllowed(k, row, secret, ls) && BothHold(w.st, k, row, secret)
    ensures BothHold(Exec(w, ls).st, k, row, secret)
    decreases |ls|
  {
    hide Inv, Owned, Next, Allowed, BothHold;
    if ls != [] {
      NextInv(w, ls[0]);
      OwnedNext(w, ls[0], k, row, secret);
      NextHolds(w, ls[0], k, row, secret);
      ExecHolds(Next(w, ls[0]), ls[1..], k, row, secret);
    }
  }

  /** From a fresh start, with a constant non-empty secret in the spec, row and Secret agree in
      every reachable world, whatever failed or stopped. */
  lemma GivenSecretAgrees(w: World, ls: seq<Label>, k: Key, row: RowKey, secret: string)
    requires Initial(w) && k.kind == ClientKind && secret != ""
    requires row !in w.st.clientRows && LogOf(w.st.secrets, ClientSecretName(k)) == [None]
    requires AllAllowed(k, Some(row), secret, ls)
    ensures var st := Exec(w, ls).st;
      && (row in st.clientRows ==> st.clientRows[row].secret == secret)
      && (Latest(st.secrets, ClientSecretName(k)).Some?
          ==> C.Held(Latest(st.secrets, ClientSecretName(k)).value) == secret)
  {
    hide Next, Inv, AllAllowed;
    InitialInv(w);
    ExecHolds(w, ls, k, Some(row), secret);
  }

  // ---- A generated secret stays --------------------------------------------------------

  ghost predicate SecretHolds(st: Stores, k: Key, v: string) {
    Latest(st.secrets, ClientSecretName(k)).Some? && C.Held(Latest(st.secrets, ClientSecretName(k)).value) == v
  }

  /** The read finds the Secret, with the value it has now. */
  predicate Shows(st: Stores, k: Key, c: Choice) {
    var r := GetSecret(st, ClientSecretName(k), c);
    r.Found? && Latest(st.secrets, ClientSecretName(k)).Some?
    && C.Held(r.value) == C.Held(Latest(st.secrets, ClientSecretName(k)).value)
  }

  /** If the call is a pass of `k` looking for its Secret, and there is one, the pass sees it. */
  predicate Sees(w: World, k: Key, l: Label) {
    (l.Call? && l.k == k && k in w.passes && w.passes[k].OfClient? && w.passes[k].c.AtEarly?) ==>
      Latest(w.st.secrets, ClientSecretName(k)).None? || Shows(w.st, k, l.c)
  }

  ghost predicate AlwaysSees(w: World, k: Key, ls: seq<Label>)
    decreases |ls|
  {
    ls != [] ==> Sees(w, k, ls[0]) && AlwaysSees(Next(w, ls[0]), k, ls[1..])
  }

  /** The pass has generated nothing, and a secret it carries is `v`. */
  ghost predicate CarriesOnly(p: C.ClientPass, v: string) {
    match p
    case AtGenerate(_, _) => false
    case AtInsert(_, _, s) => s == v
    case AtFetch(_, _, s) => s == v
    case AtSecret(_, _, s) => s == v
    case AtCreate(_, _, s) => s == v
    case AtUpdate(_, _, s, _) => s == v
    case _ => true
  }

  ghost predicate Stable(w: World, k: Key, v: string) {
    && SecretHolds(w.st, k, v)
    && (k in w.passes && w.passes[k].OfClient? ==> CarriesOnly(w.passes[k].c, v))
  }

  /** The calls of a pass before its Secret write leave the Secret alone. */
  lemma EarlyStepStable(cfg: Config, st: Stores, p: C.ClientPass, c: Choice, k: Key, v: string)
    requires ClientPassOk(cfg, st, k, p) && LogsOk(cfg, st) && Owned(st, k, None, "") && k.kind == ClientKind && v != ""
    requires SecretHolds(st, k, v) && CarriesOnly(p, v)
    requires p.Begin? || p.AtEarly? || p.AtInsert? || p.AtFetch?
    requires p.AtEarly? ==> Shows(st, k, c)
    ensures var (st', o) := C.Step(cfg, st, k, p, c);
            SecretHolds(st', k, v) && (o.Go? ==> CarriesOnly(o.pass, v))
  {
    hide Grows, LogsOk, CreateSecret, UpdateSecret, UpdateStatus;
    match p {
      case Begin => if Get(st, k, c).Found? { GetIsVersion(cfg, st, k, c); }
      case AtEarly(_, _) =>
      case AtInsert(_, _, _) =>
      case AtFetch(_, _, _) =>
    }
  }

  lemma ApplyStable(cfg: Config, st: Stores, p: C.ClientPass, c: Choice, k: Key, v: string)
    requires SecretHolds(st, k, v) && CarriesOnly(p, v) && (p.AtCreate? || p.AtUpdate?)
    ensures var (st', o) := C.Step(cfg, st, k, p, c);
            SecretHolds(st', k, v) && (o.Go? ==> CarriesOnly(o.pass, v))
  {
    hide Grows, LogsGrow, CreateSecret, UpdateSecret;
    var st' := C.Step(cfg, st, k, p, c).0;
    assert st'.secrets == st.secrets
           || st'.secrets == Commit(st.secrets, ClientSecretName(k), Some(C.SecretOf(p.c.spec, v)));
  }

  lemma OwnStepStable(cfg: Config, st: Stores, p: C.ClientPass, c: Choice, k: Key, v: string)
    requires ClientPassOk(cfg, st, k, p) && LogsOk(cfg, st) && Owned(st, k, None, "") && k.kind == ClientKind && v != ""
    requires SecretHolds(st, k, v) && CarriesOnly(p, v)
    requires p.AtEarly? ==> Shows(st, k, c)
    ensures var (st', o) := C.Step(cfg, st, k, p, c);
            SecretHolds(st', k, v) && (o.Go? ==> CarriesOnly(o.pass, v))
  {
    hide Grows, LogsGrow, LogsOk, InsertClient, CreateSecret, UpdateSecret, UpdateStatus, ClientPassOk, Shows;
    match p {
      case AtCreate(_, _, _) => ApplyStable(cfg, st, p, c, k, v);
      case AtUpdate(_, _, _, _) => ApplyStable(cfg, st, p, c, k, v);
      case AtSecret(_, _, _) =>
      case AtWrite(_, _) =>
      case _ => EarlyStepStable(cfg, st, p, c, k, v);
    }
  }

  lemma NextStable(w: World, l: Label, k: Key, v: string)
    requires Inv(w) && Owned(w.st, k, None, "") && k.kind == ClientKind && v != ""
    requires Allowed(k, None, "", l) && Sees(w, k, l) && Stable(w, k, v)
    ensures Stable(Next(w, l), k, v)
  {
    hide LogsOk, TenantsInjective, PassOk, Owned, PassStep, C.Step, ClientPassOk, CarriesOnly, Grows, Environment,
        Shows;
    if l.Call? && l.k in w.passes {
      if l.k == k {
        OwnPass(w, k, l.c);
        OwnStepStable(w.cfg, w.st, w.passes[k].c, l.c, k, v);
        OwnEnding(w, k, l.c);
      } else {
        OthersKeepCredentials(w, l.k, l.c, k, None, "");
      }
    } else if !l.Call? {
      RuntimeKeepsCredentials(w, l, k, None);
      BeginCarriesNothing(k, v);
    }
  }

  lemma OwnEnding(w: World, k: Key, c: Choice)
    requires k in w.passes && w.passes[k].OfClient?
    ensures PassStep(w.cfg, w.st, k, w.passes[k], c).1 == ClientEnd(C.Step(w.cfg, w.st, k, w.passes[k].c, c).1)
  {
    hide Grows, C.Step;
  }

  lemma BeginCarriesNothing(k: Key, v: string)
    requires k.kind == ClientKind
    ensures BeginOf(k.kind).OfClient? && CarriesOnly(BeginOf(k.kind).c, v)
  {
  }

  /** With an empty secret in the spec: once the Secret holds a non-empty value, and no pass in
      flight carries another, every later world holds exactly that value and no pass ever
      generates one, stops and failures included, as long as passes see the Secret. */
  lemma {:induction false} GeneratedSecretStays(w: World, ls: seq<Label>, k: Key, v: string)
    requires Inv(w) && Owned(w.st, k, None, "") && k.kind == ClientKind && v != ""
    requires AllAllowed(k, None, "", ls) && AlwaysSees(w, k, ls) && Stable(w, k, v)
    ensures Stable(Exec(w, ls), k, v)
    decreases |ls|
  {
    hide Inv, Owned, Next, Allowed, Stable, Sees;
    if ls != [] {
      NextInv(w, ls[0]);
      OwnedNext(w, ls[0], k, None, "");
      NextStable(w, ls[0], k, v);
      GeneratedSecretStays(Next(w, ls[0]), ls[1..], k, v);
    }
  }

  // ---- From a fresh start ----------------------------------------------------------------

  ghost predicate NeverWritten(st: Stores, k: Key) {
    LogOf(st.secrets, ClientSecretName(k)) == [None]
  }

  /** There never was a Secret, or it holds one value and no pass carries another. */
  ghost predicate OneSecret(w: World, k: Key) {
    NeverWritten(w.st, k)
    || (Latest(w.st.secrets, ClientSecretName(k)).Some?
        && var v := C.Held(Latest(w.st.secrets, ClientSecretName(k)).value);
           v != "" && Stable(w, k, v))
  }

  /** The first Secret write is the only one that brings in a value: the one its pass carries. */
  lemma FirstWriteIsStable(cfg: Config, st: Stores, p: C.ClientPass, c: Choice, k: Key)
    requires ClientPassOk(cfg, st, k, p) && NeverWritten(st, k)
    ensures var (st', o) := C.Step(cfg, st, k, p, c);
            NeverWritten(st', k)
            || ((p.AtCreate? || p.AtUpdate?) && p.secret != "" && SecretHolds(st', k, p.secret)
                && (o.Go? ==> CarriesOnly(o.pass, p.secret)))
  {
    hide Grows, C.Step;
    C.StepSecrets(cfg, st, k, p, c);
    if p.AtCreate? || p.AtUpdate? {
      WriteIsNext(cfg, st, k, p, c);
    }
  }

  lemma WriteIsNext(cfg: Config, st: Stores, k: Key, p: C.ClientPass, c: Choice)
    requires p.AtCreate? || p.AtUpdate?
    ensures var o := C.Step(cfg, st, k, p, c).1; o.Go? ==> o.pass.AtWrite?
  {
    hide Grows, LogsGrow, CreateSecret, UpdateSecret;
  }

  lemma NextOneSecret(w: World, l: Label, k: Key)
    requires Inv(w) && Owned(w.st, k, None, "") && k.kind == ClientKind
    requires Allowed(k, None, "", l) && Sees(w, k, l) && OneSecret(w, k)
    ensures OneSecret(Next(w, l), k)
  {
    hide Inv, PassStep, C.Step, ClientPassOk, Owned, Next, Sees, Stable, CarriesOnly, ClientEnd;
    if !NeverWritten(w.st, k) {
      NextStable(w, l, k, C.Held(Latest(w.st.secrets, ClientSecretName(k)).value));
      StableIsOne(Next(w, l), k, C.Held(Latest(w.st.secrets, ClientSecretName(k)).value));
    } else if l.Call? {
      CallStores(w, l.k, l.c);
      if l.k in w.passes && l.k == k {
        OwnPass(w, k, l.c);
        FirstWriteIsStable(w.cfg, w.st, w.passes[k].c, l.c, k);
        CallMakesOne(w, k, l.c);
      } else if l.k in w.passes {
        OthersKeepCredentials(w, l.k, l.c, k, None, "");
      }
    } else {
      RuntimeKeepsCredentials(w, l, k, None);
    }
  }

  lemma StableIsOne(w: World, k: Key, v: string)
    requires v != "" && Stable(w, k, v)
    ensures OneSecret(w, k)
  {
  }

  lemma CallMakesOne(w: World, k: Key, c: Choice)
    requires k in w.passes && w.passes[k].OfClient?
    requires var p := w.passes[k].c;
      var (st', o) := C.Step(w.cfg, w.st, k, p, c);
      NeverWritten(st', k)
      || ((p.AtCreate? || p.AtUpdate?) && p.secret != "" && SecretHolds(st', k, p.secret)
          && (o.Go? ==> CarriesOnly(o.pass, p.secret)))
    ensures OneSecret(Next(w, Call(k, c)), k)
  {
    hide C.Step, CarriesOnly, Grows, TenantsInjective;
  }

  lemma {:induction false} ExecOneSecret(w: World, ls: seq<Label>, k: Key)
    requires Inv(w) && Owned(w.st, k, None, "") && k.kind == ClientKind
    requires AllAllowed(k, None, "", ls) && AlwaysSees(w, k, ls) && OneSecret(w, k)
    ensures Inv(Exec(w, ls)) && Owned(Exec(w, ls).st, k, None, "") && OneSecret(Exec(w, ls), k)
    decreases |ls|
  {
    hide Inv, Owned, Next, Allowed, OneSecret, Sees;
    if ls != [] {
      NextInv(w, ls[0]);
      OwnedNext(w, ls[0], k, None, "");
      NextOneSecret(w, ls[0], k);
      ExecOneSecret(Next(w, ls[0]), ls[1..], k);
    }
  }

  /** From a fresh start, with an empty secret in the spec and nobody else writing the Secret,
      as long as passes see it: whatever value it has at some time it has ever after, and no
      pass generates another from then on. */
  lemma SecretStaysFromStart(w: World, before: seq<Label>, after: seq<Label>, k: Key)
    requires Initial(w) && k.kind == ClientKind && NeverWritten(w.st, k)
    requires AllAllowed(k, None, "", before) && AllAllowed(k, None, "", after)
    requires AlwaysSees(w, k, before) && AlwaysSees(Exec(w, before), k, after)
    requires Latest(Exec(w, before).st.secrets, ClientSecretName(k)).Some?
    ensures var v := C.Held(Latest(Exec(w, before).st.secrets, ClientSecretName(k)).value);
            v != "" && Stable(Exec(Exec(w, before), after), k, v)
  {
    hide Next, Inv, AllAllowed, AlwaysSees, Stable, TenantsInjective;
    InitialInv(w);
    assert Owned(w.st, k, None, "") by { NothingOwned(w, k, None, ""); }
    ExecOneSecret(w, before, k);
    GeneratedSecretStays(Exec(w, before), after, k,
        C.Held(Latest(Exec(w, before).st.secrets, ClientSecretName(k)).value));
  }

  lemma NothingOwned(w: World, k: Key, row: Option<RowKey>, secret: string)
    requires w.st.log == map[]
    ensures Owned(w.st, k, row, secret)
  {
  }

  // ---- Agreement of a generated secret -----------------------------------------------------

  /** Past its database call and before its Secret write. */
  predicate Between(p: C.ClientPass) {
    p.AtSecret? || p.AtCreate? || p.AtUpdate?
  }

  /** The pass that inserted the row is on its way to the first Secret write. */
  ghost predicate FirstWrite(st: Stores, k: Key, p: C.ClientPass) {
    Between(p) && NeverWritten(st, k)
  }

  ghost predicate UnderWay(w: World, k: Key) {
    k in w.passes && w.passes[k].OfClient? && FirstWrite(w.st, k, w.passes[k].c)
  }

  /** A row has its secret in the Secret, or the first Secret write is on its way. */
  ghost predicate Consistent(w: World, k: Key, row: RowKey) {
    row in w.st.clientRows ==> SecretHolds(w.st, k, w.st.clientRows[row].secret) || UnderWay(w, k)
  }

  /** The call ends the pass, or lets it go on, without its first Secret write. */
  ghost predicate CallStops(st: Stores, k: Key, row: RowKey, p: C.ClientPass, c: Choice) {
    || (p.AtInsert? && row !in st.clientRows && c.fault == Lost && FreshClient(st, c.id))
    || (FirstWrite(st, k, p) && ((p.AtSecret? && c.fault != Fine) || (p.AtCreate? && c.fault == Broken)))
  }

  /** The pass that inserts the row is stopped between its insert and the first Secret write. */
  ghost predicate Stops(w: World, k: Key, row: RowKey, l: Label) {
    k in w.passes && w.passes[k].OfClient? &&
    match l
    case Abort(j) => j == k && UnderWay(w, k)
    case Restart => UnderWay(w, k)
    case Call(j, c) => j == k && CallStops(w.st, k, row, w.passes[k].c, c)
    case _ => false
  }

  ghost predicate NeverStops(w: World, k: Key, row: RowKey, ls: seq<Label>)
    decreases |ls|
  {
    ls != [] ==> !Stops(w, k, row, ls[0]) && NeverStops(Next(w, ls[0]), k, row, ls[1..])
  }

  ghost predicate AlwaysConsistent(w: World, k: Key, row: RowKey, ls: seq<Label>)
    decreases |ls|
  {
    Consistent(w, k, row) && (ls != [] ==> AlwaysConsistent(Next(w, ls[0]), k, row, ls[1..]))
  }

  ghost predicate RowHolds(st: Stores, row: RowKey, v: string) {
    row in st.clientRows && st.clientRows[row].secret == v
  }

  /** The secret a pass carries is the row's; before the row exists it is free to choose. */
  ghost predicate CarriesRow(st: Stores, k: Key, row: RowKey, p: C.ClientPass) {
    match p
    case AtGenerate(_, _) => row !in st.clientRows
    case AtInsert(_, _, s) => row in st.clientRows ==> RowHolds(st, row, s)
    case AtFetch(_, _, s) => RowHolds(st, row, s)
    case AtSecret(_, _, s) => RowHolds(st, row, s)
    case AtCreate(_, _, s) => RowHolds(st, row, s)
    case AtUpdate(_, _, s, _) => RowHolds(st, row, s) && Latest(st.secrets, ClientSecretName(k)).Some?
    case _ => true
  }

  /** Without a row there never was a Secret; with one, the Secret holds the row's secret,
      unless its first write is under way. */
  ghost predicate Agreeing(st: Stores, k: Key, row: RowKey, underWay: bool) {
    if row in st.clientRows then
      && st.clientRows[row].secret != ""
      && (SecretHolds(st, k, st.clientRows[row].secret) || (underWay && NeverWritten(st, k)))
    else NeverWritten(st, k)
  }

  ghost predicate Agrees(w: World, k: Key, row: RowKey) {
    && Agreeing(w.st, k, row, UnderWay(w, k))
    && (k in w.passes && w.passes[k].OfClient? ==> CarriesRow(w.st, k, row, w.passes[k].c))
  }

  /** What a call of the client's own pass leaves. */
  ghost predicate StepAgrees(st': Stores, o: C.Outcome, k: Key, row: RowKey) {
    && Agreeing(st', k, row, o.Go? && FirstWrite(st', k, o.pass))
    && (o.Go? ==> CarriesRow(st', k, row, o.pass))
  }

  lemma EarlyStepAgrees(cfg: Config, st: Stores, p: C.ClientPass, c: Choice, k: Key, row: RowKey)
    requires ClientPassOk(cfg, st, k, p) && LogsOk(cfg, st) && Owned(st, k, Some(row), "") && k.kind == ClientKind
    requires cfg.database && Agreeing(st, k, row, false) && CarriesRow(st, k, row, p)
    requires p.Begin? || p.AtEarly? || p.AtGenerate? || p.AtFetch?
    requires p.AtEarly? && Latest(st.secrets, ClientSecretName(k)).Some? ==> Shows(st, k, c)
    ensures var (st', o) := C.Step(cfg, st, k, p, c); StepAgrees(st', o, k, row)
  {
    hide Grows, LogsGrow, LogsOk, InsertClient, CreateSecret, UpdateSecret, UpdateStatus;
    match p {
      case Begin => if Get(st, k, c).Found? { GetIsVersion(cfg, st, k, c); }
      case AtEarly(_, _) =>
      case AtGenerate(_, _) =>
      case AtFetch(_, _, _) =>
    }
  }

  lemma InsertAgrees(cfg: Config, st: Stores, p: C.ClientPass, c: Choice, k: Key, row: RowKey)
    requires ClientPassOk(cfg, st, k, p) && Owned(st, k, Some(row), "") && k.kind == ClientKind
    requires p.AtInsert? && Agreeing(st, k, row, false) && CarriesRow(st, k, row, p)
    requires !CallStops(st, k, row, p, c)
    ensures var (st', o) := C.Insert(st, p.ver, p.c, p.secret, c); StepAgrees(st', o, k, row)
  {
    hide Grows;
    assert C.RowKeyOf(p.c.spec) == row;
    var (st', o) := InsertClient(st, row, p.secret, C.StreamOf(p.c.spec), c);
    if o.InsertError? {
      assert st' == st;
    }
  }

  lemma SecretAgrees(cfg: Config, st: Stores, p: C.ClientPass, c: Choice, k: Key, row: RowKey)
    requires p.AtSecret? && Agreeing(st, k, row, FirstWrite(st, k, p)) && CarriesRow(st, k, row, p)
    requires !CallStops(st, k, row, p, c)
    ensures var (st', o) := C.Step(cfg, st, k, p, c); StepAgrees(st', o, k, row)
  {
    hide Grows, LogsGrow, CreateSecret, UpdateSecret, UpdateStatus;
  }

  /** The Secret write brings the Secret to the row's secret, or fails and leaves it there. */
  lemma ApplyAgrees(cfg: Config, st: Stores, p: C.ClientPass, c: Choice, k: Key, row: RowKey)
    requires (p.AtCreate? || p.AtUpdate?) && CarriesRow(st, k, row, p)
    requires Agreeing(st, k, row, FirstWrite(st, k, p)) && !CallStops(st, k, row, p, c)
    ensures var (st', o) := C.Step(cfg, st, k, p, c); StepAgrees(st', o, k, row)
  {
    hide Grows, LogsGrow;
  }

  lemma OwnStepAgrees(cfg: Config, st: Stores, p: C.ClientPass, c: Choice, k: Key, row: RowKey)
    requires ClientPassOk(cfg, st, k, p) && LogsOk(cfg, st) && Owned(st, k, Some(row), "") && k.kind == ClientKind
    requires cfg.database && Agreeing(st, k, row, FirstWrite(st, k, p)) && CarriesRow(st, k, row, p)
    requires p.AtEarly? && Latest(st.secrets, ClientSecretName(k)).Some? ==> Shows(st, k, c)
    requires !CallStops(st, k, row, p, c)
    ensures var (st', o) := C.Step(cfg, st, k, p, c); StepAgrees(st', o, k, row)
  {
    hide Grows, LogsGrow, LogsOk, Owned, ClientPassOk, Shows, CarriesRow, Agreeing, StepAgrees, CallStops, NeverWritten;
    hide InsertClient, CreateSecret, UpdateSecret, C.Secret, C.Create, C.Update, C.Insert, C.Early, C.Generate, C.Fetch;
    match p {
      case AtInsert(_, _, _) => InsertAgrees(cfg, st, p, c, k, row);
      case AtSecret(_, _, _) => SecretAgrees(cfg, st, p, c, k, row);
      case AtCreate(_, _, _) => ApplyAgrees(cfg, st, p, c, k, row);
      case AtUpdate(_, _, _, _) => ApplyAgrees(cfg, st, p, c, k, row);
      case AtWrite(_, _) => WriteAgrees(cfg, st, p, c, k, row);
      case _ => EarlyStepAgrees(cfg, st, p, c, k, row);
    }
  }

  lemma WriteAgrees(cfg: Config, st: Stores, p: C.ClientPass, c: Choice, k: Key, row: RowKey)
    requires p.AtWrite? && Agreeing(st, k, row, false)
    ensures var (st', o) := C.Step(cfg, st, k, p, c); StepAgrees(st', o, k, row)
  {
    hide Grows, LogsGrow;
  }

  /** A stop leaves at once a row whose secret the Secret does not hold, and no pass that is on
      its way to write it. */
  lemma CallStopDisagrees(cfg: Config, st: Stores, p: C.ClientPass, c: Choice, k: Key, row: RowKey)
    requires ClientPassOk(cfg, st, k, p) && Owned(st, k, Some(row), "") && k.kind == ClientKind
    requires Agreeing(st, k, row, FirstWrite(st, k, p)) && CarriesRow(st, k, row, p)
    requires CallStops(st, k, row, p, c)
    ensures var (st', o) := C.Step(cfg, st, k, p, c);
      row in st'.clientRows && NeverWritten(st', k) && !(o.Go? && FirstWrite(st', k, o.pass))
  {
    hide Grows, LogsGrow;
    if p.AtInsert? {
      assert C.RowKeyOf(p.c.spec) == row;
    }
  }

  lemma OwnCallAgrees(w: World, c: Choice, k: Key, row: RowKey)
    requires Inv(w) && Owned(w.st, k, Some(row), "") && k.kind == ClientKind && w.cfg.database
    requires k in w.passes && Sees(w, k, Call(k, c)) && Agrees(w, k, row)
    ensures if Stops(w, k, row, Call(k, c)) then !Consistent(Next(w, Call(k, c)), k, row)
            else Agrees(Next(w, Call(k, c)), k, row)
  {
    hide TenantsInjective, PassOk, Owned, PassStep, C.Step, ClientPassOk, CarriesRow, Grows, Environment, LogsOk;
    hide NeverWritten, CallStops, FirstWrite;
    OwnPass(w, k, c);
    OwnEnding(w, k, c);
    var p := w.passes[k].c;
    if CallStops(w.st, k, row, p, c) {
      CallStopDisagrees(w.cfg, w.st, p, c, k, row);
      NoSecretHolds(C.Step(w.cfg, w.st, k, p, c).0, k);
    } else {
      OwnStepAgrees(w.cfg, w.st, p, c, k, row);
    }
  }

  lemma NoSecretHolds(st: Stores, k: Key)
    requires NeverWritten(st, k)
    ensures forall v :: !SecretHolds(st, k, v)
  {
  }

  lemma SameAgrees(st: Stores, st': Stores, k: Key, row: RowKey, underWay: bool)
    requires SameCredentials(st, st', k, Some(row)) && Agreeing(st, k, row, underWay)
    ensures Agreeing(st', k, row, underWay)
    ensures forall p :: CarriesRow(st, k, row, p) ==> CarriesRow(st', k, row, p)
    ensures NeverWritten(st', k) == NeverWritten(st, k)
  {
  }

  /** A label that is no call of the client's own pass: a stop disagrees, all else agrees. */
  lemma OtherAgrees(w: World, l: Label, k: Key, row: RowKey)
    requires Inv(w) && Owned(w.st, k, Some(row), "") && k.kind == ClientKind && w.cfg.database
    requires Allowed(k, Some(row), "", l) && Agrees(w, k, row) && !(l.Call? && l.k == k && k in w.passes)
    ensures if Stops(w, k, row, l) then !Consistent(Next(w, l), k, row) else Agrees(Next(w, l), k, row)
  {
    hide Inv, Owned, PassStep, C.Step, CarriesRow, SameCredentials, Grows, Environment, NeverWritten;
    var w' := Next(w, l);
    if l.Call? && l.k in w.passes {
      OthersKeepCredentials(w, l.k, l.c, k, Some(row), "");
    } else if l.Call? {
      assert SameCredentials(w.st, w'.st, k, Some(row)) by { SameItself(w.st, k, row); }
    } else {
      RuntimeKeepsCredentials(w, l, k, Some(row));
    }
    SameAgrees(w.st, w'.st, k, row, UnderWay(w, k));
    if k in w'.passes && k !in w.passes {
      BeginCarriesRow(w'.st, k, row);
    }
    if Stops(w, k, row, l) {
      NoSecretHolds(w'.st, k);
      UnderWayHasRow(w, k, row);
      SameHasRow(w.st, w'.st, k, row);
    }
  }

  lemma UnderWayHasRow(w: World, k: Key, row: RowKey)
    requires Agrees(w, k, row) && UnderWay(w, k)
    ensures row in w.st.clientRows
  {
  }

  lemma SameHasRow(st: Stores, st': Stores, k: Key, row: RowKey)
    requires SameCredentials(st, st', k, Some(row)) && row in st.clientRows
    ensures row in st'.clientRows
  {
  }

  lemma SameItself(st: Stores, k: Key, row: RowKey)
    ensures SameCredentials(st, st, k, Some(row))
  {
  }

  lemma BeginCarriesRow(st: Stores, k: Key, row: RowKey)
    requires k.kind == ClientKind
    ensures BeginOf(k.kind).OfClient? && CarriesRow(st, k, row, BeginOf(k.kind).c) && !Between(BeginOf(k.kind).c)
  {
  }

  lemma NextAgrees(w: World, l: Label, k: Key, row: RowKey)
    requires Inv(w) && Owned(w.st, k, Some(row), "") && k.kind == ClientKind && w.cfg.database
    requires Allowed(k, Some(row), "", l) && Sees(w, k, l) && Agrees(w, k, row)
    ensures if Stops(w, k, row, l) then !Consistent(Next(w, l), k, row) else Agrees(Next(w, l), k, row)
  {
    hide Inv, Owned, Next, Agrees, Consistent, Stops, Sees, Allowed;
    if l.Call? && l.k == k && k in w.passes {
      OwnCallAgrees(w, l.c, k, row);
    } else {
      OtherAgrees(w, l, k, row);
    }
  }

  lemma AgreesIsConsistent(w: World, k: Key, row: RowKey)
    requires Agrees(w, k, row)
    ensures Consistent(w, k, row)
  {
    hide NeverWritten, CarriesRow;
  }

  lemma {:induction false} ExecConsistent(w: World, ls: seq<Label>, k: Key, row: RowKey)
    requires Inv(w) && Owned(w.st, k, Some(row), "") && k.kind == ClientKind && w.cfg.database
    requires AllAllowed(k, Some(row), "", ls) && AlwaysSees(w, k, ls) && Agrees(w, k, row)
    ensures AlwaysConsistent(w, k, row, ls) <==> NeverStops(w, k, row, ls)
    decreases |ls|
  {
    hide Inv, Owned, Next, Allowed, Agrees, Consistent, Stops, Sees;
    AgreesIsConsistent(w, k, row);
    if ls != [] {
      NextInv(w, ls[0]);
      OwnedNext(w, ls[0], k, Some(row), "");
      NextAgrees(w, ls[0], k, row);
      if !Stops(w, k, row, ls[0]) {
        ExecConsistent(Next(w, ls[0]), ls[1..], k, row);
      }
    }
  }

  /** From a fresh start with an empty secret in the spec, as long as passes see an existing
      Secret: row and Secret agree at every moment of the run, the way to the first Secret
      write aside, exactly when no pass of the client is stopped between the insert of the row
      and that write. Stops, failures and lost replies anywhere else do no harm. */
  lemma GeneratedSecretAgrees(w: World, ls: seq<Label>, k: Key, row: RowKey)
    requires Initial(w) && k.kind == ClientKind && w.cfg.database
    requires row !in w.st.clientRows && NeverWritten(w.st, k)
    requires AllAllowed(k, Some(row), "", ls) && AlwaysSees(w, k, ls)
    ensures AlwaysConsistent(w, k, row, ls) <==> NeverStops(w, k, row, ls)
  {
    hide Next, Inv, AllAllowed, AlwaysSees, NeverWritten;
    InitialInv(w);
    assert Owned(w.st, k, Some(row), "") by { NothingOwned(w, k, Some(row), ""); }
    ExecConsistent(w, ls, k, row);
  }
}
