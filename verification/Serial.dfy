/** Client and user passes, interleaved at any call and with edits of their resources, leave
    exactly what they leave one resource after another, in any order, when no two of them share
    a row. */
module Serial {
  import opened Base
  import opened Resources
  import opened Stores
  import opened Machine
  import C = ClientController
  import U = UserController

  /** The IDs the database gives, fixed for each tenant name and each client key. */
  datatype Ids = Ids(tenant: string -> string, client: RowKey -> string)

  ghost predicate Proper(ids: Ids) {
    && (forall n :: ids.tenant(n) != "") && (forall n, m :: ids.tenant(n) == ids.tenant(m) ==> n == m)
    && (forall r :: ids.client(r) != "") && (forall r, s :: ids.client(r) == ids.client(s) ==> r == s)
  }

  /** Tenant and client ID of a client, or tenant name and username of a user. */
  type Plan = map<Key, RowKey>

  predicate IsPassKind(kind: Kind) {
    kind == ClientKind || kind == UserKind
  }

  /** No two clients share a row, and no two users share a row or, in a namespace, a username. */
  ghost predicate Disjoint(plan: Plan) {
    && (forall k :: k in plan ==> IsPassKind(k.kind))
    && (forall k, j :: k in plan && j in plan && k != j && k.kind == j.kind ==> plan[k] != plan[j])
    && (forall k, j :: k in plan && j in plan && k != j && k.kind == j.kind == UserKind && k.namespace == j.namespace
                       ==> plan[k].1 != plan[j].1)
  }

  function SecretNameOf(plan: Plan, k: Key): Name
    requires k in plan
  {
    if k.kind == ClientKind then ClientSecretName(k) else UserSecretName(k, plan[k].1)
  }

  lemma SecretsApart(plan: Plan, k: Key, j: Key)
    requires Disjoint(plan) && k in plan && j in plan && k != j
    ensures SecretNameOf(plan, k) != SecretNameOf(plan, j)
  {
    if k.kind == j.kind == ClientKind {
      if ClientSecretName(k) == ClientSecretName(j) { SecretNamesInjective(k, j); }
    } else if k.kind == ClientKind {
      SecretNamesApart(k, j, plan[j].1);
    } else if j.kind == ClientKind {
      SecretNamesApart(j, k, plan[k].1);
    } else {
      assert UserSecretName(k, plan[k].1).name[10..] == plan[k].1;
      assert UserSecretName(j, plan[j].1).name[10..] == plan[j].1;
    }
  }

  // ---- Worlds that follow the plan ------------------------------------------------------------

  predicate Planned(row: RowKey, r: Resource) {
    match r
    case ClientR(x) => C.RowKeyOf(x.spec) == row
    case UserR(u) => (u.spec.tenantID, u.spec.username) == row
    case _ => true
  }

  ghost predicate ClientFits(row: RowKey, p: C.ClientPass) {
    p.Begin? || C.RowKeyOf(p.c.spec) == row
  }

  ghost predicate UserFits(ids: Ids, row: RowKey, p: U.UserPass) {
    (p.Begin? || (p.u.spec.tenantID, p.u.spec.username) == row)
    && (p.AtRow? ==> p.tenantID == ids.tenant(row.0))
  }

  ghost predicate PassFits(ids: Ids, row: RowKey, kind: Kind, p: Pass) {
    match p
    case OfClient(p) => kind == ClientKind && ClientFits(row, p)
    case OfUser(p) => kind == UserKind && UserFits(ids, row, p)
    case _ => false
  }

  ghost predicate LogFits(st: Stores, k: Key, row: RowKey) {
    forall i :: 0 <= i < |LogOf(st.log, k)| && LogOf(st.log, k)[i].Some? ==> Planned(row, LogOf(st.log, k)[i].value)
  }

  /** IDs in the database are the fixed ones. */
  ghost predicate IdsFit(ids: Ids, st: Stores) {
    && (forall n :: n in st.tenants ==> st.tenants[n] == ids.tenant(n))
    && (forall r :: r in st.clientRows ==> st.clientRows[r].id == ids.client(r))
  }

  ghost predicate Fits(ids: Ids, plan: Plan, w: World) {
    && IdsFit(ids, w.st)
    && forall k :: k in plan ==>
         LogFits(w.st, k, plan[k]) && (k in w.passes ==> PassFits(ids, plan[k], k.kind, w.passes[k]))
  }

  /** A label of one of the plan's resources, which keeps to its row; a new ID is the fixed one. */
  predicate Local(ids: Ids, plan: Plan, l: Label) {
    match l
    case Create(k, r) => k in plan && Planned(plan[k], r)
    case Edit(k, r) => k in plan && Planned(plan[k], r)
    case Remove(k) => k in plan
    case Deliver(k) => k in plan
    case Timer(k) => k in plan
    case Start(k) => k in plan
    case Abort(k) => k in plan
    case Call(k, c) => k in plan && c.id == if k.kind == ClientKind then ids.client(plan[k]) else ids.tenant(plan[k].0)
    case _ => false
  }

  /** A label of no resource that client and user passes never notice. */
  predicate Neutral(l: Label) {
    l.Tick? || l.Scale?
  }

  predicate Permitted(ids: Ids, plan: Plan, l: Label) {
    Neutral(l) || Local(ids, plan, l)
  }

  /** The resource a label belongs to, if any. */
  function KeyOf(l: Label): Option<Key> {
    match l
    case Create(k, _) => Some(k)
    case Edit(k, _) => Some(k)
    case Remove(k) => Some(k)
    case Deliver(k) => Some(k)
    case Timer(k) => Some(k)
    case Start(k) => Some(k)
    case Abort(k) => Some(k)
    case Call(k, _) => Some(k)
    case _ => None
  }

  // ---- What a label of `k` reads and writes -----------------------------------------------------

  predicate Same<K, V(==)>(a: map<K, V>, b: map<K, V>, k: K) {
    (k in a <==> k in b) && (k in a ==> a[k] == b[k])
  }

  ghost predicate SameElsewhere<K(!new), V>(a: map<K, V>, b: map<K, V>, k: K) {
    forall j :: j != k ==> Same(a, b, j)
  }

  /** The two stores agree on all that belongs to `k`. */
  ghost predicate AgreeAt(ids: Ids, plan: Plan, a: Stores, b: Stores, k: Key)
    requires k in plan
  {
    && Same(a.log, b.log, k) && Same(a.seen, b.seen, k) && Same(a.secrets, b.secrets, SecretNameOf(plan, k))
    && (if k.kind == ClientKind then Same(a.clientRows, b.clientRows, plan[k])
        else Same(a.userRows, b.userRows, (ids.tenant(plan[k].0), plan[k].1)))
  }

  /** `b` differs from `a` only in what belongs to `k`, and perhaps in tenants. */
  ghost predicate OnlyAt(ids: Ids, plan: Plan, a: Stores, b: Stores, k: Key)
    requires k in plan
  {
    && b == a.(log := b.log, seen := b.seen, secrets := b.secrets, tenants := b.tenants, clientRows := b.clientRows,
        userRows := b.userRows)
    && SameElsewhere(a.log, b.log, k) && SameElsewhere(a.seen, b.seen, k)
    && SameElsewhere(a.secrets, b.secrets, SecretNameOf(plan, k))
    && (if k.kind == ClientKind then SameElsewhere(a.clientRows, b.clientRows, plan[k]) && b.userRows == a.userRows
        else SameElsewhere(a.userRows, b.userRows, (ids.tenant(plan[k].0), plan[k].1)) && b.clientRows == a.clientRows)
  }

  /** Whether the call asks the database for the tenant, and it takes effect. */
  predicate AsksTenant(p: Pass, c: Choice) {
    p.OfUser? && p.u.AtTenant? && c.fault != Broken
  }

  function WithTenant(ids: Ids, tenants: map<string, string>, asks: bool, name: string): map<string, string> {
    if asks then tenants[name := ids.tenant(name)] else tenants
  }

  // ---- The calls, one by one -----------------------------------------------------------------------

  lemma CommitSame<K(!new), V>(a: map<K, Log<V>>, b: map<K, Log<V>>, k: K, v: Option<V>)
    requires Same(a, b, k)
    ensures Same(Commit(a, k, v), Commit(b, k, v), k)
  {
  }

  lemma GetSame(a: Stores, b: Stores, k: Key, c: Choice)
    requires Same(a.log, b.log, k) && Same(a.seen, b.seen, k)
    ensures Get(a, k, c) == Get(b, k, c)
  {
  }

  lemma GetSecretSame(a: Stores, b: Stores, n: Name, c: Choice)
    requires Same(a.secrets, b.secrets, n)
    ensures GetSecret(a, n, c) == GetSecret(b, n, c)
  {
  }

  lemma StatusSame(a: Stores, b: Stores, k: Key, ver: nat, r: Resource, c: Choice)
    requires Same(a.log, b.log, k)
    ensures UpdateStatus(a, k, ver, r, c).1 == UpdateStatus(b, k, ver, r, c).1
    ensures Same(UpdateStatus(a, k, ver, r, c).0.log, UpdateStatus(b, k, ver, r, c).0.log, k)
  {
    hide Grows, Commit;
    CommitSame(a.log, b.log, k, Some(r));
  }

  lemma CreateSecretIs(st: Stores, n: Name, d: Data, c: Choice)
    ensures var (st', ok) := CreateSecret(st, n, d, c);
      && ok == (c.fault == Fine && Latest(st.secrets, n).None?)
      && st'.secrets == if c.fault != Broken && Latest(st.secrets, n).None? then Commit(st.secrets, n, Some(d))
          else st.secrets
  {
    hide Grows, LogsGrow, Commit;
  }

  lemma CreateSecretSame(a: Stores, b: Stores, n: Name, d: Data, c: Choice)
    requires Same(a.secrets, b.secrets, n)
    ensures CreateSecret(a, n, d, c).1 == CreateSecret(b, n, d, c).1
    ensures Same(CreateSecret(a, n, d, c).0.secrets, CreateSecret(b, n, d, c).0.secrets, n)
  {
    hide Grows, LogsGrow, Commit, CreateSecret;
    CreateSecretIs(a, n, d, c);
    CreateSecretIs(b, n, d, c);
    CommitSame(a.secrets, b.secrets, n, Some(d));
  }

  lemma UpdateSecretIs(st: Stores, n: Name, ver: nat, d: Data, c: Choice)
    ensures var (st', ok) := UpdateSecret(st, n, ver, d, c);
      var fits := ver == Version(st.secrets, n) && Latest(st.secrets, n).Some?;
      && ok == (c.fault == Fine && fits)
      && st'.secrets == if c.fault != Broken && fits then Commit(st.secrets, n, Some(d)) else st.secrets
  {
    hide Grows, LogsGrow, Commit;
  }

  lemma UpdateSecretSame(a: Stores, b: Stores, n: Name, ver: nat, d: Data, c: Choice)
    requires Same(a.secrets, b.secrets, n)
    ensures UpdateSecret(a, n, ver, d, c).1 == UpdateSecret(b, n, ver, d, c).1
    ensures Same(UpdateSecret(a, n, ver, d, c).0.secrets, UpdateSecret(b, n, ver, d, c).0.secrets, n)
  {
    hide Grows, LogsGrow, Commit, UpdateSecret;
    UpdateSecretIs(a, n, ver, d, c);
    UpdateSecretIs(b, n, ver, d, c);
    CommitSame(a.secrets, b.secrets, n, Some(d));
  }

  lemma InsertSame(ids: Ids, a: Stores, b: Stores, row: RowKey, secret: string, streamID: Option<string>, c: Choice)
    requires Proper(ids) && IdsFit(ids, a) && IdsFit(ids, b)
    requires Same(a.clientRows, b.clientRows, row) && c.id == ids.client(row)
    ensures InsertClient(a, row, secret, streamID, c).1 == InsertClient(b, row, secret, streamID, c).1
    ensures Same(InsertClient(a, row, secret, streamID, c).0.clientRows,
            InsertClient(b, row, secret, streamID, c).0.clientRows, row)
  {
    hide Grows;
    assert row !in a.clientRows ==> FreshClient(a, c.id);
    assert row !in b.clientRows ==> FreshClient(b, c.id);
  }

  lemma EnsureUserIs(st: Stores, tenantID: string, username: string, password: string, c: Choice)
    ensures var (st', ok) := EnsureUser(st, tenantID, username, password, c);
      var known := (tenantID, username) in st.userRows;
      && ok == (c.fault == Fine && !(known && c.number == 0))
      && st'.userRows == if c.fault == Broken || (known && c.number <= 1) then st.userRows
          else st.userRows[(tenantID, username) := password]
  {
    hide Grows;
  }

  lemma EnsureUserSame(a: Stores, b: Stores, tenantID: string, username: string, password: string, c: Choice)
    requires Same(a.userRows, b.userRows, (tenantID, username))
    ensures EnsureUser(a, tenantID, username, password, c).1 == EnsureUser(b, tenantID, username, password, c).1
    ensures Same(EnsureUser(a, tenantID, username, password, c).0.userRows,
            EnsureUser(b, tenantID, username, password, c).0.userRows, (tenantID, username))
  {
    hide Grows, EnsureUser;
    EnsureUserIs(a, tenantID, username, password, c);
    EnsureUserIs(b, tenantID, username, password, c);
  }

  /** With fixed IDs the answer does not depend on who created the tenant. */
  lemma TenantCall(ids: Ids, st: Stores, name: string, c: Choice)
    requires Proper(ids) && IdsFit(ids, st) && c.id == ids.tenant(name)
    ensures var (st', id) := EnsureTenant(st, name, c);
      && st'.tenants == WithTenant(ids, st.tenants, c.fault != Broken, name)
      && id == (if c.fault == Fine then Some(ids.tenant(name)) else None)
  {
    hide Grows, TenantsInjective;
    assert name !in st.tenants ==> FreshTenant(st, c.id);
  }

  // ---- Client passes ------------------------------------------------------------------------------

  lemma ClientOnlyAt(ids: Ids, plan: Plan, cfg: Config, st: Stores, k: Key, p: C.ClientPass, c: Choice)
    requires k in plan && k.kind == ClientKind && ClientFits(plan[k], p)
    ensures var st' := C.Step(cfg, st, k, p, c).0;
      OnlyAt(ids, plan, st, st', k) && st'.tenants == st.tenants
  {
    hide C.Step, Grows;
    C.StepWrites(cfg, st, k, p, c);
    C.StepSecrets(cfg, st, k, p, c);
    C.StepRows(cfg, st, k, p, c);
  }

  /** Equal readings at `k`, equal outcomes and equal writings at `k`. */
  lemma ClientLocal(ids: Ids, plan: Plan, cfg: Config, a: Stores, b: Stores, k: Key, p: C.ClientPass, c: Choice)
    requires Proper(ids) && k in plan && k.kind == ClientKind && ClientFits(plan[k], p) && c.id == ids.client(plan[k])
    requires AgreeAt(ids, plan, a, b, k) && IdsFit(ids, a) && IdsFit(ids, b)
    ensures C.Step(cfg, a, k, p, c).1 == C.Step(cfg, b, k, p, c).1
    ensures AgreeAt(ids, plan, C.Step(cfg, a, k, p, c).0, C.Step(cfg, b, k, p, c).0, k)
  {
    hide Grows, ClientSecretName, Proper, IdsFit;
    hide Get, GetSecret, CreateSecret, UpdateSecret, UpdateStatus, InsertClient, C.SecretOf, C.Chosen;
    var n := ClientSecretName(k);
    match p {
      case Begin => GetSame(a, b, k, c);
      case AtEarly(_, _) => GetSecretSame(a, b, n, c);
      case AtGenerate(_, _) =>
      case AtInsert(_, x, secret) => InsertSame(ids, a, b, plan[k], secret, C.StreamOf(x.spec), c);
      case AtFetch(_, _, _) =>
      case AtSecret(_, _, _) => GetSecretSame(a, b, n, c);
      case AtCreate(_, x, secret) => CreateSecretSame(a, b, n, C.SecretOf(x.spec, secret), c);
      case AtUpdate(_, x, secret, v) => UpdateSecretSame(a, b, n, v, C.SecretOf(x.spec, secret), c);
      case AtWrite(ver, x) => StatusSame(a, b, k, ver, ClientR(x), c);
    }
  }

  // ---- User passes --------------------------------------------------------------------------------

  lemma CommitElsewhere<K(!new), V>(m: map<K, Log<V>>, k: K, v: Option<V>)
    ensures SameElsewhere(m, Commit(m, k, v), k)
  {
  }

  lemma UserOnlyAt(ids: Ids, plan: Plan, cfg: Config, st: Stores, k: Key, p: U.UserPass, c: Choice)
    requires k in plan && k.kind == UserKind && UserFits(ids, plan[k], p)
    requires Proper(ids) && IdsFit(ids, st) && c.id == ids.tenant(plan[k].0)
    ensures var st' := U.Step(cfg, st, k, p, c).0;
      && OnlyAt(ids, plan, st, st', k)
      && st'.tenants == WithTenant(ids, st.tenants, AsksTenant(OfUser(p), c), plan[k].0)
  {
    hide Grows, LogsGrow, TenantsInjective, ClientSecretName, Proper, IdsFit, U.Step;
    hide CreateSecret, UpdateSecret, UpdateStatus, EnsureTenant, EnsureUser, U.Chosen, Commit;
    U.StepWrites(cfg, st, k, p, c);
    U.StepSecrets(cfg, st, k, p, c);
    if p.AtWrite? {
      CommitElsewhere(st.log, k, Some(UserR(p.u)));
    }
    if p.AtCreate? || p.AtUpdate? {
      CommitElsewhere(st.secrets, UserSecretName(k, plan[k].1), Some(U.SecretOf(p.u, p.password)));
    }
    UserRowsOnlyAt(ids, plan, cfg, st, k, p, c);
  }

  lemma UserRowsOnlyAt(ids: Ids, plan: Plan, cfg: Config, st: Stores, k: Key, p: U.UserPass, c: Choice)
    requires k in plan && k.kind == UserKind && UserFits(ids, plan[k], p)
    requires Proper(ids) && IdsFit(ids, st) && c.id == ids.tenant(plan[k].0)
    ensures var st' := U.Step(cfg, st, k, p, c).0;
      && SameElsewhere(st.userRows, st'.userRows, (ids.tenant(plan[k].0), plan[k].1))
      && st'.tenants == WithTenant(ids, st.tenants, AsksTenant(OfUser(p), c), plan[k].0)
  {
    hide Grows, LogsGrow, TenantsInjective, UserSecretName, Proper, IdsFit;
    hide Get, GetSecret, CreateSecret, UpdateSecret, UpdateStatus, EnsureTenant, EnsureUser, U.SecretOf, U.Chosen,
        Commit;
    match p {
      case AtTenant(_, _, _) => TenantCall(ids, st, plan[k].0, c);
      case AtRow(_, _, password, tenantID) => UserRowOnlyAt(st, tenantID, plan[k].1, password, c);
      case _ =>
    }
  }

  lemma UserRowOnlyAt(st: Stores, tenantID: string, username: string, password: string, c: Choice)
    ensures SameElsewhere(st.userRows, EnsureUser(st, tenantID, username, password, c).0.userRows, (tenantID, username))
  {
    hide Grows;
  }

  lemma UserLocal(ids: Ids, plan: Plan, cfg: Config, a: Stores, b: Stores, k: Key, p: U.UserPass, c: Choice)
    requires Proper(ids) && k in plan && k.kind == UserKind
    requires UserFits(ids, plan[k], p) && c.id == ids.tenant(plan[k].0)
    requires AgreeAt(ids, plan, a, b, k) && IdsFit(ids, a) && IdsFit(ids, b)
    ensures U.Step(cfg, a, k, p, c).1 == U.Step(cfg, b, k, p, c).1
    ensures AgreeAt(ids, plan, U.Step(cfg, a, k, p, c).0, U.Step(cfg, b, k, p, c).0, k)
  {
    hide Grows, LogsGrow, Submap, TenantsInjective, UserSecretName, Proper, IdsFit, WithTenant;
    hide Get, GetSecret, CreateSecret, UpdateSecret, UpdateStatus, EnsureTenant, EnsureUser, U.SecretOf, U.Chosen,
        U.WithPassword;
    var n := UserSecretName(k, plan[k].1);
    match p {
      case Begin => GetSame(a, b, k, c);
      case AtGenerate(_, _) =>
      case AtTenant(_, _, _) => TenantCall(ids, a, plan[k].0, c); TenantCall(ids, b, plan[k].0, c);
      case AtRow(_, _, password, tenantID) => EnsureUserSame(a, b, tenantID, plan[k].1, password, c);
      case AtSecret(_, _, _) => GetSecretSame(a, b, n, c);
      case AtCreate(_, u, password) => CreateSecretSame(a, b, n, U.SecretOf(u, password), c);
      case AtUpdate(_, u, password, v) => UpdateSecretSame(a, b, n, v, U.SecretOf(u, password), c);
      case AtWrite(ver, u, _) => StatusSame(a, b, k, ver, UserR(u), c);
    }
  }

  // ---- Labels -----------------------------------------------------------------------------------------

  ghost predicate AgreeWorld(ids: Ids, plan: Plan, a: World, b: World, k: Key)
    requires k in plan
  {
    && a.cfg == b.cfg && AgreeAt(ids, plan, a.st, b.st, k)
    && (k in a.queue <==> k in b.queue) && (k in a.delayed <==> k in b.delayed) && Same(a.passes, b.passes, k)
  }

  ghost predicate OnlyWorld(ids: Ids, plan: Plan, a: World, b: World, k: Key)
    requires k in plan
  {
    && a.cfg == b.cfg && OnlyAt(ids, plan, a.st, b.st, k)
    && a.queue - {k} == b.queue - {k} && a.delayed - {k} == b.delayed - {k} && SameElsewhere(a.passes, b.passes, k)
  }

  predicate Asks(w: World, l: Label) {
    l.Call? && l.k in w.passes && AsksTenant(w.passes[l.k], l.c)
  }

  lemma OnlyItself(ids: Ids, plan: Plan, st: Stores, k: Key)
    requires k in plan
    ensures OnlyAt(ids, plan, st, st, k)
  {
  }

  lemma PassOnlyAt(ids: Ids, plan: Plan, cfg: Config, st: Stores, k: Key, p: Pass, c: Choice)
    requires Proper(ids) && IdsFit(ids, st) && k in plan
    requires PassFits(ids, plan[k], k.kind, p) && Local(ids, plan, Call(k, c))
    ensures var st' := PassStep(cfg, st, k, p, c).0;
      && OnlyAt(ids, plan, st, st', k)
      && st'.tenants == WithTenant(ids, st.tenants, AsksTenant(p, c), plan[k].0)
  {
    hide Grows, TenantsInjective, C.Step, U.Step, OnlyAt, Proper, IdsFit, WithTenant, ClientFits, UserFits;
    match p {
      case OfClient(p) => ClientOnlyAt(ids, plan, cfg, st, k, p, c); NoTenant(ids, st.tenants, plan[k].0);
      case OfUser(p) => UserOnlyAt(ids, plan, cfg, st, k, p, c);
      case _ =>
    }
  }

  lemma NoTenant(ids: Ids, tenants: map<string, string>, name: string)
    ensures WithTenant(ids, tenants, false, name) == tenants
  {
  }

  lemma NextOnly(ids: Ids, plan: Plan, w: World, l: Label)
    requires Proper(ids) && Fits(ids, plan, w) && Local(ids, plan, l)
    ensures OnlyWorld(ids, plan, w, Next(w, l), l.k)
    ensures Next(w, l).st.tenants == WithTenant(ids, w.st.tenants, Asks(w, l), plan[l.k].0)
  {
    hide Grows, Proper, IdsFit, PassStep, LogFits, PassFits, OnlyAt, WithTenant, AsksTenant, Environment;
    OnlyItself(ids, plan, w.st, l.k);
    NoTenant(ids, w.st.tenants, plan[l.k].0);
    match l {
      case Call(k, c) =>
        if k in w.passes {
          PassOnlyAt(ids, plan, w.cfg, w.st, k, w.passes[k], c);
        }
      case Deliver(k) => SeenOnlyAt(ids, plan, w.st, k);
      case Timer(_) =>
      case Start(_) =>
      case Abort(_) =>
      case _ => UserOnly(ids, plan, w.st, l);
    }
  }

  predicate ByUser(l: Label) {
    l.Create? || l.Edit? || l.Remove?
  }

  /** What a user does to a resource is one commit to its log. */
  lemma UserCommits(st: Stores, l: Label) returns (v: Option<Resource>)
    requires ByUser(l)
    ensures Environment(st, l) == st || Environment(st, l) == st.(log := Commit(st.log, l.k, v))
    ensures v.Some? ==> !l.Remove? && forall row :: Planned(row, l.r) ==> Planned(row, v.value)
  {
    hide Grows, LogsGrow, Commit;
    match l {
      case Create(k, o) => v := Some(o.Fresh());
      case Edit(k, o) =>
        v := if Latest(st.log, k).Some? && o.KindOf() == Latest(st.log, k).value.KindOf()
            then Some(o.EditOf(Latest(st.log, k).value)) else None;
      case Remove(_) => v := None;
    }
  }

  lemma UserOnly(ids: Ids, plan: Plan, st: Stores, l: Label)
    requires ByUser(l) && l.k in plan
    ensures OnlyAt(ids, plan, st, Environment(st, l), l.k) && Environment(st, l).tenants == st.tenants
  {
    hide Grows, Commit, Environment, OnlyAt;
    var v := UserCommits(st, l);
    OnlyItself(ids, plan, st, l.k);
    CommitOnlyAt(ids, plan, st, l.k, v);
  }

  lemma CommitOnlyAt(ids: Ids, plan: Plan, st: Stores, k: Key, v: Option<Resource>)
    requires k in plan
    ensures OnlyAt(ids, plan, st, st.(log := Commit(st.log, k, v)), k)
  {
    hide Commit;
    CommitElsewhere(st.log, k, v);
  }

  lemma SeenOnlyAt(ids: Ids, plan: Plan, st: Stores, k: Key)
    requires k in plan
    ensures OnlyAt(ids, plan, st, st.(seen := st.seen[k := Seen(st, k) + 1]), k)
  {
  }

  // ---- Equal readings, equal effects --------------------------------------------------------------------

  lemma PassLocal(ids: Ids, plan: Plan, cfg: Config, a: Stores, b: Stores, k: Key, p: Pass, c: Choice)
    requires Proper(ids) && IdsFit(ids, a) && IdsFit(ids, b) && k in plan
    requires PassFits(ids, plan[k], k.kind, p) && Local(ids, plan, Call(k, c)) && AgreeAt(ids, plan, a, b, k)
    ensures PassStep(cfg, a, k, p, c).1 == PassStep(cfg, b, k, p, c).1
    ensures AgreeAt(ids, plan, PassStep(cfg, a, k, p, c).0, PassStep(cfg, b, k, p, c).0, k)
  {
    hide Grows, TenantsInjective, C.Step, U.Step, AgreeAt, Proper, IdsFit, ClientFits, UserFits;
    match p {
      case OfClient(p) => ClientLocal(ids, plan, cfg, a, b, k, p, c);
      case OfUser(p) => UserLocal(ids, plan, cfg, a, b, k, p, c);
      case _ =>
    }
  }

  lemma SettleLocal(ids: Ids, plan: Plan, a: World, b: World, k: Key, sa: Stores, sb: Stores, e: Ending)
    requires k in plan && AgreeWorld(ids, plan, a, b, k) && AgreeAt(ids, plan, sa, sb, k)
    ensures AgreeWorld(ids, plan, Settle(a, k, sa, e), Settle(b, k, sb, e), k)
  {
    hide AgreeAt;
  }

  lemma NextLocal(ids: Ids, plan: Plan, a: World, b: World, l: Label)
    requires Proper(ids) && Fits(ids, plan, a) && Fits(ids, plan, b)
    requires Local(ids, plan, l) && AgreeWorld(ids, plan, a, b, l.k)
    ensures AgreeWorld(ids, plan, Next(a, l), Next(b, l), l.k) && Asks(a, l) == Asks(b, l)
  {
    hide Grows, Proper, IdsFit, PassStep, LogFits, PassFits, AgreeAt, Settle, Environment, AsksTenant;
    assert Same(a.passes, b.passes, l.k);
    match l {
      case Call(k, c) =>
        if k in a.passes {
          PassLocal(ids, plan, a.cfg, a.st, b.st, k, a.passes[k], c);
          var ra, rb := PassStep(a.cfg, a.st, k, a.passes[k], c), PassStep(b.cfg, b.st, k, b.passes[k], c);
          SettleLocal(ids, plan, a, b, k, ra.0, rb.0, ra.1);
        }
      case Deliver(k) => DeliverLocal(ids, plan, a, b, k);
      case Timer(_) =>
      case Start(_) =>
      case Abort(_) =>
      case _ => UserLabelLocal(ids, plan, a.st, b.st, l);
    }
  }

  lemma UserLabelLocal(ids: Ids, plan: Plan, a: Stores, b: Stores, l: Label)
    requires ByUser(l) && l.k in plan && AgreeAt(ids, plan, a, b, l.k)
    ensures AgreeAt(ids, plan, Environment(a, l), Environment(b, l), l.k)
  {
    hide Grows, LogsGrow, Commit, SecretNameOf;
    assert LogOf(a.log, l.k) == LogOf(b.log, l.k);
    match l {
      case Create(k, o) => CommitSame(a.log, b.log, k, Some(o.Fresh()));
      case Edit(k, o) =>
        if Latest(a.log, k).Some? && o.KindOf() == Latest(a.log, k).value.KindOf() {
          CommitSame(a.log, b.log, k, Some(o.EditOf(Latest(a.log, k).value)));
        }
      case Remove(k) => CommitSame(a.log, b.log, k, None);
    }
  }

  lemma DeliverLocal(ids: Ids, plan: Plan, a: World, b: World, k: Key)
    requires k in plan && AgreeWorld(ids, plan, a, b, k)
    ensures AgreeWorld(ids, plan, Next(a, Deliver(k)), Next(b, Deliver(k)), k)
  {
    hide Grows, PassStep, Environment, SecretNameOf;
    assert Seen(a.st, k) == Seen(b.st, k) && Version(a.st.log, k) == Version(b.st.log, k);
  }

  // ---- Every label keeps to the plan -------------------------------------------------------------------------

  lemma ClientStepFits(plan: Plan, cfg: Config, st: Stores, k: Key, p: C.ClientPass, c: Choice)
    requires k in plan && ClientFits(plan[k], p) && LogFits(st, k, plan[k])
    ensures var (st', o) := C.Step(cfg, st, k, p, c); o.Go? ==> ClientFits(plan[k], o.pass)
  {
    hide Grows, InsertClient, CreateSecret, UpdateSecret, UpdateStatus;
    if p.Begin? {
      ReadFits(st, k, plan[k], c);
    }
  }

  lemma ReadFits(st: Stores, k: Key, row: RowKey, c: Choice)
    requires LogFits(st, k, row)
    ensures Get(st, k, c).Found? ==> Planned(row, Get(st, k, c).value)
  {
  }

  lemma UserStepFits(ids: Ids, plan: Plan, cfg: Config, st: Stores, k: Key, p: U.UserPass, c: Choice)
    requires Proper(ids) && IdsFit(ids, st) && k in plan && c.id == ids.tenant(plan[k].0)
    requires UserFits(ids, plan[k], p) && LogFits(st, k, plan[k])
    ensures var (st', o) := U.Step(cfg, st, k, p, c); o.Go? ==> UserFits(ids, plan[k], o.pass)
  {
    hide Grows, EnsureTenant, EnsureUser, CreateSecret, UpdateSecret, UpdateStatus, IdsFit, Proper, LogFits, Get;
    match p {
      case Begin => ReadFits(st, k, plan[k], c);
      case AtTenant(_, _, _) => TenantCall(ids, st, plan[k].0, c);
      case _ =>
    }
  }

  lemma CommitFits(m: Stores, st: Stores, k: Key, row: RowKey, v: Option<Resource>)
    requires LogFits(m, k, row) && st.log == Commit(m.log, k, v) && (v.Some? ==> Planned(row, v.value))
    ensures LogFits(st, k, row)
  {
  }

  lemma CallLogFits(ids: Ids, plan: Plan, cfg: Config, st: Stores, k: Key, p: Pass, c: Choice)
    requires k in plan && PassFits(ids, plan[k], k.kind, p) && LogFits(st, k, plan[k])
    ensures LogFits(PassStep(cfg, st, k, p, c).0, k, plan[k])
  {
    hide Grows, TenantsInjective, C.Step, U.Step, LogFits, Commit;
    var st' := PassStep(cfg, st, k, p, c).0;
    match p {
      case OfClient(p) =>
        C.StepWrites(cfg, st, k, p, c);
        if st'.log == st.log { SameLogFits(st, st', k, plan[k]); }
        else { CommitFits(st, st', k, plan[k], Some(ClientR(p.c))); }
      case OfUser(p) =>
        U.StepWrites(cfg, st, k, p, c);
        if st'.log == st.log { SameLogFits(st, st', k, plan[k]); }
        else { CommitFits(st, st', k, plan[k], Some(UserR(p.u))); }
      case _ =>
    }
  }

  lemma SameLogFits(st: Stores, st': Stores, k: Key, row: RowKey)
    requires LogFits(st, k, row) && Same(st.log, st'.log, k)
    ensures LogFits(st', k, row)
  {
    assert LogOf(st'.log, k) == LogOf(st.log, k);
  }

  lemma CallIdsFit(ids: Ids, plan: Plan, cfg: Config, st: Stores, k: Key, p: Pass, c: Choice)
    requires Proper(ids) && IdsFit(ids, st) && k in plan
    requires PassFits(ids, plan[k], k.kind, p) && Local(ids, plan, Call(k, c))
    ensures IdsFit(ids, PassStep(cfg, st, k, p, c).0)
  {
    hide Grows, TenantsInjective, C.Step, U.Step, Proper;
    PassOnlyAt(ids, plan, cfg, st, k, p, c);
    match p {
      case OfClient(p) => C.StepRows(cfg, st, k, p, c);
      case OfUser(_) =>
      case _ =>
    }
  }

  lemma CallEndingFits(ids: Ids, plan: Plan, cfg: Config, st: Stores, k: Key, p: Pass, c: Choice)
    requires Proper(ids) && IdsFit(ids, st) && k in plan
    requires PassFits(ids, plan[k], k.kind, p) && Local(ids, plan, Call(k, c))
    requires LogFits(st, k, plan[k])
    ensures var e := PassStep(cfg, st, k, p, c).1; e.Go? ==> PassFits(ids, plan[k], k.kind, e.pass)
  {
    hide Grows, TenantsInjective, C.Step, U.Step, Proper, ClientFits, UserFits, IdsFit, LogFits;
    match p {
      case OfClient(p) => ClientStepFits(plan, cfg, st, k, p, c);
      case OfUser(p) => UserStepFits(ids, plan, cfg, st, k, p, c);
      case _ =>
    }
  }

  lemma BeginFits(ids: Ids, plan: Plan, k: Key)
    requires Disjoint(plan) && k in plan
    ensures PassFits(ids, plan[k], k.kind, BeginOf(k.kind))
  {
  }

  lemma OwnFits(ids: Ids, plan: Plan, w: World, l: Label)
    requires Proper(ids) && Disjoint(plan) && Fits(ids, plan, w) && Local(ids, plan, l)
    ensures IdsFit(ids, Next(w, l).st) && LogFits(Next(w, l).st, l.k, plan[l.k])
    ensures l.k in Next(w, l).passes ==> PassFits(ids, plan[l.k], l.k.kind, Next(w, l).passes[l.k])
  {
    hide Grows, Proper, PassStep, PassFits, Environment;
    match l {
      case Call(k, c) =>
        if k in w.passes {
          CallIdsFit(ids, plan, w.cfg, w.st, k, w.passes[k], c);
          CallLogFits(ids, plan, w.cfg, w.st, k, w.passes[k], c);
          CallEndingFits(ids, plan, w.cfg, w.st, k, w.passes[k], c);
        }
      case Deliver(_) =>
      case Timer(_) =>
      case Start(k) => BeginFits(ids, plan, k);
      case Abort(_) =>
      case _ => UserLabelFits(ids, plan, w.st, l);
    }
  }

  lemma UserLabelFits(ids: Ids, plan: Plan, st: Stores, l: Label)
    requires ByUser(l) && Local(ids, plan, l) && LogFits(st, l.k, plan[l.k])
    ensures LogFits(Environment(st, l), l.k, plan[l.k])
    ensures Environment(st, l).tenants == st.tenants && Environment(st, l).clientRows == st.clientRows
  {
    hide Grows, Commit, Environment, LogFits, Planned;
    var v := UserCommits(st, l);
    if Environment(st, l) != st {
      CommitFits(st, Environment(st, l), l.k, plan[l.k], v);
    }
  }

  lemma NextFits(ids: Ids, plan: Plan, w: World, l: Label)
    requires Proper(ids) && Disjoint(plan) && Fits(ids, plan, w) && Local(ids, plan, l)
    ensures Fits(ids, plan, Next(w, l))
  {
    hide Next, Proper, IdsFit, PassFits, LogFits;
    OwnFits(ids, plan, w, l);
    NextOnly(ids, plan, w, l);
    var w' := Next(w, l);
    forall j | j in plan && j != l.k
      ensures LogFits(w'.st, j, plan[j]) && (j in w'.passes ==> PassFits(ids, plan[j], j.kind, w'.passes[j]))
    {
      assert Same(w.st.log, w'.st.log, j) && Same(w.passes, w'.passes, j);
      SameLogFits(w.st, w'.st, j, plan[j]);
    }
  }

  // ---- Labels of different resources commute -------------------------------------------------------------------

  /** What only touches `k` leaves the readings of `j` alone. */
  lemma OnlyAgrees(ids: Ids, plan: Plan, a: World, b: World, k: Key, j: Key)
    requires Proper(ids) && Disjoint(plan) && k in plan && j in plan && k != j
    requires OnlyWorld(ids, plan, a, b, k)
    ensures AgreeWorld(ids, plan, a, b, j)
  {
    hide SecretNameOf;
    SecretsApart(plan, k, j);
    assert j in a.queue - {k} <==> j in b.queue - {k};
    assert j in a.delayed - {k} <==> j in b.delayed - {k};
    if k.kind == j.kind == UserKind {
      assert (ids.tenant(plan[k].0), plan[k].1) != (ids.tenant(plan[j].0), plan[j].1);
    }
  }

  lemma SameMaps<K(!new), V>(a: map<K, V>, b: map<K, V>)
    requires forall x :: Same(a, b, x)
    ensures a == b
  {
    assert forall x :: Same(a, b, x) ==> (x in a <==> x in b);
    assert a.Keys == b.Keys;
    forall x | x in a ensures a[x] == b[x] {
      assert Same(a, b, x);
    }
  }

  /** Equal at `k`, equal at `j`, both reached from one world by touching only `k` and `j`. */
  lemma MapsMeet<K(!new), V>(w: map<K, V>, a1: map<K, V>, a: map<K, V>, b1: map<K, V>, b: map<K, V>, k: K, j: K)
    requires SameElsewhere(w, a1, k) && SameElsewhere(a1, a, j)
    requires SameElsewhere(w, b1, j) && SameElsewhere(b1, b, k)
    requires Same(a, b, k) && Same(a, b, j)
    ensures a == b
  {
    forall x ensures Same(a, b, x) {
      if x != k && x != j {
        assert Same(w, a1, x) && Same(a1, a, x) && Same(w, b1, x) && Same(b1, b, x);
      }
    }
    SameMaps(a, b);
  }

  lemma SetsMeet(w: set<Key>, a1: set<Key>, a: set<Key>, b1: set<Key>, b: set<Key>, k: Key, j: Key)
    requires w - {k} == a1 - {k} && a1 - {j} == a - {j} && w - {j} == b1 - {j} && b1 - {k} == b - {k}
    requires (k in a <==> k in b) && (j in a <==> j in b)
    ensures a == b
  {
    forall x ensures x in a <==> x in b {
      if x != k && x != j {
        assert x in w - {k} <==> x in a1 - {k};
        assert x in a1 - {j} <==> x in a - {j};
        assert x in w - {j} <==> x in b1 - {j};
        assert x in b1 - {k} <==> x in b - {k};
      }
    }
  }

  lemma StoresMeet(ids: Ids, plan: Plan, w: Stores, a1: Stores, a: Stores, b1: Stores, b: Stores, k: Key, j: Key)
    requires k in plan && j in plan
    requires OnlyAt(ids, plan, w, a1, k) && OnlyAt(ids, plan, a1, a, j)
    requires OnlyAt(ids, plan, w, b1, j) && OnlyAt(ids, plan, b1, b, k)
    requires AgreeAt(ids, plan, a, b, k) && AgreeAt(ids, plan, a, b, j) && a.tenants == b.tenants
    ensures a == b
  {
    hide Same, SameElsewhere, SecretNameOf;
    MapsMeet(w.log, a1.log, a.log, b1.log, b.log, k, j);
    MapsMeet(w.seen, a1.seen, a.seen, b1.seen, b.seen, k, j);
    MapsMeet(w.secrets, a1.secrets, a.secrets, b1.secrets, b.secrets, SecretNameOf(plan, k), SecretNameOf(plan, j));
    RowsMeet(ids, plan, w, a1, a, b1, b, k, j);
  }

  lemma RowsMeet(ids: Ids, plan: Plan, w: Stores, a1: Stores, a: Stores, b1: Stores, b: Stores, k: Key, j: Key)
    requires k in plan && j in plan
    requires OnlyAt(ids, plan, w, a1, k) && OnlyAt(ids, plan, a1, a, j)
    requires OnlyAt(ids, plan, w, b1, j) && OnlyAt(ids, plan, b1, b, k)
    requires AgreeAt(ids, plan, a, b, k) && AgreeAt(ids, plan, a, b, j)
    ensures a.clientRows == b.clientRows && a.userRows == b.userRows
  {
    hide SecretNameOf, Same, SameElsewhere;
    var uk, uj := (ids.tenant(plan[k].0), plan[k].1), (ids.tenant(plan[j].0), plan[j].1);
    if k.kind == ClientKind && j.kind == ClientKind {
      MapsMeet(w.clientRows, a1.clientRows, a.clientRows, b1.clientRows, b.clientRows, plan[k], plan[j]);
    } else if k.kind != ClientKind && j.kind != ClientKind {
      MapsMeet(w.userRows, a1.userRows, a.userRows, b1.userRows, b.userRows, uk, uj);
    } else if k.kind == ClientKind {
      OneMapMeets(w.clientRows, a.clientRows, b.clientRows, plan[k]);
      OneMapMeets(w.userRows, a.userRows, b.userRows, uj);
    } else {
      OneMapMeets(w.clientRows, a.clientRows, b.clientRows, plan[j]);
      OneMapMeets(w.userRows, a.userRows, b.userRows, uk);
    }
  }

  lemma OneMapMeets<K(!new), V>(w: map<K, V>, a: map<K, V>, b: map<K, V>, k: K)
    requires SameElsewhere(w, a, k) && SameElsewhere(w, b, k) && Same(a, b, k)
    ensures a == b
  {
    forall x ensures Same(a, b, x) {
      if x != k {
        assert Same(w, a, x) && Same(w, b, x);
      }
    }
    SameMaps(a, b);
  }

  ghost predicate Leads(w: World, l: Label, w': World) {
    w' == Next(w, l)
  }

  lemma LeadsOnly(ids: Ids, plan: Plan, w: World, l: Label, w': World)
    requires Proper(ids) && Disjoint(plan) && Fits(ids, plan, w) && Local(ids, plan, l) && Leads(w, l, w')
    ensures Fits(ids, plan, w') && OnlyWorld(ids, plan, w, w', l.k)
    ensures w'.st.tenants == WithTenant(ids, w.st.tenants, Asks(w, l), plan[l.k].0)
  {
    hide Next, Proper, Disjoint, Fits, OnlyWorld, Asks;
    NextFits(ids, plan, w, l);
    NextOnly(ids, plan, w, l);
  }

  lemma LeadsLocal(ids: Ids, plan: Plan, a: World, b: World, l: Label, a': World, b': World)
    requires Proper(ids) && Fits(ids, plan, a) && Fits(ids, plan, b)
    requires Local(ids, plan, l) && AgreeWorld(ids, plan, a, b, l.k)
    requires Leads(a, l, a') && Leads(b, l, b')
    ensures AgreeWorld(ids, plan, a', b', l.k) && Asks(a, l) == Asks(b, l)
  {
    hide Next, Proper, Disjoint, Fits, AgreeWorld, Asks;
    NextLocal(ids, plan, a, b, l);
  }

  /** The two sides of a square of labels of different resources meet. */
  lemma Square(ids: Ids, plan: Plan, w: World, l: Label, m: Label, wl: World, wm: World, a: World, b: World)
    requires Proper(ids) && Disjoint(plan) && Fits(ids, plan, w)
    requires Local(ids, plan, l) && Local(ids, plan, m) && l.k != m.k
    requires Leads(w, l, wl) && Leads(wl, m, a) && Leads(w, m, wm) && Leads(wm, l, b)
    ensures a == b
  {
    hide Leads, Proper, Disjoint, Fits, AgreeWorld, OnlyWorld, Asks;
    var k, j := l.k, m.k;
    LeadsOnly(ids, plan, w, l, wl);
    LeadsOnly(ids, plan, w, m, wm);
    LeadsOnly(ids, plan, wl, m, a);
    LeadsOnly(ids, plan, wm, l, b);
    OnlyAgrees(ids, plan, w, wm, j, k);
    OnlyAgrees(ids, plan, w, wl, k, j);
    LeadsLocal(ids, plan, w, wm, l, wl, b);
    LeadsLocal(ids, plan, w, wl, m, wm, a);
    OnlyAgrees(ids, plan, wl, a, j, k);
    OnlyAgrees(ids, plan, wm, b, k, j);
    WorldsMeet(ids, plan, w, wl, a, wm, b, k, j);
  }

  lemma WorldsMeet(ids: Ids, plan: Plan, w: World, wl: World, a: World, wm: World, b: World, k: Key, j: Key)
    requires k in plan && j in plan
    requires OnlyWorld(ids, plan, w, wl, k) && OnlyWorld(ids, plan, wl, a, j)
    requires OnlyWorld(ids, plan, w, wm, j) && OnlyWorld(ids, plan, wm, b, k)
    requires AgreeWorld(ids, plan, wl, b, k) && AgreeWorld(ids, plan, wl, a, k)
    requires AgreeWorld(ids, plan, wm, a, j) && AgreeWorld(ids, plan, wm, b, j)
    requires a.st.tenants == b.st.tenants
    ensures a == b
  {
    hide AgreeAt, OnlyAt, Same, SameElsewhere;
    SetsMeet(w.queue, wl.queue, a.queue, wm.queue, b.queue, k, j);
    SetsMeet(w.delayed, wl.delayed, a.delayed, wm.delayed, b.delayed, k, j);
    SameThrough(wl.passes, b.passes, a.passes, k);
    SameThrough(wm.passes, a.passes, b.passes, j);
    MapsMeet(w.passes, wl.passes, a.passes, wm.passes, b.passes, k, j);
    AgreeThrough(ids, plan, wl.st, b.st, a.st, k);
    AgreeThrough(ids, plan, wm.st, a.st, b.st, j);
    StoresMeet(ids, plan, w.st, wl.st, a.st, wm.st, b.st, k, j);
  }

  /** The same world at another time, with other deployments. */
  function Elsewhen(w: World, clock: nat, deployments: map<Name, Log<nat>>): World {
    w.(st := w.st.(clock := clock, deployments := deployments))
  }

  lemma ElsewhenFits(ids: Ids, plan: Plan, w: World, clock: nat, deployments: map<Name, Log<nat>>, k: Key)
    requires Fits(ids, plan, w) && k in plan
    ensures Fits(ids, plan, Elsewhen(w, clock, deployments))
    ensures AgreeWorld(ids, plan, w, Elsewhen(w, clock, deployments), k)
  {
    hide SecretNameOf, PassFits;
  }

  /** Neither time nor deployments matter to the labels of clients and users. */
  lemma ElsewhenSame(ids: Ids, plan: Plan, w: World, l: Label, clock: nat, deployments: map<Name, Log<nat>>, a: World,
      b: World)
    requires Proper(ids) && Disjoint(plan) && Fits(ids, plan, w) && Local(ids, plan, l)
    requires Leads(w, l, a) && Leads(Elsewhen(w, clock, deployments), l, b)
    ensures b == Elsewhen(a, clock, deployments)
  {
    hide Leads, Proper, Disjoint, Fits, AgreeWorld, OnlyWorld, Asks;
    var v := Elsewhen(w, clock, deployments);
    ElsewhenFits(ids, plan, w, clock, deployments, l.k);
    LeadsOnly(ids, plan, w, l, a);
    LeadsOnly(ids, plan, v, l, b);
    LeadsLocal(ids, plan, w, v, l, a, b);
    ElsewhenMeet(ids, plan, w, clock, deployments, a, b, l.k);
  }

  lemma ElsewhenMeet(ids: Ids, plan: Plan, w: World, clock: nat, deployments: map<Name, Log<nat>>, a: World, b: World,
      k: Key)
    requires k in plan && OnlyWorld(ids, plan, w, a, k) && OnlyWorld(ids, plan, Elsewhen(w, clock, deployments), b, k)
    requires AgreeWorld(ids, plan, a, b, k) && a.st.tenants == b.st.tenants
    ensures b == Elsewhen(a, clock, deployments)
  {
    hide Same, SameElsewhere, SecretNameOf;
    OneMapMeets(w.st.log, a.st.log, b.st.log, k);
    OneMapMeets(w.st.seen, a.st.seen, b.st.seen, k);
    OneMapMeets(w.st.secrets, a.st.secrets, b.st.secrets, SecretNameOf(plan, k));
    OneMapMeets(w.passes, a.passes, b.passes, k);
    if k.kind == ClientKind {
      OneMapMeets(w.st.clientRows, a.st.clientRows, b.st.clientRows, plan[k]);
    } else {
      OneMapMeets(w.st.userRows, a.st.userRows, b.st.userRows, (ids.tenant(plan[k].0), plan[k].1));
    }
    OneSetMeets(w.queue, a.queue, b.queue, k);
    OneSetMeets(w.delayed, a.delayed, b.delayed, k);
  }

  lemma OneSetMeets(w: set<Key>, a: set<Key>, b: set<Key>, k: Key)
    requires w - {k} == a - {k} && w - {k} == b - {k} && (k in a <==> k in b)
    ensures a == b
  {
    assert a - {k} == b - {k};
    forall x ensures x in a <==> x in b {
      if x != k {
        assert x in a - {k} <==> x in b - {k};
      }
    }
  }

  lemma NeutralIs(w: World, m: Label) returns (clock: nat, deployments: map<Name, Log<nat>>)
    requires Neutral(m)
    ensures clock == Next(w, m).st.clock && deployments == Next(w, m).st.deployments
    ensures Next(w, m) == Elsewhen(w, clock, deployments)
    ensures forall v: World :: v.st.clock == w.st.clock && v.st.deployments == w.st.deployments ==>
              Next(v, m) == Elsewhen(v, clock, deployments)
  {
    hide Grows, LogsGrow, PassStep, Commit;
    clock, deployments := Next(w, m).st.clock, Next(w, m).st.deployments;
  }

  lemma LocalKeepsTime(ids: Ids, plan: Plan, w: World, l: Label)
    requires Proper(ids) && Fits(ids, plan, w) && Local(ids, plan, l)
    ensures Next(w, l).st.clock == w.st.clock && Next(w, l).st.deployments == w.st.deployments
  {
    hide Next, Proper, Fits, SecretNameOf, SameElsewhere, WithTenant;
    NextOnly(ids, plan, w, l);
  }

  lemma NeutralCommutes(ids: Ids, plan: Plan, w: World, l: Label, m: Label)
    requires Proper(ids) && Disjoint(plan) && Fits(ids, plan, w) && Local(ids, plan, l) && Neutral(m)
    ensures Next(Next(w, l), m) == Next(Next(w, m), l)
  {
    hide Next, Proper, Disjoint, Fits, Local;
    var clock, deployments := NeutralIs(w, m);
    LocalKeepsTime(ids, plan, w, l);
    ElsewhenSame(ids, plan, w, l, clock, deployments, Next(w, l), Next(Elsewhen(w, clock, deployments), l));
  }

  /** Labels that do not belong to one resource commute: the same world, whichever comes first. */
  lemma Commute(ids: Ids, plan: Plan, w: World, l: Label, m: Label)
    requires Proper(ids) && Disjoint(plan) && Fits(ids, plan, w)
    requires Permitted(ids, plan, l) && Permitted(ids, plan, m) && KeyOf(l) != KeyOf(m)
    ensures Next(Next(w, l), m) == Next(Next(w, m), l)
  {
    hide Next, Proper, Disjoint, Fits;
    if Neutral(l) {
      NeutralCommutes(ids, plan, w, m, l);
    } else if Neutral(m) {
      NeutralCommutes(ids, plan, w, l, m);
    } else {
      Square(ids, plan, w, l, m, Next(w, l), Next(w, m), Next(Next(w, l), m), Next(Next(w, m), l));
    }
  }

  lemma PermittedFits(ids: Ids, plan: Plan, w: World, l: Label)
    requires Proper(ids) && Disjoint(plan) && Fits(ids, plan, w) && Permitted(ids, plan, l)
    ensures Fits(ids, plan, Next(w, l))
  {
    hide Next, Proper, Disjoint, Local, PassFits;
    if Neutral(l) {
      var _, _ := NeutralIs(w, l);
    } else {
      NextFits(ids, plan, w, l);
    }
  }

  lemma SameThrough<K, V>(m: map<K, V>, a: map<K, V>, b: map<K, V>, k: K)
    requires Same(m, a, k) && Same(m, b, k)
    ensures Same(a, b, k) && Same(b, a, k)
  {
  }

  lemma AgreeThrough(ids: Ids, plan: Plan, m: Stores, a: Stores, b: Stores, k: Key)
    requires k in plan && AgreeAt(ids, plan, m, a, k) && AgreeAt(ids, plan, m, b, k)
    ensures AgreeAt(ids, plan, a, b, k) && AgreeAt(ids, plan, b, a, k)
  {
  }

  // ---- Any interleaving is any serial order -----------------------------------------------------------------------

  function Own(ls: seq<Label>, o: Option<Key>): seq<Label> {
    if ls == [] then [] else (if KeyOf(ls[0]) == o then [ls[0]] else []) + Own(ls[1..], o)
  }

  function Others(ls: seq<Label>, o: Option<Key>): seq<Label> {
    if ls == [] then [] else (if KeyOf(ls[0]) == o then [] else [ls[0]]) + Others(ls[1..], o)
  }

  /** One resource after another, each with its labels in the order they came; `None` stands for
      the labels that belong to none. */
  function Serially(ls: seq<Label>, order: seq<Option<Key>>): seq<Label>
    decreases |order|
  {
    if order == [] then [] else Own(ls, order[0]) + Serially(Others(ls, order[0]), order[1..])
  }

  ghost predicate AllPermitted(ids: Ids, plan: Plan, ls: seq<Label>) {
    forall l :: l in ls ==> Permitted(ids, plan, l)
  }

  lemma {:induction false} ExecFits(ids: Ids, plan: Plan, w: World, ls: seq<Label>)
    requires Proper(ids) && Disjoint(plan) && Fits(ids, plan, w) && AllPermitted(ids, plan, ls)
    ensures Fits(ids, plan, Exec(w, ls))
    decreases |ls|
  {
    hide Next, Proper, Disjoint, Fits, Permitted;
    if ls != [] {
      PermittedFits(ids, plan, w, ls[0]);
      ExecFits(ids, plan, Next(w, ls[0]), ls[1..]);
    }
  }

  /** A label slides over any labels of another resource. */
  lemma {:induction false} Slide(ids: Ids, plan: Plan, w: World, m: Label, ls: seq<Label>, o: Option<Key>)
    requires Proper(ids) && Disjoint(plan) && Fits(ids, plan, w)
    requires Permitted(ids, plan, m) && AllPermitted(ids, plan, ls)
    requires KeyOf(m) != o && forall l :: l in ls ==> KeyOf(l) == o
    ensures Exec(Next(w, m), ls) == Next(Exec(w, ls), m)
    decreases |ls|
  {
    hide Next, Proper, Disjoint, Fits, Permitted, KeyOf;
    if ls != [] {
      assert ls[0] in ls;
      PermittedFits(ids, plan, w, ls[0]);
      Commute(ids, plan, w, m, ls[0]);
      Slide(ids, plan, Next(w, ls[0]), m, ls[1..], o);
    }
  }

  lemma {:induction false} OwnAreOwn(ids: Ids, plan: Plan, ls: seq<Label>, o: Option<Key>)
    requires AllPermitted(ids, plan, ls)
    ensures AllPermitted(ids, plan, Own(ls, o)) && AllPermitted(ids, plan, Others(ls, o))
    ensures forall l :: l in Own(ls, o) ==> KeyOf(l) == o
    ensures forall l :: l in Others(ls, o) ==> KeyOf(l) != o && l in ls
  {
    hide Permitted, KeyOf;
    if ls != [] {
      OwnAreOwn(ids, plan, ls[1..], o);
    }
  }

  /** All labels of one resource, or of none, may be taken first. */
  lemma {:induction false} OwnFirst(ids: Ids, plan: Plan, w: World, ls: seq<Label>, o: Option<Key>)
    requires Proper(ids) && Disjoint(plan) && Fits(ids, plan, w) && AllPermitted(ids, plan, ls)
    ensures Exec(w, ls) == Exec(Exec(w, Own(ls, o)), Others(ls, o))
    decreases |ls|
  {
    hide Next, Proper, Disjoint, Fits, Permitted, KeyOf;
    if ls != [] {
      var l, rest := ls[0], ls[1..];
      PermittedFits(ids, plan, w, l);
      OwnAreOwn(ids, plan, rest, o);
      OwnFirst(ids, plan, Next(w, l), rest, o);
      if KeyOf(l) == o {
        assert Own(ls, o)[0] == l && Own(ls, o)[1..] == Own(rest, o) && Others(ls, o) == Others(rest, o);
      } else {
        Slide(ids, plan, w, l, Own(rest, o), o);
        assert Own(ls, o) == Own(rest, o);
        assert Others(ls, o)[0] == l && Others(ls, o)[1..] == Others(rest, o);
      }
    }
  }

  /** However client and user passes interleave, with each other and with edits, time and
      deployments: the world they leave is the one that the same labels leave one resource after
      another, in whatever order. */
  lemma {:induction false} InterleavedIsSerial(ids: Ids, plan: Plan, w: World, ls: seq<Label>, order: seq<Option<Key>>)
    requires Proper(ids) && Disjoint(plan) && Fits(ids, plan, w) && AllPermitted(ids, plan, ls)
    requires forall l :: l in ls ==> KeyOf(l) in order
    ensures Exec(w, ls) == Exec(w, Serially(ls, order))
    decreases |order|
  {
    hide Next, Proper, Disjoint, Fits, AllPermitted;
    if ls != [] {
      assert ls[0] in ls;
    }
    if order != [] {
      var own, others := Own(ls, order[0]), Others(ls, order[0]);
      OwnAreOwn(ids, plan, ls, order[0]);
      OwnFirst(ids, plan, w, ls, order[0]);
      ExecFits(ids, plan, w, own);
      InterleavedIsSerial(ids, plan, Exec(w, own), others, order[1..]);
      ExecConcat(w, own, Serially(others, order[1..]));
    }
  }
}
