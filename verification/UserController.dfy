/** internal/controller/user_controller.go: choose a password, persist the user, write the
    Secret, write the status. */
module UserController {
  import opened Base
  import opened Resources
  import opened Stores

  datatype UserPass =
    | Begin
    | AtGenerate(ver: nat, u: FrkrUser)
    | AtTenant(ver: nat, u: FrkrUser, password: string)
    | AtRow(ver: nat, u: FrkrUser, password: string, tenantID: string)
    | AtSecret(ver: nat, u: FrkrUser, password: string)
    | AtCreate(ver: nat, u: FrkrUser, password: string)
    | AtUpdate(ver: nat, u: FrkrUser, password: string, secretVer: nat)
    | AtWrite(ver: nat, u: FrkrUser, password: string)

  datatype Outcome = Go(pass: UserPass) | Done | Failed

  type Reply = (Stores, Outcome)

  function Rank(p: UserPass): nat {
    match p
    case Begin => 6
    case AtGenerate(_, _) => 5
    case AtTenant(_, _, _) => 4
    case AtRow(_, _, _, _) => 3
    case AtSecret(_, _, _) => 2
    case AtCreate(_, _, _) => 1
    case AtUpdate(_, _, _, _) => 1
    case AtWrite(_, _, _) => 0
  }

  /** The status shows the first password only. */
  function WithPassword(u: FrkrUser, password: string): FrkrUser {
    if u.status.password == "" then u.(status := u.status.(password := password, phase := "Active")) else u
  }

  function Generated(u: FrkrUser): FrkrUser {
    u.(status := u.status.(passwordGenerated := true))
  }

  function SecretOf(u: FrkrUser, password: string): Data {
    map["username" := u.spec.username, "password" := password]
  }

  function SecretName(k: Key, u: FrkrUser): Name {
    UserSecretName(k, u.spec.username)
  }

  ghost predicate Within(st: Stores, rank: nat, r: Reply) {
    && Grows(st, r.0)
    && (TenantsInjective(st) ==> TenantsInjective(r.0))
    && r.0 == st.(log := r.0.log, tenants := r.0.tenants, userRows := r.0.userRows, secrets := r.0.secrets)
    && (r.1.Go? ==> Rank(r.1.pass) < rank && !r.1.pass.Begin?)
  }

  /** With the password settled: the database first, if there is one. */
  function Chosen(cfg: Config, ver: nat, u: FrkrUser, password: string): (p: UserPass)
    ensures Rank(p) < 5 && !p.Begin?
  {
    if cfg.database then AtTenant(ver, WithPassword(u, password), password)
    else AtSecret(ver, WithPassword(u, password), password)
  }

  function Read(cfg: Config, st: Stores, k: Key, c: Choice): (r: Reply)
    ensures Within(st, 6, r)
  {
    match Get(st, k, c)
    case Found(ver, UserR(u)) =>
      if u.spec.password == "" then (st, Go(AtGenerate(ver, u)))
      else (st, Go(Chosen(cfg, ver, u, u.spec.password)))
    case ReadError => (st, Failed)
    case _ => (st, Done)
  }

  /** `GeneratePassword` returns a non-empty text or fails. */
  function Generate(cfg: Config, st: Stores, ver: nat, u: FrkrUser, c: Choice): (r: Reply)
    ensures Within(st, 5, r)
  {
    if c.fault != Fine || c.text == "" then (st, Failed)
    else (st, Go(Chosen(cfg, ver, Generated(u), c.text)))
  }

  function Tenant(st: Stores, ver: nat, u: FrkrUser, password: string, c: Choice): (r: Reply)
    ensures Within(st, 4, r)
  {
    var (st', id) := EnsureTenant(st, u.spec.tenantID, c);
    if id.None? then (st', Failed) else (st', Go(AtRow(ver, u, password, id.value)))
  }

  function Row(st: Stores, ver: nat, u: FrkrUser, password: string, tenantID: string, c: Choice): (r: Reply)
    ensures Within(st, 3, r)
  {
    var (st', ok) := EnsureUser(st, tenantID, u.spec.username, password, c);
    if ok then (st', Go(AtSecret(ver, u, password))) else (st', Failed)
  }

  function Secret(st: Stores, k: Key, ver: nat, u: FrkrUser, password: string, c: Choice): (r: Reply)
    ensures Within(st, 2, r)
  {
    match GetSecret(st, SecretName(k, u), c)
    case NotFound => (st, Go(AtCreate(ver, u, password)))
    case Found(v, _) => (st, Go(AtUpdate(ver, u, password, v)))
    case ReadError => (st, Failed)
  }

  function Create(st: Stores, k: Key, ver: nat, u: FrkrUser, password: string, c: Choice): (r: Reply)
    ensures Within(st, 1, r)
  {
    var (st', ok) := CreateSecret(st, SecretName(k, u), SecretOf(u, password), c);
    if ok then (st', Go(AtWrite(ver, u, password))) else (st', Failed)
  }

  function Update(st: Stores, k: Key, ver: nat, u: FrkrUser, password: string, secretVer: nat, c: Choice): (r: Reply)
    ensures Within(st, 1, r)
  {
    var (st', ok) := UpdateSecret(st, SecretName(k, u), secretVer, SecretOf(u, password), c);
    if ok then (st', Go(AtWrite(ver, u, password))) else (st', Failed)
  }

  function Write(st: Stores, k: Key, ver: nat, u: FrkrUser, c: Choice): (r: Reply)
    ensures Within(st, 0, r)
  {
    var (st', ok) := UpdateStatus(st, k, ver, UserR(u), c);
    (st', if ok then Done else Failed)
  }

  function Step(cfg: Config, st: Stores, k: Key, p: UserPass, c: Choice): (r: Reply)
    ensures Within(st, Rank(p), r)
    ensures r.1.Go? ==> if p.Begin? then Get(st, k, c).Found? && r.1.pass.ver == Get(st, k, c).version
                        else r.1.pass.ver == p.ver
  {
    match p
    case Begin => Read(cfg, st, k, c)
    case AtGenerate(ver, u) => Generate(cfg, st, ver, u, c)
    case AtTenant(ver, u, password) => Tenant(st, ver, u, password, c)
    case AtRow(ver, u, password, tenantID) => Row(st, ver, u, password, tenantID, c)
    case AtSecret(ver, u, password) => Secret(st, k, ver, u, password, c)
    case AtCreate(ver, u, password) => Create(st, k, ver, u, password, c)
    case AtUpdate(ver, u, password, secretVer) => Update(st, k, ver, u, password, secretVer, c)
    case AtWrite(ver, u, _) => Write(st, k, ver, u, c)
  }

  /** A pass from point `p` to its end with nothing else in between; its calls are decided
      by `ch(n)`, `ch(n + 1)`, and so on. */
  function Run(cfg: Config, st: Stores, k: Key, p: UserPass, ch: nat -> Choice, n: nat): (r: Reply)
    ensures !r.1.Go?
    decreases Rank(p)
  {
    var r := Step(cfg, st, k, p, ch(n));
    if r.1.Go? then Run(cfg, r.0, k, r.1.pass, ch, n + 1) else r
  }

  // ---- What a pass and its writes guarantee --------------------------------------

  /** A pass that read `a` may write `b`: the spec is kept, and so is a password once shown;
      the first one shown is the spec's, if it gives one. */
  ghost predicate Writes(a: FrkrUser, b: FrkrUser) {
    && b.spec == a.spec && b.status.conditions == a.status.conditions
    && b.status.phase == (if a.status.password == "" then "Active" else a.status.phase)
    && (b.status.passwordGenerated <==> a.status.passwordGenerated || a.spec.password == "")
    && b.status.password != ""
    && (a.status.password != "" ==> b.status.password == a.status.password)
    && (a.status.password == "" && a.spec.password != "" ==> b.status.password == a.spec.password)
  }

  /** The password a pass settled on: the spec's, or a generated one, never empty; the
      status it will write shows that one unless it already showed another. */
  ghost predicate Carries(a: FrkrUser, u: FrkrUser, password: string) {
    && Writes(a, u)
    && u == WithPassword(if a.spec.password == "" then Generated(a) else a, password)
    && password != ""
    && (a.spec.password != "" ==> password == a.spec.password)
    && (a.status.password == "" ==> u.status.password == password)
  }

  /** With a database, the username has a row in the spec's tenant. */
  ghost predicate HasRow(cfg: Config, st: Stores, spec: UserSpec) {
    cfg.database ==> spec.tenantID in st.tenants && (st.tenants[spec.tenantID], spec.username) in st.userRows
  }

  /** Some version of the Secret gave the username and this password. */
  ghost predicate SecretGave(st: Stores, k: Key, u: FrkrUser, password: string) {
    Some(SecretOf(u, password)) in LogOf(st.secrets, SecretName(k, u))
  }

  ghost predicate PassOk(cfg: Config, st: Stores, k: Key, a: FrkrUser, p: UserPass)
    requires !p.Begin?
  {
    match p
    case AtGenerate(_, u) => u == a && a.spec.password == ""
    case AtTenant(_, u, pw) => Carries(a, u, pw)
    case AtRow(_, u, pw, id) => Carries(a, u, pw) && a.spec.tenantID in st.tenants && st.tenants[a.spec.tenantID] == id
    case AtSecret(_, u, pw) => Carries(a, u, pw) && HasRow(cfg, st, a.spec)
    case AtCreate(_, u, pw) => Carries(a, u, pw) && HasRow(cfg, st, a.spec)
    case AtUpdate(_, u, pw, _) => Carries(a, u, pw) && HasRow(cfg, st, a.spec)
    case AtWrite(_, u, pw) => Carries(a, u, pw) && HasRow(cfg, st, a.spec) && SecretGave(st, k, u, pw)
  }

  lemma GaveStable(st: Stores, st': Stores, k: Key, u: FrkrUser, password: string)
    requires SecretGave(st, k, u, password) && Grows(st, st')
    ensures SecretGave(st', k, u, password)
  {
    hide SecretOf, SecretName;
    assert LogOf(st.secrets, SecretName(k, u)) <= LogOf(st'.secrets, SecretName(k, u));
  }

  lemma PassStable(cfg: Config, st: Stores, st': Stores, k: Key, a: FrkrUser, p: UserPass)
    requires !p.Begin? && PassOk(cfg, st, k, a, p) && Grows(st, st')
    ensures PassOk(cfg, st', k, a, p)
  {
    hide SecretGave;
    if p.AtWrite? {
      GaveStable(st, st', k, p.u, p.password);
    }
  }

  lemma StepWrites(cfg: Config, st: Stores, k: Key, p: UserPass, c: Choice)
    ensures var st' := Step(cfg, st, k, p, c).0;
      || st'.log == st.log
      || (p.AtWrite? && p.ver == Version(st.log, k) && Latest(st.log, k).Some?
          && st'.log == Commit(st.log, k, Some(UserR(p.u))))
  {
    match p {
      case Begin =>
      case AtGenerate(_, _) =>
      case AtTenant(_, _, _) =>
      case AtRow(_, _, _, _) =>
      case AtSecret(_, _, _) =>
      case AtCreate(_, _, _) =>
      case AtUpdate(_, _, _, _) =>
      case AtWrite(_, _, _) =>
    }
  }

  /** The only Secret a pass writes is the one of its spec's username in its own namespace, with
      that username and the password it carries. */
  lemma StepSecrets(cfg: Config, st: Stores, k: Key, p: UserPass, c: Choice)
    ensures var st' := Step(cfg, st, k, p, c).0;
      || st'.secrets == st.secrets
      || ((p.AtCreate? || p.AtUpdate?)
          && st'.secrets == Commit(st.secrets, Name(k.namespace, "frkr-user-" + p.u.spec.username),
               Some(map["username" := p.u.spec.username, "password" := p.password])))
  {
    hide Grows, LogsGrow, EnsureTenant, EnsureUser, UpdateStatus, Get, Within, Commit, CreateSecret, UpdateSecret;
    match p {
      case Begin =>
      case AtGenerate(_, _) =>
      case AtTenant(_, _, _) =>
      case AtRow(_, _, _, _) =>
      case AtSecret(_, _, _) =>
      case AtCreate(_, _, _) =>
      case AtUpdate(_, _, _, _) =>
      case AtWrite(_, _, _) =>
    }
  }

  /** The only row a pass writes is the one of its spec's username in the tenant it was given,
      with the password it carries. */
  lemma StepRows(cfg: Config, st: Stores, k: Key, p: UserPass, c: Choice)
    ensures var st' := Step(cfg, st, k, p, c).0;
      || st'.userRows == st.userRows
      || (p.AtRow? && st'.userRows == st.userRows[(p.tenantID, p.u.spec.username) := p.password])
  {
    hide Grows, LogsGrow, TenantsInjective, EnsureTenant, UpdateStatus, Get, Within, CreateSecret, UpdateSecret;
    match p {
      case Begin =>
      case AtGenerate(_, _) =>
      case AtTenant(_, _, _) =>
      case AtRow(_, _, _, _) =>
      case AtSecret(_, _, _) =>
      case AtCreate(_, _, _) =>
      case AtUpdate(_, _, _, _) =>
      case AtWrite(_, _, _) =>
    }
  }

  /** The only tenant a pass adds is the one its spec names. */
  lemma StepTenants(cfg: Config, st: Stores, k: Key, p: UserPass, c: Choice)
    ensures var st' := Step(cfg, st, k, p, c).0;
      st'.tenants == st.tenants || (p.AtTenant? && st'.tenants == st.tenants[p.u.spec.tenantID := c.id])
  {
    hide Grows, LogsGrow, TenantsInjective, EnsureUser, UpdateStatus, Get, GetSecret, Within, CreateSecret,
        UpdateSecret;
    hide WithPassword, Generated, SecretOf, SecretName, Submap;
    match p {
      case Begin =>
      case AtGenerate(_, _) =>
      case AtTenant(_, _, _) =>
      case AtRow(_, _, _, _) =>
      case AtSecret(_, _, _) =>
      case AtCreate(_, _, _) =>
      case AtUpdate(_, _, _, _) =>
      case AtWrite(_, _, _) =>
    }
  }

  /** Any call that fails, or whose reply is lost, ends the pass with an error. */
  lemma FaultDecides(cfg: Config, st: Stores, k: Key, p: UserPass, c: Choice)
    requires c.fault != Fine
    ensures Step(cfg, st, k, p, c).1 == Failed
  {
    hide Grows, LogsGrow, TenantsInjective, Commit;
  }

  /** A Secret that is there is updated over the version read, and one that is not is created. */
  lemma SecretDecides(cfg: Config, st: Stores, k: Key, p: UserPass, c: Choice)
    requires p.AtSecret?
    ensures Step(cfg, st, k, p, c) == (st,
      match GetSecret(st, Name(k.namespace, "frkr-user-" + p.u.spec.username), c)
      case Found(v, _) => Go(AtUpdate(p.ver, p.u, p.password, v))
      case NotFound => Go(AtCreate(p.ver, p.u, p.password))
      case ReadError => Failed)
  {
    hide Grows;
  }

  lemma StepPass(cfg: Config, st: Stores, k: Key, a: FrkrUser, p: UserPass, c: Choice)
    requires p.Begin? ==> Get(st, k, c).Found? ==> Get(st, k, c).value == UserR(a)
    requires !p.Begin? ==> PassOk(cfg, st, k, a, p)
    ensures var (st', o) := Step(cfg, st, k, p, c); o.Go? ==> PassOk(cfg, st', k, a, o.pass)
  {
    if p.Begin? || p.AtGenerate? {
      ChoicePass(cfg, st, k, a, p, c);
    } else {
      LaterPass(cfg, st, k, a, p, c);
    }
  }

  lemma ChoicePass(cfg: Config, st: Stores, k: Key, a: FrkrUser, p: UserPass, c: Choice)
    requires p.Begin? || p.AtGenerate?
    requires p.Begin? ==> Get(st, k, c).Found? ==> Get(st, k, c).value == UserR(a)
    requires !p.Begin? ==> PassOk(cfg, st, k, a, p)
    ensures var (st', o) := Step(cfg, st, k, p, c); o.Go? ==> PassOk(cfg, st', k, a, o.pass)
  {
    hide Grows, SecretOf, SecretName;
  }

  lemma LaterPass(cfg: Config, st: Stores, k: Key, a: FrkrUser, p: UserPass, c: Choice)
    requires !p.Begin? && !p.AtGenerate? && PassOk(cfg, st, k, a, p)
    ensures var (st', o) := Step(cfg, st, k, p, c); o.Go? ==> PassOk(cfg, st', k, a, o.pass)
  {
    hide SecretOf, SecretName, Carries, LogsGrow, Get;
    assert Carries(a, p.u, p.password) && p.u.spec == a.spec by { Carrying(cfg, st, k, a, p); }
    match p {
      case AtTenant(_, _, _) =>
      case AtRow(_, _, _, _) =>
      case AtSecret(_, _, _) =>
      case AtCreate(_, _, _) =>
      case AtUpdate(_, _, _, _) =>
      case AtWrite(_, _, _) =>
    }
  }

  lemma Carrying(cfg: Config, st: Stores, k: Key, a: FrkrUser, p: UserPass)
    requires !p.Begin? && !p.AtGenerate? && PassOk(cfg, st, k, a, p)
    ensures Carries(a, p.u, p.password) && p.u.spec == a.spec
  {
  }

  /** Every pass that reaches its status write has just left, in the Secret, the password it
      gave to the database. */
  lemma SecretHoldsPassword(cfg: Config, st: Stores, k: Key, p: UserPass, c: Choice)
    requires p.AtCreate? || p.AtUpdate?
    requires Step(cfg, st, k, p, c).1.Go?
    ensures Latest(Step(cfg, st, k, p, c).0.secrets, SecretName(k, p.u)) == Some(SecretOf(p.u, p.password))
    ensures Step(cfg, st, k, p, c).1.pass == AtWrite(p.ver, p.u, p.password)
  {
    match p {
      case AtCreate(_, _, _) =>
      case AtUpdate(_, _, _, _) =>
    }
  }
}
