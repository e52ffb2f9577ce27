/** internal/controller/client_controller.go: find or generate the secret, create or get the
    row, create or update the Secret, write the status. */
module ClientController {
  import opened Base
  import opened Resources
  import opened Stores

  datatype ClientPass =
    | Begin
    | AtEarly(ver: nat, c: FrkrClient)       // about to look for an existing Secret
    | AtGenerate(ver: nat, c: FrkrClient)
    | AtInsert(ver: nat, c: FrkrClient, secret: string)
    | AtFetch(ver: nat, c: FrkrClient, secret: string)  // the row already exists
    | AtSecret(ver: nat, c: FrkrClient, secret: string)
    | AtCreate(ver: nat, c: FrkrClient, secret: string)
    | AtUpdate(ver: nat, c: FrkrClient, secret: string, secretVer: nat)
    | AtWrite(ver: nat, c: FrkrClient)

  datatype Outcome = Go(pass: ClientPass) | Done | Failed

  type Reply = (Stores, Outcome)

  function Rank(p: ClientPass): nat {
    match p
    case Begin => 7
    case AtEarly(_, _) => 6
    case AtGenerate(_, _) => 5
    case AtInsert(_, _, _) => 4
    case AtFetch(_, _, _) => 3
    case AtSecret(_, _, _) => 2
    case AtCreate(_, _, _) => 1
    case AtUpdate(_, _, _, _) => 1
    case AtWrite(_, _) => 0
  }

  function RowKeyOf(spec: ClientSpec): RowKey {
    (spec.tenantID, spec.clientID)
  }

  function SecretOf(spec: ClientSpec, secret: string): Data {
    map["clientId" := spec.clientID, "clientSecret" := secret]
  }

  /** The secret an existing Kubernetes Secret holds; empty when it has no such entry. */
  function Held(d: Data): string {
    if "clientSecret" in d then d["clientSecret"] else ""
  }

  function StreamOf(spec: ClientSpec): Option<string> {
    if spec.streamID == "" then None else Some(spec.streamID)
  }

  function MadeReady(x: FrkrClient, id: string): FrkrClient {
    x.(status := x.status.(id := id, phase := "Ready"))
  }

  ghost predicate Within(st: Stores, rank: nat, r: Reply) {
    && Grows(st, r.0)
    && r.0 == st.(log := r.0.log, clientRows := r.0.clientRows, secrets := r.0.secrets)
    && (r.1.Go? ==> Rank(r.1.pass) < rank && !r.1.pass.Begin?)
  }

  /** With the secret settled: the database first, if there is one. */
  function Chosen(cfg: Config, ver: nat, x: FrkrClient, secret: string): (p: ClientPass)
    ensures Rank(p) < 5 && !p.Begin?
  {
    if cfg.database then AtInsert(ver, x, secret) else AtSecret(ver, x, secret)
  }

  function Read(cfg: Config, st: Stores, k: Key, c: Choice): (r: Reply)
    ensures Within(st, 7, r)
  {
    match Get(st, k, c)
    case Found(ver, ClientR(x)) =>
      if x.spec.secret == "" then (st, Go(AtEarly(ver, x)))
      else (st, Go(Chosen(cfg, ver, x, x.spec.secret)))
    case ReadError => (st, Failed)
    case _ => (st, Done)
  }

  /** Any failure of this read is treated like a Secret without a value. */
  function Early(cfg: Config, st: Stores, k: Key, ver: nat, x: FrkrClient, c: Choice): (r: Reply)
    ensures Within(st, 6, r)
  {
    match GetSecret(st, ClientSecretName(k), c)
    case Found(_, d) => if Held(d) == "" then (st, Go(AtGenerate(ver, x))) else (st, Go(Chosen(cfg, ver, x, Held(d))))
    case _ => (st, Go(AtGenerate(ver, x)))
  }

  function Generate(cfg: Config, st: Stores, ver: nat, x: FrkrClient, c: Choice): (r: Reply)
    ensures Within(st, 5, r)
  {
    if c.fault != Fine || c.text == "" then (st, Failed)
    else (st, Go(Chosen(cfg, ver, x.(status := x.status.(secretGenerated := true)), c.text)))
  }

  function Insert(st: Stores, ver: nat, x: FrkrClient, secret: string, c: Choice): (r: Reply)
    ensures Within(st, 4, r)
  {
    var (st', o) := InsertClient(st, RowKeyOf(x.spec), secret, StreamOf(x.spec), c);
    match o
    case Inserted(row) => (st', Go(AtSecret(ver, MadeReady(x, row.id), secret)))
    case AlreadyExists => (st', Go(AtFetch(ver, x, secret)))
    case InsertError => (st', Failed)
  }

  function Fetch(st: Stores, ver: nat, x: FrkrClient, secret: string, c: Choice): (r: Reply)
    ensures Within(st, 3, r)
  {
    match FetchClient(st, RowKeyOf(x.spec), c)
    case Some(row) => (st, Go(AtSecret(ver, MadeReady(x, row.id), secret)))
    case None => (st, Failed)
  }

  /** A read that fails for another reason than not-found skips the Secret altogether. */
  function Secret(st: Stores, k: Key, ver: nat, x: FrkrClient, secret: string, c: Choice): (r: Reply)
    ensures Within(st, 2, r)
  {
    match GetSecret(st, ClientSecretName(k), c)
    case NotFound => (st, Go(AtCreate(ver, x, secret)))
    case Found(v, _) => (st, Go(AtUpdate(ver, x, secret, v)))
    case ReadError => (st, Go(AtWrite(ver, x)))
  }

  function Create(st: Stores, k: Key, ver: nat, x: FrkrClient, secret: string, c: Choice): (r: Reply)
    ensures Within(st, 1, r)
  {
    var (st', ok) := CreateSecret(st, ClientSecretName(k), SecretOf(x.spec, secret), c);
    if ok then (st', Go(AtWrite(ver, x))) else (st', Failed)
  }

  function Update(st: Stores, k: Key, ver: nat, x: FrkrClient, secret: string, secretVer: nat, c: Choice): (r: Reply)
    ensures Within(st, 1, r)
  {
    var (st', ok) := UpdateSecret(st, ClientSecretName(k), secretVer, SecretOf(x.spec, secret), c);
    if ok then (st', Go(AtWrite(ver, x))) else (st', Failed)
  }

  function Write(st: Stores, k: Key, ver: nat, x: FrkrClient, c: Choice): (r: Reply)
    ensures Within(st, 0, r)
  {
    var (st', ok) := UpdateStatus(st, k, ver, ClientR(x), c);
    (st', if ok then Done else Failed)
  }

  function Step(cfg: Config, st: Stores, k: Key, p: ClientPass, c: Choice): (r: Reply)
    ensures Within(st, Rank(p), r)
    ensures r.1.Go? ==> if p.Begin? then Get(st, k, c).Found? && r.1.pass.ver == Get(st, k, c).version
                        else r.1.pass.ver == p.ver
  {
    match p
    case Begin => Read(cfg, st, k, c)
    case AtEarly(ver, x) => Early(cfg, st, k, ver, x, c)
    case AtGenerate(ver, x) => Generate(cfg, st, ver, x, c)
    case AtInsert(ver, x, secret) => Insert(st, ver, x, secret, c)
    case AtFetch(ver, x, secret) => Fetch(st, ver, x, secret, c)
    case AtSecret(ver, x, secret) => Secret(st, k, ver, x, secret, c)
    case AtCreate(ver, x, secret) => Create(st, k, ver, x, secret, c)
    case AtUpdate(ver, x, secret, secretVer) => Update(st, k, ver, x, secret, secretVer, c)
    case AtWrite(ver, x) => Write(st, k, ver, x, c)
  }

  /** A pass from point `p` to its end with nothing else in between; its calls are decided
      by `ch(n)`, `ch(n + 1)`, and so on. */
  function Run(cfg: Config, st: Stores, k: Key, p: ClientPass, ch: nat -> Choice, n: nat): (r: Reply)
    ensures !r.1.Go?
    decreases Rank(p)
  {
    var r := Step(cfg, st, k, p, ch(n));
    if r.1.Go? then Run(cfg, r.0, k, r.1.pass, ch, n + 1) else r
  }

  // ---- What a pass and its writes guarantee --------------------------------------

  /** The status is ready and holds the ID of the row for this client's key. */
  ghost predicate Registered(st: Stores, x: FrkrClient) {
    && x.status.phase == "Ready"
    && (x.spec.tenantID, x.spec.clientID) in st.clientRows
    && x.status.id == st.clientRows[(x.spec.tenantID, x.spec.clientID)].id
  }

  ghost predicate Writes(cfg: Config, st: Stores, a: FrkrClient, b: FrkrClient) {
    && b.spec == a.spec && b.status.conditions == a.status.conditions
    && (a.status.secretGenerated ==> b.status.secretGenerated)
    && (b.status.secretGenerated ==> a.status.secretGenerated || a.spec.secret == "")
    && (cfg.database ==> Registered(st, b))
    && (!cfg.database ==> b.status.id == a.status.id && b.status.phase == a.status.phase)
  }

  /** Before the database call: only the generated flag may have changed. */
  ghost predicate Carries(a: FrkrClient, x: FrkrClient, secret: string) {
    && (x == a || (a.spec.secret == "" && x == a.(status := a.status.(secretGenerated := true))))
    && secret != ""
    && (a.spec.secret != "" ==> secret == a.spec.secret)
  }

  ghost predicate Settled(cfg: Config, st: Stores, a: FrkrClient, x: FrkrClient, secret: string) {
    && Writes(cfg, st, a, x) && secret != ""
    && (a.spec.secret != "" ==> secret == a.spec.secret)
  }

  ghost predicate PassOk(cfg: Config, st: Stores, a: FrkrClient, p: ClientPass)
    requires !p.Begin?
  {
    match p
    case AtEarly(_, x) => x == a && a.spec.secret == ""
    case AtGenerate(_, x) => x == a && a.spec.secret == ""
    case AtInsert(_, x, s) => cfg.database && Carries(a, x, s)
    case AtFetch(_, x, s) => cfg.database && Carries(a, x, s) && RowKeyOf(a.spec) in st.clientRows
    case AtSecret(_, x, s) => Settled(cfg, st, a, x, s)
    case AtCreate(_, x, s) => Settled(cfg, st, a, x, s)
    case AtUpdate(_, x, s, _) => Settled(cfg, st, a, x, s)
    case AtWrite(_, x) => Writes(cfg, st, a, x)
  }

  lemma WritesStable(cfg: Config, st: Stores, st': Stores, a: FrkrClient, b: FrkrClient)
    requires Writes(cfg, st, a, b) && Grows(st, st')
    ensures Writes(cfg, st', a, b)
  {
  }

  lemma PassStable(cfg: Config, st: Stores, st': Stores, a: FrkrClient, p: ClientPass)
    requires !p.Begin? && PassOk(cfg, st, a, p) && Grows(st, st')
    ensures PassOk(cfg, st', a, p)
  {
  }

  lemma StepWrites(cfg: Config, st: Stores, k: Key, p: ClientPass, c: Choice)
    ensures var st' := Step(cfg, st, k, p, c).0;
      || st'.log == st.log
      || (p.AtWrite? && p.ver == Version(st.log, k) && Latest(st.log, k).Some?
          && st'.log == Commit(st.log, k, Some(ClientR(p.c))))
  {
    match p {
      case Begin =>
      case AtEarly(_, _) =>
      case AtGenerate(_, _) =>
      case AtInsert(_, _, _) =>
      case AtFetch(_, _, _) =>
      case AtSecret(_, _, _) =>
      case AtCreate(_, _, _) =>
      case AtUpdate(_, _, _, _) =>
      case AtWrite(_, _) =>
    }
  }

  /** The only Secret a pass writes is the one of its name in its own namespace, with its spec's
      client ID and the secret it carries. */
  lemma StepSecrets(cfg: Config, st: Stores, k: Key, p: ClientPass, c: Choice)
    ensures var st' := Step(cfg, st, k, p, c).0;
      || st'.secrets == st.secrets
      || ((p.AtCreate? || p.AtUpdate?)
          && st'.secrets == Commit(st.secrets, Name(k.namespace, "frkr-client-" + k.name),
               Some(map["clientId" := p.c.spec.clientID, "clientSecret" := p.secret])))
  {
    hide Grows, LogsGrow, InsertClient, FetchClient, UpdateStatus, Get, Within, Commit, CreateSecret, UpdateSecret;
    match p {
      case Begin =>
      case AtEarly(_, _) =>
      case AtGenerate(_, _) =>
      case AtInsert(_, _, _) =>
      case AtFetch(_, _, _) =>
      case AtSecret(_, _, _) =>
      case AtCreate(_, _, _) =>
      case AtUpdate(_, _, _, _) =>
      case AtWrite(_, _) =>
    }
  }

  /** The only row a pass inserts is the one for its spec's tenant and client ID, with the secret
      it carries and the spec's stream, if it names one. */
  lemma StepRows(cfg: Config, st: Stores, k: Key, p: ClientPass, c: Choice)
    ensures var st' := Step(cfg, st, k, p, c).0;
      || st'.clientRows == st.clientRows
      || (p.AtInsert? && (p.c.spec.tenantID, p.c.spec.clientID) !in st.clientRows
          && st'.clientRows == st.clientRows[(p.c.spec.tenantID, p.c.spec.clientID) :=
               ClientRow(c.id, p.secret, if p.c.spec.streamID == "" then None else Some(p.c.spec.streamID))])
  {
    hide Grows, LogsGrow, CreateSecret, UpdateSecret, UpdateStatus, Get, Within;
    match p {
      case Begin =>
      case AtEarly(_, _) =>
      case AtGenerate(_, _) =>
      case AtInsert(_, _, _) =>
      case AtFetch(_, _, _) =>
      case AtSecret(_, _, _) =>
      case AtCreate(_, _, _) =>
      case AtUpdate(_, _, _, _) =>
      case AtWrite(_, _) =>
    }
  }

  /** A pass settles on the spec's secret; with none, on what the Secret holds, if it can be read
      and holds any; or else on a text it generates, and only then the status says so. */
  lemma SettlesOn(cfg: Config, st: Stores, k: Key, p: ClientPass, c: Choice)
    requires (p.Begin? || p.AtEarly? || p.AtGenerate?) && Step(cfg, st, k, p, c).1.Go?
    ensures var q := Step(cfg, st, k, p, c).1.pass;
      && (p.Begin? ==> Get(st, k, c).Found? && Get(st, k, c).value.ClientR?)
      && var x := if p.Begin? then Get(st, k, c).value.client else p.c;
         var held := GetSecret(st, Name(k.namespace, "frkr-client-" + k.name), c);
         var holds := held.Found? && "clientSecret" in held.value && held.value["clientSecret"] != "";
         && (q.AtEarly? <==> p.Begin? && x.spec.secret == "")
         && (q.AtGenerate? <==> p.AtEarly? && !holds)
         && (q.AtEarly? || q.AtGenerate? || (if cfg.database then q.AtInsert? else q.AtSecret?))
         && q.c == (if p.AtGenerate? then x.(status := x.status.(secretGenerated := true)) else x)
         && (q.AtInsert? || q.AtSecret? ==>
               q.secret == if p.Begin? then x.spec.secret
                           else if p.AtEarly? then held.value["clientSecret"]
                           else c.text)
  {
    hide Grows, LogsGrow;
  }

  /** A call that fails, or whose reply is lost, ends the pass with an error; but a Secret that
      cannot be read is first taken for one without a value, and then skipped. */
  lemma FaultDecides(cfg: Config, st: Stores, k: Key, p: ClientPass, c: Choice)
    requires c.fault != Fine
    ensures Step(cfg, st, k, p, c).1 ==
      match p
      case AtEarly(ver, x) => Go(AtGenerate(ver, x))
      case AtSecret(ver, x, _) => Go(AtWrite(ver, x))
      case _ => Failed
  {
    hide Grows, LogsGrow, Commit;
  }

  lemma StepPass(cfg: Config, st: Stores, k: Key, a: FrkrClient, p: ClientPass, c: Choice)
    requires p.Begin? ==> Get(st, k, c).Found? ==> Get(st, k, c).value == ClientR(a)
    requires !p.Begin? ==> PassOk(cfg, st, a, p)
    ensures var (st', o) := Step(cfg, st, k, p, c); o.Go? ==> PassOk(cfg, st', a, o.pass)
  {
    match p {
      case Begin =>
      case AtEarly(_, _) =>
      case AtGenerate(_, _) =>
      case AtInsert(_, _, _) =>
      case AtFetch(_, _, _) =>
      case AtSecret(_, _, _) =>
      case AtCreate(_, _, _) =>
      case AtUpdate(_, _, _, _) =>
      case AtWrite(_, _) =>
    }
  }
}
