/** The three shared stores (API server, database, broker) as one value, and every call
    the operator makes on them as a function of a `Choice`. */
module Stores {
  import opened Base
  import opened Resources

  /** How an external call ends: it works; it works but the reply is lost, so the caller
      sees an error; or it fails without effect. */
  datatype Fault = Fine | Lost | Broken

  /** What one external call may decide on its own: its fault, the identifier the database
      assigns or returns, generated text (password, topic name, error message), the version
      a cached read returns, a number, the order of a listing, and two probe answers. */
  datatype Choice = Choice(
    fault: Fault, id: string, text: string, at: nat, number: nat, keys: seq<Key>,
    flag: bool, flag2: bool)

  datatype Config = Config(database: bool, broker: bool)

  datatype StreamRow = StreamRow(tenantID: string, name: string, topic: string, description: string, retentionDays: int)
  datatype ClientRow = ClientRow(id: string, secret: string, streamID: Option<string>)

  type Data = map<string, string>
  type RowKey = (string, string)

  datatype Stores = Stores(
    log: map<Key, Log<Resource>>,     // custom resources, every version
    seen: map<Key, nat>,              // the version the informer cache holds
    secrets: map<Name, Log<Data>>,
    deployments: map<Name, Log<nat>>, // available replicas, every version
    tenants: map<string, string>,     // tenant name to ID
    streamRows: map<string, StreamRow>, // by stream ID
    userRows: map<RowKey, string>,    // (tenant ID, username) to password
    clientRows: map<RowKey, ClientRow>, // (tenant ID, client ID)
    topics: set<string>,
    migrated: set<string>,            // URLs whose database is migrated
    clock: nat)

  // ---- Stores only grow --------------------------------------------------------

  /** `b` keeps all that `a` holds: logs are extended, rows, topics and migrations stay, though a
      user's row may get another password. */
  ghost predicate Grows(a: Stores, b: Stores) {
    && LogsGrow(a.log, b.log)
    && LogsGrow(a.secrets, b.secrets)
    && LogsGrow(a.deployments, b.deployments)
    && Submap(a.tenants, b.tenants)
    && Submap(a.streamRows, b.streamRows)
    && Submap(a.clientRows, b.clientRows)
    && a.userRows.Keys <= b.userRows.Keys
    && a.topics <= b.topics && a.migrated <= b.migrated
    && a.clock <= b.clock
  }

  lemma Prefix(a: Stores, b: Stores, k: Key)
    requires Grows(a, b)
    ensures LogOf(a.log, k) <= LogOf(b.log, k)
  {
  }

  lemma GrowsReflexive(st: Stores)
    ensures Grows(st, st)
  {
  }

  lemma GrowsTransitive(a: Stores, b: Stores, c: Stores)
    requires Grows(a, b) && Grows(b, c)
    ensures Grows(a, c)
  {
  }

  ghost predicate TenantsInjective(st: Stores) {
    forall m, n :: m in st.tenants && n in st.tenants && st.tenants[m] == st.tenants[n] ==> m == n
  }

  // ---- API server --------------------------------------------------------------

  function Seen(st: Stores, k: Key): nat {
    Clamp(st.log, k, if k in st.seen then st.seen[k] else 0)
  }

  function Get(st: Stores, k: Key, c: Choice): Read<Resource> {
    if c.fault != Fine then ReadError else ReadAt(st.log, k, Seen(st, k))
  }

  /** `Status().Update`: commits only over the version that was read. */
  function UpdateStatus(st: Stores, k: Key, ver: nat, obj: Resource, c: Choice): (r: (Stores, bool))
    ensures Grows(st, r.0) && r.0 == st.(log := r.0.log)
    ensures r.1 ==> ver == Version(st.log, k) && Latest(r.0.log, k) == Some(obj)
  {
    if c.fault == Broken || ver != Version(st.log, k) || Latest(st.log, k).None? then (st, false)
    else (st.(log := Commit(st.log, k, Some(obj))), c.fault == Fine)
  }

  function DeleteResource(st: Stores, k: Key, c: Choice): (r: (Stores, bool))
    ensures Grows(st, r.0) && r.0 == st.(log := r.0.log)
    ensures r.1 ==> Latest(st.log, k).Some? && Latest(r.0.log, k).None?
  {
    if c.fault == Broken || Latest(st.log, k).None? then (st, false)
    else (st.(log := Commit(st.log, k, None)), c.fault == Fine)
  }

  predicate Present(st: Stores, k: Key) {
    LogOf(st.log, k)[Seen(st, k)].Some?
  }

  /** `keys` lists, once each, the resources of a kind that the cache holds. */
  predicate IsListing(st: Stores, kind: Kind, keys: seq<Key>) {
    && (forall i, j :: 0 <= i < j < |keys| ==> keys[i] != keys[j])
    && (forall k :: k in keys ==> k.kind == kind && Present(st, k))
    && (forall k :: k in st.log && k.kind == kind && Present(st, k) ==> k in keys)
  }

  function GetSecret(st: Stores, n: Name, c: Choice): Read<Data> {
    if c.fault != Fine then ReadError else ReadAt(st.secrets, n, c.at)
  }

  function CreateSecret(st: Stores, n: Name, d: Data, c: Choice): (r: (Stores, bool))
    ensures Grows(st, r.0) && r.0 == st.(secrets := r.0.secrets)
    ensures r.1 ==> Latest(st.secrets, n).None? && Latest(r.0.secrets, n) == Some(d)
    ensures r.0.secrets == st.secrets || r.0.secrets == Commit(st.secrets, n, Some(d))
  {
    if c.fault == Broken || Latest(st.secrets, n).Some? then (st, false)
    else (st.(secrets := Commit(st.secrets, n, Some(d))), c.fault == Fine)
  }

  function UpdateSecret(st: Stores, n: Name, ver: nat, d: Data, c: Choice): (r: (Stores, bool))
    ensures Grows(st, r.0) && r.0 == st.(secrets := r.0.secrets)
    ensures r.1 ==> ver == Version(st.secrets, n) && Latest(r.0.secrets, n) == Some(d)
    ensures r.0.secrets == st.secrets || r.0.secrets == Commit(st.secrets, n, Some(d))
  {
    if c.fault == Broken || ver != Version(st.secrets, n) || Latest(st.secrets, n).None? then (st, false)
    else (st.(secrets := Commit(st.secrets, n, Some(d))), c.fault == Fine)
  }

  function GetDeployment(st: Stores, n: Name, c: Choice): Read<nat> {
    if c.fault != Fine then ReadError else ReadAt(st.deployments, n, c.at)
  }

  // ---- Database ----------------------------------------------------------------

  predicate FreshTenant(st: Stores, id: string) {
    id != "" && forall n :: n in st.tenants ==> st.tenants[n] != id
  }

  /** `CreateOrGetTenant`: atomic, and injective by name. */
  function EnsureTenant(st: Stores, name: string, c: Choice): (r: (Stores, Option<string>))
    ensures Grows(st, r.0) && r.0 == st.(tenants := r.0.tenants)
    ensures r.1.Some? ==> name in r.0.tenants && r.0.tenants[name] == r.1.value
    ensures TenantsInjective(st) ==> TenantsInjective(r.0)
  {
    if c.fault == Broken then (st, None)
    else if name in st.tenants then (st, if c.fault == Fine then Some(st.tenants[name]) else None)
    else if !FreshTenant(st, c.id) then (st, None)
    else (st.(tenants := st.tenants[name := c.id]), if c.fault == Fine then Some(c.id) else None)
  }

  /** `CreateStream`: nothing is assumed about a repeated name. It may return a row that
      exists for that tenant and name, add another row, or fail. */
  function CreateStream(st: Stores, tenantID: string, name: string, description: string, retentionDays: int, c: Choice)
    : (r: (Stores, Option<(string, string)>))
    ensures Grows(st, r.0) && r.0 == st.(streamRows := r.0.streamRows)
    ensures r.1.Some? ==> var (id, topic) := r.1.value;
      id in r.0.streamRows && r.0.streamRows[id].tenantID == tenantID
      && r.0.streamRows[id].name == name && r.0.streamRows[id].topic == topic
  {
    if c.fault == Broken || c.id == "" then (st, None)
    else if c.id in st.streamRows then
      var row := st.streamRows[c.id];
      if row.tenantID == tenantID && row.name == name && c.fault == Fine then (st, Some((c.id, row.topic)))
      else (st, None)
    else
      (st.(streamRows := st.streamRows[c.id := StreamRow(tenantID, name, c.text, description, retentionDays)]),
       if c.fault == Fine then Some((c.id, c.text)) else None)
  }

  /** `CreateUser`: on a repeated username it may fail, keep the row, or overwrite it. */
  function EnsureUser(st: Stores, tenantID: string, username: string, password: string, c: Choice): (r: (Stores, bool))
    ensures Grows(st, r.0) && r.0 == st.(userRows := r.0.userRows)
  {
    var key := (tenantID, username);
    if c.fault == Broken || (key in st.userRows && c.number == 0) then (st, false)
    else if key in st.userRows && c.number == 1 then (st, c.fault == Fine)
    else (st.(userRows := st.userRows[key := password]), c.fault == Fine)
  }

  datatype InsertResult = Inserted(row: ClientRow) | AlreadyExists | InsertError

  predicate FreshClient(st: Stores, id: string) {
    id != "" && forall k :: k in st.clientRows ==> st.clientRows[k].id != id
  }

  /** `CreateClient`: inserts, or fails with "already exists". */
  function InsertClient(st: Stores, key: RowKey, secret: string, streamID: Option<string>,
      c: Choice): (r: (Stores, InsertResult))
    ensures Grows(st, r.0) && r.0 == st.(clientRows := r.0.clientRows)
    ensures r.1.Inserted? ==> key !in st.clientRows && key in r.0.clientRows && r.0.clientRows[key] == r.1.row
    ensures r.1.Inserted? ==> r.1.row.secret == secret && r.1.row.streamID == streamID
    ensures r.1.AlreadyExists? ==> key in st.clientRows && r.0 == st
  {
    if c.fault == Broken then (st, InsertError)
    else if key in st.clientRows then (st, if c.fault == Fine then AlreadyExists else InsertError)
    else if !FreshClient(st, c.id) then (st, InsertError)
    else
      var row := ClientRow(c.id, secret, streamID);
      (st.(clientRows := st.clientRows[key := row]), if c.fault == Fine then Inserted(row) else InsertError)
  }

  function FetchClient(st: Stores, key: RowKey, c: Choice): Option<ClientRow> {
    if c.fault == Fine && key in st.clientRows then Some(st.clientRows[key]) else None
  }

  /** `RunMigrations`. */
  function Migrate(st: Stores, url: string, c: Choice): (r: (Stores, bool))
    ensures Grows(st, r.0) && r.0 == st.(migrated := r.0.migrated)
    ensures r.1 ==> url in r.0.migrated
  {
    if c.fault == Broken then (st, false)
    else (st.(migrated := st.migrated + {url}), c.fault == Fine)
  }

  // ---- Broker ------------------------------------------------------------------

  /** `CreateTopic`; "already exists" counts as success. */
  function CreateTopic(st: Stores, topic: string, c: Choice): (r: (Stores, bool))
    ensures Grows(st, r.0) && r.0 == st.(topics := r.0.topics)
    ensures r.1 ==> topic in r.0.topics
  {
    if c.fault == Broken then (st, false)
    else (st.(topics := st.topics + {topic}), c.fault == Fine)
  }

  // ---- What a fault means --------------------------------------------------------

  /** The outcomes of one call when it works, when its reply is lost, and when it fails: a lost
      one has the same effect, a failed one has none, and either caller is told of an error. */
  ghost predicate FaultsShow<R>(st: Stores, works: (Stores, R), lost: (Stores, R), broken: (Stores, R), error: R) {
    lost == (works.0, error) && broken == (st, error)
  }

  lemma ApiFaults(st: Stores, k: Key, n: Name, ver: nat, r: Resource, d: Data, c: Choice)
    requires c.fault == Fine
    ensures var l, b := c.(fault := Lost), c.(fault := Broken);
      && FaultsShow(st, UpdateStatus(st, k, ver, r, c), UpdateStatus(st, k, ver, r, l), UpdateStatus(st, k, ver, r, b),
          false)
      && FaultsShow(st, DeleteResource(st, k, c), DeleteResource(st, k, l), DeleteResource(st, k, b), false)
      && FaultsShow(st, CreateSecret(st, n, d, c), CreateSecret(st, n, d, l), CreateSecret(st, n, d, b), false)
      && FaultsShow(st, UpdateSecret(st, n, ver, d, c), UpdateSecret(st, n, ver, d, l), UpdateSecret(st, n, ver, d, b),
          false)
  {
    hide Grows, LogsGrow, Commit;
  }

  lemma DatabaseFaults(st: Stores, name: string, row: RowKey, text: string, streamID: Option<string>, c: Choice)
    requires c.fault == Fine
    ensures var l, b := c.(fault := Lost), c.(fault := Broken);
      && FaultsShow(st, EnsureTenant(st, name, c), EnsureTenant(st, name, l), EnsureTenant(st, name, b), None)
      && FaultsShow(st, EnsureUser(st, row.0, row.1, text, c), EnsureUser(st, row.0, row.1, text, l),
           EnsureUser(st, row.0, row.1, text, b), false)
      && FaultsShow(st, InsertClient(st, row, text, streamID, c), InsertClient(st, row, text, streamID, l),
           InsertClient(st, row, text, streamID, b), InsertError)
  {
    hide Grows, LogsGrow, TenantsInjective;
  }

  lemma OtherFaults(st: Stores, text: string, c: Choice)
    requires c.fault == Fine
    ensures var l, b := c.(fault := Lost), c.(fault := Broken);
      && FaultsShow(st, Migrate(st, text, c), Migrate(st, text, l), Migrate(st, text, b), false)
      && FaultsShow(st, CreateTopic(st, text, c), CreateTopic(st, text, l), CreateTopic(st, text, b), false)
  {
    hide Grows, LogsGrow;
  }

  // ---- What a call may decide ------------------------------------------------------

  /** A Secret may be read at any version it ever had. */
  lemma AnySecretVersion(st: Stores, n: Name, i: nat) returns (c: Choice)
    requires i < |LogOf(st.secrets, n)|
    ensures GetSecret(st, n, c)
            == match LogOf(st.secrets, n)[i] case None => NotFound case Some(d) => Found(i, d)
  {
    c := Choice(Fine, "", "", i, 0, [], false, false);
  }

  lemma AnyDeploymentVersion(st: Stores, n: Name, i: nat) returns (c: Choice)
    requires i < |LogOf(st.deployments, n)|
    ensures GetDeployment(st, n, c)
            == match LogOf(st.deployments, n)[i] case None => NotFound case Some(v) => Found(i, v)
  {
    c := Choice(Fine, "", "", i, 0, [], false, false);
  }

  /** A repeated username may fail, keep the row, or overwrite it. */
  lemma RepeatedUser(st: Stores, tenantID: string, username: string, password: string)
      returns (fails: Choice, keeps: Choice, overwrites: Choice)
    requires (tenantID, username) in st.userRows
    ensures EnsureUser(st, tenantID, username, password, fails) == (st, false) && fails.fault == Fine
    ensures EnsureUser(st, tenantID, username, password, keeps) == (st, true)
    ensures EnsureUser(st, tenantID, username, password, overwrites)
            == (st.(userRows := st.userRows[(tenantID, username) := password]), true)
  {
    hide Grows;
    fails := Choice(Fine, "", "", 0, 0, [], false, false);
    keeps := fails.(number := 1);
    overwrites := fails.(number := 2);
  }

  /** A repeated stream name may return any row of that tenant and name, or add another. */
  lemma RepeatedStream(st: Stores, id: string, unused: string, topic: string, description: string, retentionDays: int)
      returns (existing: Choice, another: Choice)
    requires id in st.streamRows && id != "" && unused !in st.streamRows && unused != ""
    ensures var row := st.streamRows[id];
      && CreateStream(st, row.tenantID, row.name, description, retentionDays, existing) == (st, Some((id, row.topic)))
      && CreateStream(st, row.tenantID, row.name, description, retentionDays, another)
         == (st.(streamRows := st.streamRows[unused :=
              StreamRow(row.tenantID, row.name, topic, description, retentionDays)]), Some((unused, topic)))
  {
    hide Grows;
    existing := Choice(Fine, id, topic, 0, 0, [], false, false);
    another := existing.(id := unused);
  }
}
