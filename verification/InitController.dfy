/** internal/controller/init_controller.go: build the database URL, run the migrations, poll
    the gateways, report. */
module InitController {
  import opened Base
  import opened Conditions
  import opened Resources
  import opened Stores
  import opened ConnectionString

  datatype InitPass =
    | Begin
    | AtPlanes(ver: nat, i: FrkrInit)
    | AtPassword(ver: nat, i: FrkrInit, db: DatabaseConfig)
    | AtMigrate(ver: nat, i: FrkrInit, url: string)
    | AtVersion(ver: nat, i: FrkrInit, url: string)
    | AtGateway(ver: nat, i: FrkrInit, url: string, version: nat, next: nat)
    | AtFailure(ver: nat, i: FrkrInit)
    | AtWaiting(ver: nat, i: FrkrInit)
    | AtReady(ver: nat, i: FrkrInit, url: string)

  datatype Outcome = Go(pass: InitPass) | Done | RequeueAfter(after: nat) | Failed

  type Reply = (Stores, Outcome)

  function Stage(p: InitPass): nat {
    match p
    case Begin => 6
    case AtPlanes(_, _) => 5
    case AtPassword(_, _, _) => 4
    case AtMigrate(_, _, _) => 3
    case AtVersion(_, _, _) => 2
    case AtGateway(_, _, _, _, _) => 1
    case AtFailure(_, _) => 0
    case AtWaiting(_, _) => 0
    case AtReady(_, _, _) => 0
  }

  function Rank(p: InitPass): nat {
    if p.AtGateway? && p.next < |p.i.spec.gateways| then |p.i.spec.gateways| - p.next else 0
  }

  predicate Closer(q: InitPass, p: InitPass) {
    !q.Begin? && (Stage(q) < Stage(p) || (Stage(q) == Stage(p) && Rank(q) < Rank(p)))
  }

  /** The URL of a data plane's database with the given password. */
  function UrlOf(db: DatabaseConfig, password: string): Url {
    Url(if db.typ == "cockroachdb" then "cockroachdb" else "postgres",
        db.user, password, db.host, db.port, db.database, db.sslMode)
  }

  function MigrationsFailed(i: FrkrInit, message: string, now: nat): FrkrInit {
    i.(status := i.status.(phase := "Failed",
         conditions := Set(i.status.conditions,
             Condition("MigrationsComplete", false, "MigrationError", message, now))))
  }

  function Waiting(i: FrkrInit, now: nat): FrkrInit {
    i.(status := i.status.(conditions := Set(i.status.conditions,
         Condition("Ready", false, "WaitingForGateways", "Migrations complete, waiting for gateways", now))))
  }

  function Initialized(i: FrkrInit, version: nat, now: nat): FrkrInit {
    i.(status := i.status.(phase := "Initialized", conditions := Set(i.status.conditions,
         Condition("Ready", true, "MigrationsComplete",
           "Database migrations completed successfully (version: " + StringOf(version)
               + ") and gateways are ready", now))))
  }

  ghost predicate Within(st: Stores, p: InitPass, r: Reply) {
    && Grows(st, r.0)
    && r.0 == st.(log := r.0.log, migrated := r.0.migrated)
    && (r.1.Go? ==> Closer(r.1.pass, p))
  }

  function ReadInit(st: Stores, k: Key, c: Choice): (r: Reply)
    ensures Within(st, Begin, r)
  {
    match Get(st, k, c)
    case Found(ver, InitR(i)) =>
      if i.spec.databaseURL == "" then (st, Go(AtPlanes(ver, i))) else (st, Go(AtMigrate(ver, i, i.spec.databaseURL)))
    case ReadError => (st, Failed)
    case _ => (st, Done)
  }

  /** The first listed data plane decides; a failed or empty listing is an error. */
  function Planes(st: Stores, ver: nat, i: FrkrInit, c: Choice): (r: Reply)
    ensures Within(st, AtPlanes(ver, i), r)
  {
    if c.fault != Fine || c.keys == [] || !IsListing(st, DataPlaneKind, c.keys) then (st, Failed)
    else match ReadAt<Key, Resource>(st.log, c.keys[0], Seen(st, c.keys[0]))
      case Found(_, DataPlaneR(d)) =>
        if d.spec.postgres.passwordRef != "" then (st, Go(AtPassword(ver, i, d.spec.postgres)))
        else (st, Go(AtMigrate(ver, i, Print(UrlOf(d.spec.postgres, "")))))
      case _ => (st, Failed)
  }

  function Password(st: Stores, k: Key, ver: nat, i: FrkrInit, db: DatabaseConfig, c: Choice): (r: Reply)
    ensures Within(st, AtPassword(ver, i, db), r)
  {
    match GetSecret(st, Name(k.namespace, db.passwordRef), c)
    case Found(_, d) =>
      if "password" in d then (st, Go(AtMigrate(ver, i, Print(UrlOf(db, d["password"]))))) else (st, Failed)
    case _ => (st, Failed)
  }

  function RunMigrations(st: Stores, ver: nat, i: FrkrInit, url: string, c: Choice): (r: Reply)
    ensures Within(st, AtMigrate(ver, i, url), r)
  {
    var (st', ok) := Migrate(st, url, c);
    if ok then (st', Go(AtVersion(ver, i, url))) else (st', Go(AtFailure(ver, MigrationsFailed(i, c.text, st.clock))))
  }

  /** Past the last gateway the pass is ready to report. */
  function Polling(now: nat, ver: nat, i: FrkrInit, url: string, version: nat, next: nat): (p: InitPass)
    ensures p.AtGateway? || p.AtReady?
    ensures p.AtGateway? ==> next < |i.spec.gateways| && p == AtGateway(ver, i, url, version, next)
  {
    if next < |i.spec.gateways| then AtGateway(ver, i, url, version, next)
    else AtReady(ver, Initialized(i, version, now), url)
  }

  /** A failing `GetVersion` is only logged; the version then prints as zero. */
  function GetVersion(st: Stores, ver: nat, i: FrkrInit, url: string, c: Choice): (r: Reply)
    ensures Within(st, AtVersion(ver, i, url), r)
  {
    if c.fault != Fine then (st, Go(Polling(st.clock, ver, i, url, 0, 0)))
    else
      var shown := i.(status := i.status.(version := c.number, dirty := c.flag));
      (st, Go(Polling(st.clock, ver, shown, url, c.number, 0)))
  }

  /** One round of the loop of `checkGateways`: a missing deployment or one without
      available replicas means waiting, another read error is returned. */
  function Gateway(st: Stores, k: Key, ver: nat, i: FrkrInit, url: string, version: nat, next: nat,
      c: Choice): (r: Reply)
    requires next < |i.spec.gateways|
    ensures Within(st, AtGateway(ver, i, url, version, next), r)
  {
    match GetDeployment(st, Name(k.namespace, i.spec.gateways[next]), c)
    case Found(_, n) =>
      if n == 0 then (st, Go(AtWaiting(ver, Waiting(i, st.clock))))
      else (st, Go(Polling(st.clock, ver, i, url, version, next + 1)))
    case NotFound => (st, Go(AtWaiting(ver, Waiting(i, st.clock))))
    case ReadError => (st, Failed)
  }

  function Write(st: Stores, k: Key, ver: nat, i: FrkrInit, after: Outcome, c: Choice): (r: Reply)
    requires !after.Go?
    ensures Grows(st, r.0) && r.0 == st.(log := r.0.log) && !r.1.Go?
  {
    var (st', ok) := UpdateStatus(st, k, ver, InitR(i), c);
    (st', if ok then after else Failed)
  }

  function Step(st: Stores, k: Key, p: InitPass, c: Choice): (r: Reply)
    ensures Within(st, p, r)
    ensures r.1.Go? ==> if p.Begin? then Get(st, k, c).Found? && r.1.pass.ver == Get(st, k, c).version
                        else r.1.pass.ver == p.ver
  {
    match p
    case Begin => ReadInit(st, k, c)
    case AtPlanes(ver, i) => Planes(st, ver, i, c)
    case AtPassword(ver, i, db) => Password(st, k, ver, i, db, c)
    case AtMigrate(ver, i, url) => RunMigrations(st, ver, i, url, c)
    case AtVersion(ver, i, url) => GetVersion(st, ver, i, url, c)
    case AtGateway(ver, i, url, version, next) =>
      if next < |i.spec.gateways| then Gateway(st, k, ver, i, url, version, next, c) else (st, Failed)
    case AtFailure(ver, i) => Write(st, k, ver, i, Failed, c)
    case AtWaiting(ver, i) => Write(st, k, ver, i, RequeueAfter(10_000_000_000), c)
    case AtReady(ver, i, _) => Write(st, k, ver, i, Done, c)
  }

  /** A pass from point `p` to its end with nothing else in between; its calls are decided
      by `ch(n)`, `ch(n + 1)`, and so on. */
  function Run(st: Stores, k: Key, p: InitPass, ch: nat -> Choice, n: nat): (r: Reply)
    ensures !r.1.Go?
    decreases Stage(p), Rank(p)
  {
    var r := Step(st, k, p, ch(n));
    if r.1.Go? then Run(r.0, k, r.1.pass, ch, n + 1) else r
  }

  // ---- What a pass and its writes guarantee --------------------------------------

  /** Some version of the deployment had available replicas. */
  ghost predicate WasAvailable(st: Stores, n: Name) {
    var log := LogOf(st.deployments, n);
    exists j :: 0 <= j < |log| && log[j].Some? && log[j].value > 0
  }

  ghost predicate IsAvailable(st: Stores, n: Name) {
    Latest(st.deployments, n).Some? && Latest(st.deployments, n).value > 0
  }

  ghost predicate GatewaysSeen(st: Stores, k: Key, gateways: seq<string>) {
    forall g :: g in gateways ==> WasAvailable(st, Name(k.namespace, g))
  }

  /** `password` is what the referenced Secret held, or empty without a reference. */
  ghost predicate PasswordOf(st: Stores, k: Key, ref: string, password: string) {
    if ref == "" then password == ""
    else
      var log := LogOf(st.secrets, Name(k.namespace, ref));
      exists j :: 0 <= j < |log| && HoldsPassword(log[j], password)
  }

  ghost predicate HoldsPassword(d: Option<Data>, password: string) {
    d.Some? && "password" in d.value && d.value["password"] == password
  }

  /** Some version of some data plane has this database configuration. */
  ghost predicate IsPlane(st: Stores, db: DatabaseConfig) {
    exists pk, j :: 0 <= j < |LogOf(st.log, pk)| && PlaneAt(LogOf(st.log, pk)[j], db)
  }

  ghost predicate PlaneAt(r: Option<Resource>, db: DatabaseConfig) {
    r.Some? && r.value.DataPlaneR? && r.value.plane.spec.postgres == db
  }

  /** The URL names this database, field by field. */
  ghost predicate IsUrl(db: DatabaseConfig, password: string, url: string) {
    url == (if db.typ == "cockroachdb" then "cockroachdb" else "postgres")
           + "://" + db.user + ":" + password + "@" + db.host + ":" + PrintInt(db.port)
           + "/" + db.database + "?sslmode=" + db.sslMode
  }

  /** The URL is the spec's, or printed from a data plane and its password. */
  ghost predicate UrlFor(st: Stores, k: Key, spec: InitSpec, url: string) {
    if spec.databaseURL != "" then url == spec.databaseURL
    else exists db, pw :: IsPlane(st, db) && PasswordOf(st, k, db.passwordRef, pw) && IsUrl(db, pw, url)
  }

  /** The database the spec names is migrated and every gateway was seen available. */
  ghost predicate Verified(st: Stores, k: Key, spec: InitSpec, url: string) {
    UrlFor(st, k, spec, url) && url in st.migrated && GatewaysSeen(st, k, spec.gateways)
  }

  ghost predicate StatusOk(st: Stores, status: InitStatus) {
    Unique(status.conditions) && Before(status.conditions, st.clock)
  }

  /** The condition and the phase of a failed migration; version and dirtiness are as they were. */
  predicate ShowsFailure(a: InitStatus, b: InitStatus, message: string) {
    b.phase == "Failed" && b.version == a.version && b.dirty == a.dirty
    && Shows(b.conditions, "MigrationsComplete", false, "MigrationError", message)
  }

  predicate ShowsWaiting(b: InitStatus) {
    Shows(b.conditions, "Ready", false, "WaitingForGateways", "Migrations complete, waiting for gateways")
  }

  /** The condition of success prints the version that was read. */
  predicate ShowsSuccess(b: InitStatus, printed: nat) {
    Shows(b.conditions, "Ready", true, "MigrationsComplete",
      "Database migrations completed successfully (version: " + StringOf(printed) + ") and gateways are ready")
  }

  /** A pass that read `a` may write `b`: a failure touches only MigrationsComplete, waiting
      for some gateway makes Ready false and keeps the phase, success does both phase and Ready. */
  ghost predicate Writes(st: Stores, k: Key, a: FrkrInit, b: FrkrInit) {
    && b.spec == a.spec
    && StatusOk(st, b.status)
    && Follows(a.status.conditions, b.status.conditions)
    && (|| (b.status.phase == "Failed" && (exists message :: ShowsFailure(a.status, b.status, message))
            && !IsTrue(b.status.conditions, "MigrationsComplete")
            && IsTrue(b.status.conditions, "Ready") == IsTrue(a.status.conditions, "Ready"))
        || (b.status.phase == a.status.phase && !IsTrue(b.status.conditions, "Ready") && b.spec.gateways != []
            && ShowsWaiting(b.status))
        || (b.status.phase == "Initialized" && IsTrue(b.status.conditions, "Ready")
            && (exists printed :: ShowsSuccess(b.status, printed))
            && exists url :: Verified(st, k, b.spec, url)))
  }

  /** Before the gateways are polled only version and dirtiness may have been updated. */
  ghost predicate SameSoFar(a: FrkrInit, i: FrkrInit) {
    i.spec == a.spec && i.status.phase == a.status.phase && i.status.conditions == a.status.conditions
  }

  ghost predicate PassOk(st: Stores, k: Key, a: FrkrInit, p: InitPass)
    requires !p.Begin?
  {
    match p
    case AtPlanes(_, i) => i == a && a.spec.databaseURL == ""
    case AtPassword(_, i, db) => i == a && a.spec.databaseURL == "" && db.passwordRef != "" && IsPlane(st, db)
    case AtMigrate(_, i, url) => i == a && UrlFor(st, k, a.spec, url)
    case AtVersion(_, i, url) => i == a && UrlFor(st, k, a.spec, url) && url in st.migrated
    case AtGateway(_, i, url, _, next) =>
      SameSoFar(a, i) && UrlFor(st, k, a.spec, url) && url in st.migrated
      && next < |a.spec.gateways| && GatewaysSeen(st, k, a.spec.gateways[..next])
    case AtFailure(_, i) => Writes(st, k, a, i)
    case AtWaiting(_, i) => Writes(st, k, a, i)
    case AtReady(_, i, url) => Writes(st, k, a, i) && Verified(st, k, a.spec, url)
                               && i.status.phase == "Initialized" && IsTrue(i.status.conditions, "Ready")
  }

  lemma UrlStable(st: Stores, st': Stores, k: Key, spec: InitSpec, url: string)
    requires Grows(st, st') && UrlFor(st, k, spec, url)
    ensures UrlFor(st', k, spec, url)
  {
    if spec.databaseURL == "" {
      var db, pw :| IsPlane(st, db) && PasswordOf(st, k, db.passwordRef, pw) && IsUrl(db, pw, url);
      PlaneStable(st, st', db);
      PasswordStable(st, st', k, db.passwordRef, pw);
    }
  }

  lemma PlaneStable(st: Stores, st': Stores, db: DatabaseConfig)
    requires Grows(st, st') && IsPlane(st, db)
    ensures IsPlane(st', db)
  {
    var pk, j :| 0 <= j < |LogOf(st.log, pk)| && PlaneAt(LogOf(st.log, pk)[j], db);
    assert LogOf(st.log, pk) <= LogOf(st'.log, pk);
    assert PlaneAt(LogOf(st'.log, pk)[j], db);
  }

  lemma PasswordStable(st: Stores, st': Stores, k: Key, ref: string, pw: string)
    requires Grows(st, st') && PasswordOf(st, k, ref, pw)
    ensures PasswordOf(st', k, ref, pw)
  {
    if ref != "" {
      var n := Name(k.namespace, ref);
      var j :| 0 <= j < |LogOf(st.secrets, n)| && HoldsPassword(LogOf(st.secrets, n)[j], pw);
      assert LogOf(st.secrets, n) <= LogOf(st'.secrets, n);
      assert HoldsPassword(LogOf(st'.secrets, n)[j], pw);
    }
  }

  lemma SeenStable(st: Stores, st': Stores, k: Key, gateways: seq<string>)
    requires Grows(st, st') && GatewaysSeen(st, k, gateways)
    ensures GatewaysSeen(st', k, gateways)
  {
    forall g | g in gateways ensures WasAvailable(st', Name(k.namespace, g)) {
      var n := Name(k.namespace, g);
      assert WasAvailable(st, n);
      var j :| 0 <= j < |LogOf(st.deployments, n)| && LogOf(st.deployments, n)[j].Some?
          && LogOf(st.deployments, n)[j].value > 0;
      assert LogOf(st.deployments, n) <= LogOf(st'.deployments, n);
      assert LogOf(st'.deployments, n)[j].value > 0;
    }
  }

  lemma VerifiedStable(st: Stores, st': Stores, k: Key, spec: InitSpec, url: string)
    requires Grows(st, st') && Verified(st, k, spec, url)
    ensures Verified(st', k, spec, url)
  {
    UrlStable(st, st', k, spec, url);
    SeenStable(st, st', k, spec.gateways);
  }

  lemma WritesStable(st: Stores, st': Stores, k: Key, a: FrkrInit, b: FrkrInit)
    requires Grows(st, st') && Writes(st, k, a, b)
    ensures Writes(st', k, a, b)
  {
    if url :| Verified(st, k, b.spec, url) {
      VerifiedStable(st, st', k, b.spec, url);
    }
  }

  lemma PassStable(st: Stores, st': Stores, k: Key, a: FrkrInit, p: InitPass)
    requires !p.Begin? && PassOk(st, k, a, p) && Grows(st, st')
    ensures PassOk(st', k, a, p)
  {
    match p {
      case AtPlanes(_, _) =>
      case AtPassword(_, _, db) => PlaneStable(st, st', db);
      case AtMigrate(_, _, url) => UrlStable(st, st', k, a.spec, url);
      case AtVersion(_, _, url) => UrlStable(st, st', k, a.spec, url);
      case AtGateway(_, _, url, _, next) =>
        UrlStable(st, st', k, a.spec, url);
        SeenStable(st, st', k, a.spec.gateways[..next]);
      case AtFailure(_, i) => WritesStable(st, st', k, a, i);
      case AtWaiting(_, i) => WritesStable(st, st', k, a, i);
      case AtReady(_, i, url) =>
        WritesStable(st, st', k, a, i);
        VerifiedStable(st, st', k, a.spec, url);
    }
  }

  lemma StepWrites(st: Stores, k: Key, p: InitPass, c: Choice)
    ensures var st' := Step(st, k, p, c).0;
      || st'.log == st.log
      || ((p.AtFailure? || p.AtWaiting? || p.AtReady?) && p.ver == Version(st.log, k) && Latest(st.log, k).Some?
          && st'.log == Commit(st.log, k, Some(InitR(p.i))))
  {
    match p {
      case Begin =>
      case AtPlanes(_, _) =>
      case AtPassword(_, _, _) =>
      case AtMigrate(_, _, _) =>
      case AtVersion(_, _, _) =>
      case AtGateway(_, _, _, _, _) =>
      case AtFailure(_, _) =>
      case AtWaiting(_, _) =>
      case AtReady(_, _, _) =>
    }
  }

  lemma InitializedShows(i: FrkrInit, version: nat, now: nat)
    ensures ShowsSuccess(Initialized(i, version, now).status, version)
  {
    hide Set;
    SetShows(i.status.conditions, Condition("Ready", true, "MigrationsComplete",
      "Database migrations completed successfully (version: " + StringOf(version) + ") and gateways are ready", now));
  }

  /** The URL of a database reads back as its own fields exactly when these hold no delimiter. */
  lemma UrlReadsBack(db: DatabaseConfig, password: string, url: string)
    requires IsUrl(db, password, url)
    ensures var scheme := if db.typ == "cockroachdb" then "cockroachdb" else "postgres";
      Parse(url) == Some(Url(scheme, db.user, password, db.host, db.port, db.database, db.sslMode))
      <==> Free(db.user, ":@/?#") && Free(password, "@/?#") && Free(db.host, ":@/?#") && db.port >= 0
           && Free(db.database, "?#") && Free(db.sslMode, "#")
  {
    hide Parse, IsUrl;
    var scheme := if db.typ == "cockroachdb" then "cockroachdb" else "postgres";
    var u := Url(scheme, db.user, password, db.host, db.port, db.database, db.sslMode);
    IsUrlPrinted(db, password, url);
    RoundTrip(u);
  }

  lemma IsUrlPrinted(db: DatabaseConfig, password: string, url: string)
    ensures var scheme := if db.typ == "cockroachdb" then "cockroachdb" else "postgres";
      var u := Url(scheme, db.user, password, db.host, db.port, db.database, db.sslMode);
      IsUrl(db, password, url) <==> url == Print(u)
  {
  }

  // ---- What the calls decide -------------------------------------------------------

  /** The first listed data plane decides; without one that can be listed the pass fails. */
  lemma FirstPlaneDecides(st: Stores, k: Key, ver: nat, i: FrkrInit, c: Choice)
    ensures var o := Step(st, k, AtPlanes(ver, i), c).1;
      if c.fault == Fine && c.keys != [] && IsListing(st, DataPlaneKind, c.keys) && PlaneSeen(st, c.keys[0]).Some? then
        var db := PlaneSeen(st, c.keys[0]).value;
        if db.passwordRef != "" then o == Go(AtPassword(ver, i, db))
        else o.Go? && o.pass.AtMigrate? && o.pass == AtMigrate(ver, i, o.pass.url) && IsUrl(db, "", o.pass.url)
      else o == Failed
  {
    hide Grows, IsListing;
  }

  /** The database that the cache shows for a data plane. */
  function PlaneSeen(st: Stores, pk: Key): Option<DatabaseConfig> {
    var r := LogOf(st.log, pk)[Seen(st, pk)];
    if r.Some? && r.value.DataPlaneR? then Some(r.value.plane.spec.postgres) else None
  }

  /** The password comes from the referenced Secret in the namespace of the init resource; if
      that cannot be read or has none, the pass fails. */
  lemma SecretDecides(st: Stores, k: Key, ver: nat, i: FrkrInit, db: DatabaseConfig, c: Choice)
    ensures var o := Step(st, k, AtPassword(ver, i, db), c).1;
      var read := GetSecret(st, Name(k.namespace, db.passwordRef), c);
      if read.Found? && "password" in read.value then
        && o.Go? && o.pass.AtMigrate? && o.pass == AtMigrate(ver, i, o.pass.url)
        && IsUrl(db, read.value["password"], o.pass.url)
      else o == Failed
  {
    hide Grows;
  }

  /** A migration that fails is reported with its error; one that works leads on. */
  lemma MigrationDecides(st: Stores, k: Key, ver: nat, i: FrkrInit, url: string, c: Choice)
    ensures var o := Step(st, k, AtMigrate(ver, i, url), c).1;
      if c.fault == Fine then o == Go(AtVersion(ver, i, url))
      else o.Go? && o.pass.AtFailure? && o.pass.ver == ver && o.pass.i.spec == i.spec
           && ShowsFailure(i.status, o.pass.i.status, c.text)
  {
    hide Grows, Set;
    SetShows(i.status.conditions, Condition("MigrationsComplete", false, "MigrationError", c.text, st.clock));
  }

  /** A gateway that is up leads to the next one; one that is missing or has no replica, to
      waiting, with nothing else changed; a read that fails otherwise, to an error. */
  lemma GatewayDecides(st: Stores, k: Key, p: InitPass, c: Choice)
    requires p.AtGateway? && p.next < |p.i.spec.gateways|
    ensures var o := Step(st, k, p, c).1;
      match GetDeployment(st, Name(k.namespace, p.i.spec.gateways[p.next]), c)
      case ReadError => o == Failed
      case NotFound => o.Go? && IsWaiting(p, o.pass)
      case Found(_, n) =>
        if n == 0 then o.Go? && IsWaiting(p, o.pass)
        else o.Go? && (if p.next + 1 < |p.i.spec.gateways| then o.pass == p.(next := p.next + 1) else o.pass.AtReady?)
  {
    hide Grows, Set;
    SetShows(p.i.status.conditions,
      Condition("Ready", false, "WaitingForGateways", "Migrations complete, waiting for gateways", st.clock));
  }

  predicate IsWaiting(p: InitPass, q: InitPass)
    requires p.AtGateway?
  {
    && q.AtWaiting? && q.ver == p.ver && q.i.spec == p.i.spec && ShowsWaiting(q.i.status)
    && q.i.status == p.i.status.(conditions := q.i.status.conditions)
  }

  /** A call that fails, or whose reply is lost, ends the pass with an error; but a failed
      migration is reported first, and a failed version call is passed over. */
  lemma FaultDecides(st: Stores, k: Key, p: InitPass, c: Choice)
    requires c.fault != Fine
    ensures var o := Step(st, k, p, c).1;
      match p
      case AtMigrate(_, _, _) => o.Go? && o.pass.AtFailure?
      case AtVersion(_, i, _) => o.Go? && (if i.spec.gateways == [] then o.pass.AtReady? else o.pass.AtGateway?)
      case _ => o == Failed
  {
    hide Grows, LogsGrow, Commit, Set, IsListing;
  }

  /** How a pass ends: a reported failure is an error; a pass that waits looks again after ten
      seconds; a write that fails is an error. */
  lemma Endings(st: Stores, k: Key, p: InitPass, c: Choice)
    requires p.AtFailure? || p.AtWaiting? || p.AtReady?
    ensures var (st', o) := Step(st, k, p, c);
      var wrote := c.fault == Fine && p.ver == Version(st.log, k) && Latest(st.log, k).Some?;
      o == if !wrote || p.AtFailure? then Failed else if p.AtWaiting? then RequeueAfter(10_000_000_000) else Done
  {
    hide Grows, LogsGrow, Commit;
  }

  // ---- The calls, one by one -------------------------------------------------------

  lemma PlanesPass(st: Stores, k: Key, ver: nat, a: FrkrInit, c: Choice)
    requires a.spec.databaseURL == ""
    ensures var o := Planes(st, ver, a, c).1; o.Go? ==> !o.pass.Begin? && PassOk(st, k, a, o.pass)
  {
    var o := Planes(st, ver, a, c).1;
    if o.Go? {
      var pk := c.keys[0];
      var db := LogOf(st.log, pk)[Seen(st, pk)].value.plane.spec.postgres;
      assert PlaneAt(LogOf(st.log, pk)[Seen(st, pk)], db);
      assert IsPlane(st, db);
      if db.passwordRef == "" {
        assert PasswordOf(st, k, db.passwordRef, "");
      }
    }
  }

  lemma PasswordPass(st: Stores, k: Key, ver: nat, a: FrkrInit, db: DatabaseConfig, c: Choice)
    requires a.spec.databaseURL == "" && db.passwordRef != "" && IsPlane(st, db)
    ensures var o := Password(st, k, ver, a, db, c).1; o.Go? ==> !o.pass.Begin? && PassOk(st, k, a, o.pass)
  {
    var o := Password(st, k, ver, a, db, c).1;
    if o.Go? {
      var n := Name(k.namespace, db.passwordRef);
      var d := LogOf(st.secrets, n)[Clamp(st.secrets, n, c.at)];
      assert HoldsPassword(d, d.value["password"]);
      assert PasswordOf(st, k, db.passwordRef, d.value["password"]);
    }
  }

  lemma FailureIsWrite(st: Stores, k: Key, a: FrkrInit, message: string)
    requires StatusOk(st, a.status)
    ensures Writes(st, k, a, MigrationsFailed(a, message, st.clock))
  {
    SetIsSound(a.status.conditions, Condition("MigrationsComplete", false, "MigrationError", message, st.clock));
    SetShows(a.status.conditions, Condition("MigrationsComplete", false, "MigrationError", message, st.clock));
    assert ShowsFailure(a.status, MigrationsFailed(a, message, st.clock).status, message);
  }

  lemma WaitingIsWrite(st: Stores, k: Key, a: FrkrInit, i: FrkrInit)
    requires StatusOk(st, a.status) && SameSoFar(a, i) && a.spec.gateways != []
    ensures Writes(st, k, a, Waiting(i, st.clock))
  {
    var n := Condition("Ready", false, "WaitingForGateways", "Migrations complete, waiting for gateways", st.clock);
    SetIsSound(a.status.conditions, n);
    SetShows(a.status.conditions, n);
  }

  lemma PollingPass(st: Stores, k: Key, a: FrkrInit, ver: nat, i: FrkrInit, url: string, version: nat, next: nat)
    requires StatusOk(st, a.status) && SameSoFar(a, i)
    requires UrlFor(st, k, a.spec, url) && url in st.migrated
    requires next <= |a.spec.gateways| && GatewaysSeen(st, k, a.spec.gateways[..next])
    ensures PassOk(st, k, a, Polling(st.clock, ver, i, url, version, next))
  {
    if next == |a.spec.gateways| {
      assert a.spec.gateways[..next] == a.spec.gateways;
      assert Verified(st, k, a.spec, url);
      var n := Condition("Ready", true, "MigrationsComplete",
        "Database migrations completed successfully (version: " + StringOf(version)
            + ") and gateways are ready", st.clock);
      SetIsSound(a.status.conditions, n);
      InitializedShows(i, version, st.clock);
    }
  }

  lemma GatewayPass(st: Stores, k: Key, a: FrkrInit, ver: nat, i: FrkrInit, url: string, version: nat, next: nat,
      c: Choice)
    requires StatusOk(st, a.status) && PassOk(st, k, a, AtGateway(ver, i, url, version, next))
    ensures var o := Gateway(st, k, ver, i, url, version, next, c).1;
            o.Go? ==> !o.pass.Begin? && PassOk(st, k, a, o.pass)
  {
    var n := Name(k.namespace, a.spec.gateways[next]);
    var read := GetDeployment(st, n, c);
    if read.Found? && read.value > 0 {
      assert LogOf(st.deployments, n)[read.version].value > 0;
      assert WasAvailable(st, n);
      assert a.spec.gateways[..next + 1] == a.spec.gateways[..next] + [a.spec.gateways[next]];
      PollingPass(st, k, a, ver, i, url, version, next + 1);
    } else if !read.ReadError? {
      WaitingIsWrite(st, k, a, i);
    }
  }

  lemma MigratePass(st: Stores, k: Key, a: FrkrInit, ver: nat, url: string, c: Choice)
    requires StatusOk(st, a.status) && UrlFor(st, k, a.spec, url)
    ensures var (st', o) := RunMigrations(st, ver, a, url, c); o.Go? && !o.pass.Begin? && PassOk(st', k, a, o.pass)
  {
    var (st', ok) := Migrate(st, url, c);
    if ok {
      UrlStable(st, st', k, a.spec, url);
    } else {
      FailureIsWrite(st', k, a, c.text);
    }
  }

  lemma ReadPass(st: Stores, k: Key, a: FrkrInit, c: Choice)
    requires Get(st, k, c).Found? ==> Get(st, k, c).value == InitR(a)
    ensures var o := ReadInit(st, k, c).1; o.Go? ==> !o.pass.Begin? && PassOk(st, k, a, o.pass)
  {
  }

  lemma VersionPass(st: Stores, k: Key, a: FrkrInit, ver: nat, url: string, c: Choice)
    requires StatusOk(st, a.status) && UrlFor(st, k, a.spec, url) && url in st.migrated
    ensures var o := GetVersion(st, ver, a, url, c).1; o.Go? && !o.pass.Begin? && PassOk(st, k, a, o.pass)
  {
    if c.fault != Fine {
      PollingPass(st, k, a, ver, a, url, 0, 0);
    } else {
      PollingPass(st, k, a, ver, a.(status := a.status.(version := c.number, dirty := c.flag)), url, c.number, 0);
    }
  }

  /** The calls up to the migrations. */
  lemma EarlyStepPass(st: Stores, k: Key, a: FrkrInit, p: InitPass, c: Choice)
    requires StatusOk(st, a.status) && Stage(p) >= 3
    requires p.Begin? ==> Get(st, k, c).Found? ==> Get(st, k, c).value == InitR(a)
    requires !p.Begin? ==> PassOk(st, k, a, p)
    ensures var (st', o) := Step(st, k, p, c); o.Go? ==> PassOk(st', k, a, o.pass)
  {
    hide UrlFor, IsPlane, Writes, Grows, StatusOk, Verified, GatewaysSeen;
    match p {
      case Begin => ReadPass(st, k, a, c);
      case AtPlanes(ver, _) => PlanesPass(st, k, ver, a, c);
      case AtPassword(ver, _, db) => PasswordPass(st, k, ver, a, db, c);
      case AtMigrate(ver, _, url) => MigratePass(st, k, a, ver, url, c);
    }
  }

  /** The calls after the migrations. */
  lemma LateStepPass(st: Stores, k: Key, a: FrkrInit, p: InitPass, c: Choice)
    requires StatusOk(st, a.status) && Stage(p) < 3
    requires PassOk(st, k, a, p)
    ensures var (st', o) := Step(st, k, p, c); o.Go? ==> PassOk(st', k, a, o.pass)
  {
    hide UrlFor, Grows, StatusOk, Verified, GatewaysSeen, Writes;
    match p {
      case AtVersion(ver, _, url) => VersionPass(st, k, a, ver, url, c);
      case AtGateway(ver, i, url, version, next) => GatewayPass(st, k, a, ver, i, url, version, next, c);
      case AtFailure(_, _) =>
      case AtWaiting(_, _) =>
      case AtReady(_, _, _) =>
    }
  }

  lemma StepPass(st: Stores, k: Key, a: FrkrInit, p: InitPass, c: Choice)
    requires StatusOk(st, a.status)
    requires p.Begin? ==> Get(st, k, c).Found? ==> Get(st, k, c).value == InitR(a)
    requires !p.Begin? ==> PassOk(st, k, a, p)
    ensures var (st', o) := Step(st, k, p, c); o.Go? ==> PassOk(st', k, a, o.pass)
  {
    if Stage(p) >= 3 {
      EarlyStepPass(st, k, a, p, c);
    } else {
      LateStepPass(st, k, a, p, c);
    }
  }
}
