/** internal/controller/stream_controller.go: one reconcile pass, one external call a step. */
module StreamController {
  import opened Base
  import opened Conditions
  import opened Resources
  import opened Stores

  /** Where a pass is: about to read the stream, to ensure its tenant, to create its row,
      its topic, to write the ready status, or to write a failure and be requeued. */
  datatype StreamPass =
    | Begin
    | AtTenant(ver: nat, s: FrkrStream)
    | AtRow(ver: nat, s: FrkrStream, tenantID: string)
    | AtTopic(ver: nat, s: FrkrStream, streamID: string, topic: string)
    | AtReady(ver: nat, s: FrkrStream)
    | AtReport(ver: nat, s: FrkrStream, after: nat)

  datatype Outcome =
    | Go(pass: StreamPass)
    | Done                    // nothing left to do
    | RequeueAfter(after: nat)
    | Failed                  // an error: retried with backoff

  function Rank(p: StreamPass): nat {
    match p
    case Begin => 5
    case AtTenant(_, _) => 4
    case AtRow(_, _, _) => 3
    case AtTopic(_, _, _, _) => 2
    case AtReady(_, _) => 1
    case AtReport(_, _, _) => 1
  }

  function StreamCreated(status: bool, reason: string, message: string, now: nat): Condition {
    Condition("StreamCreated", status, reason, message, now)
  }

  function Reported(s: FrkrStream, phase: string, reason: string, message: string, now: nat): FrkrStream {
    s.(status := s.status.(phase := phase,
                           conditions := Set(s.status.conditions, StreamCreated(false, reason, message, now))))
  }

  function MadeReady(s: FrkrStream, streamID: string, topic: string, now: nat): FrkrStream {
    s.(status := StreamStatus("Ready", streamID, topic,
         Set(s.status.conditions, Success(topic, now))))
  }

  function Retention(spec: StreamSpec): int {
    if spec.retentionDays == 0 then 7 else spec.retentionDays
  }

  type Reply = (Stores, Outcome)

  /** A stream pass may touch its own log, tenants, stream rows and topics, and only grow
      them; a pass that goes on is closer to its end. */
  ghost predicate Within(st: Stores, rank: nat, r: Reply) {
    && Grows(st, r.0)
    && (TenantsInjective(st) ==> TenantsInjective(r.0))
    && r.0 == st.(log := r.0.log, tenants := r.0.tenants, streamRows := r.0.streamRows, topics := r.0.topics)
    && (r.1.Go? ==> Rank(r.1.pass) < rank && !r.1.pass.Begin?)
  }

  /** Read the stream; without a database connection, report it and requeue. */
  function Read(cfg: Config, st: Stores, k: Key, c: Choice): (r: Reply)
    ensures Within(st, 5, r)
  {
    match Get(st, k, c)
    case Found(ver, StreamR(s)) =>
      if cfg.database then (st, Go(AtTenant(ver, s)))
      else (st, Go(AtReport(ver,
          Reported(s, "Pending", "InfrastructureNotReady", "Waiting for database connection", st.clock), 5)))
    case ReadError => (st, Failed)
    case _ => (st, Done)
  }

  /** Step 1: ensure the tenant. */
  function Tenant(st: Stores, ver: nat, s: FrkrStream, c: Choice): (r: Reply)
    ensures Within(st, 4, r)
  {
    var (st', id) := EnsureTenant(st, s.spec.tenantID, c);
    if id.Some? then (st', Go(AtRow(ver, s, id.value)))
    else (st', Go(AtReport(ver, Reported(s, "Error", "TenantError", c.text, st.clock), 30)))
  }

  /** Step 2: create the row. */
  function Row(cfg: Config, st: Stores, ver: nat, s: FrkrStream, tenantID: string, c: Choice): (r: Reply)
    ensures Within(st, 3, r)
  {
    var (st', row) := CreateStream(st, tenantID, s.spec.name, s.spec.description, Retention(s.spec), c);
    if row.None? then (st', Go(AtReport(ver, Reported(s, "Error", "DatabaseError", c.text, st.clock), 30)))
    else if cfg.broker then (st', Go(AtTopic(ver, s, row.value.0, row.value.1)))
    else (st', Go(AtReady(ver, MadeReady(s, row.value.0, row.value.1, st.clock))))
  }

  /** Step 3: create the topic. */
  function Topic(st: Stores, ver: nat, s: FrkrStream, streamID: string, topic: string, c: Choice): (r: Reply)
    ensures Within(st, 2, r)
  {
    var (st', ok) := CreateTopic(st, topic, c);
    if ok then (st', Go(AtReady(ver, MadeReady(s, streamID, topic, st.clock))))
    else (st', Go(AtReport(ver, Reported(s, "Error", "KafkaError", c.text, st.clock), 30)))
  }

  /** Step 4: write the status; an error is returned. */
  function Ready(st: Stores, k: Key, ver: nat, s: FrkrStream, c: Choice): (r: Reply)
    ensures Within(st, 1, r)
  {
    var (st', ok) := UpdateStatus(st, k, ver, StreamR(s), c);
    (st', if ok then Done else Failed)
  }

  /** `updateStatus`: an error of the write is dropped. */
  function Report(st: Stores, k: Key, ver: nat, s: FrkrStream, after: nat, c: Choice): (r: Reply)
    ensures Within(st, 1, r)
  {
    (UpdateStatus(st, k, ver, StreamR(s), c).0, RequeueAfter(after))
  }

  function Step(cfg: Config, st: Stores, k: Key, p: StreamPass, c: Choice): (r: Reply)
    ensures Within(st, Rank(p), r)
    ensures r.1.Go? ==> if p.Begin? then Get(st, k, c).Found? && r.1.pass.ver == Get(st, k, c).version
                        else r.1.pass.ver == p.ver
  {
    match p
    case Begin => Read(cfg, st, k, c)
    case AtTenant(ver, s) => Tenant(st, ver, s, c)
    case AtRow(ver, s, tenantID) => Row(cfg, st, ver, s, tenantID, c)
    case AtTopic(ver, s, streamID, topic) => Topic(st, ver, s, streamID, topic, c)
    case AtReady(ver, s) => Ready(st, k, ver, s, c)
    case AtReport(ver, s, after) => Report(st, k, ver, s, after, c)
  }

  /** A pass from point `p` to its end with nothing else in between; its calls are decided
      by `ch(n)`, `ch(n + 1)`, and so on. */
  function Run(cfg: Config, st: Stores, k: Key, p: StreamPass, ch: nat -> Choice, n: nat): (r: Reply)
    ensures !r.1.Go?
    decreases Rank(p)
  {
    var r := Step(cfg, st, k, p, ch(n));
    if r.1.Go? then Run(cfg, r.0, k, r.1.pass, ch, n + 1) else r
  }

  // ---- What a pass and its writes guarantee --------------------------------------

  /** The tenant row, the stream row and the topic that a ready status names exist, and
      they belong to the tenant and stream named in `spec`. */
  ghost predicate Provisioned(cfg: Config, st: Stores, spec: StreamSpec, status: StreamStatus) {
    && spec.tenantID in st.tenants
    && status.streamID in st.streamRows
    && st.streamRows[status.streamID].tenantID == st.tenants[spec.tenantID]
    && st.streamRows[status.streamID].name == spec.name
    && st.streamRows[status.streamID].topic == status.topic
    && (cfg.broker ==> status.topic in st.topics)
  }

  function Success(topic: string, now: nat): Condition {
    StreamCreated(true, "Success", "Stream created with topic: " + topic, now)
  }

  /** The condition is the one of success with the status's topic. */
  predicate ShowsSuccess(status: StreamStatus) {
    Shows(status.conditions, "StreamCreated", true, "Success", "Stream created with topic: " + status.topic)
  }

  /** The condition is one of failure for this reason, and row and topic are as they were. */
  predicate ShowsFailure(a: StreamStatus, b: StreamStatus, phase: string, reason: string, message: string) {
    b.phase == phase && b.streamID == a.streamID && b.topic == a.topic
    && Shows(b.conditions, "StreamCreated", false, reason, message)
  }

  /** What a pass that read status `a` may show: success; or that it waits for a database; or
      which of its calls failed. */
  ghost predicate StatusShows(cfg: Config, a: StreamStatus, b: StreamStatus) {
    || (b.phase == "Ready" && cfg.database && ShowsSuccess(b))
    || (!cfg.database && ShowsFailure(a, b, "Pending", "InfrastructureNotReady", "Waiting for database connection"))
    || (cfg.database && exists reason, message ::
          && ShowsFailure(a, b, "Error", reason, message)
          && (reason == "TenantError" || reason == "DatabaseError" || (reason == "KafkaError" && cfg.broker)))
  }

  ghost predicate StatusOk(st: Stores, status: StreamStatus) {
    && (status.phase == "Ready" <==> IsTrue(status.conditions, "StreamCreated"))
    && (status.phase == "Ready" ==> ShowsSuccess(status))
    && Unique(status.conditions) && Before(status.conditions, st.clock)
  }

  /** A pass that read `a` may write `b`. */
  ghost predicate Write(cfg: Config, st: Stores, a: FrkrStream, b: FrkrStream) {
    && b.spec == a.spec
    && StatusOk(st, b.status) && StatusShows(cfg, a.status, b.status)
    && Follows(a.status.conditions, b.status.conditions)
    && (b.status.phase == "Ready" ==> Provisioned(cfg, st, b.spec, b.status))
  }

  ghost predicate MadeFrom(a: FrkrStream, b: FrkrStream) {
    exists now: nat :: b == MadeReady(a, b.status.streamID, b.status.topic, now)
  }

  /** What holds at each point of a pass that read `a`. */
  ghost predicate PassOk(cfg: Config, st: Stores, a: FrkrStream, p: StreamPass)
    requires !p.Begin?
  {
    match p
    case AtTenant(_, s) => s == a && cfg.database
    case AtRow(_, s, id) => s == a && cfg.database && a.spec.tenantID in st.tenants && st.tenants[a.spec.tenantID] == id
    case AtTopic(_, s, id, topic) =>
      && s == a && cfg.database && cfg.broker
      && Provisioned(Config(true, false), st, a.spec, StreamStatus("", id, topic, []))
    case AtReady(_, s) => Write(cfg, st, a, s) && MadeFrom(a, s)
    case AtReport(_, s, _) => Write(cfg, st, a, s) && s.status.phase != "Ready"
  }

  lemma WriteStable(cfg: Config, st: Stores, st': Stores, a: FrkrStream, b: FrkrStream)
    requires Write(cfg, st, a, b) && Grows(st, st')
    ensures Write(cfg, st', a, b)
  {
  }

  lemma PassStable(cfg: Config, st: Stores, st': Stores, a: FrkrStream, p: StreamPass)
    requires !p.Begin? && PassOk(cfg, st, a, p) && Grows(st, st')
    ensures PassOk(cfg, st', a, p)
  {
  }

  lemma ReportIsWrite(cfg: Config, st: Stores, a: FrkrStream, phase: string, reason: string, message: string)
    requires StatusOk(st, a.status)
    requires phase == (if cfg.database then "Error" else "Pending")
    requires cfg.database
             ==> reason == "TenantError" || reason == "DatabaseError" || (reason == "KafkaError" && cfg.broker)
    requires !cfg.database ==> reason == "InfrastructureNotReady" && message == "Waiting for database connection"
    ensures Write(cfg, st, a, Reported(a, phase, reason, message, st.clock))
  {
    SetIsSound(a.status.conditions, StreamCreated(false, reason, message, st.clock));
    SetShows(a.status.conditions, StreamCreated(false, reason, message, st.clock));
    assert ShowsFailure(a.status, Reported(a, phase, reason, message, st.clock).status, phase, reason, message);
  }

  lemma ReadyIsWrite(cfg: Config, st: Stores, a: FrkrStream, id: string, topic: string)
    requires StatusOk(st, a.status)
    requires Provisioned(cfg, st, a.spec, StreamStatus("Ready", id, topic, [])) && cfg.database
    ensures Write(cfg, st, a, MadeReady(a, id, topic, st.clock)) && MadeFrom(a, MadeReady(a, id, topic, st.clock))
  {
    var b := MadeReady(a, id, topic, st.clock);
    assert b == MadeReady(a, b.status.streamID, b.status.topic, st.clock);
    SetIsSound(a.status.conditions, Success(topic, st.clock));
    SetShows(a.status.conditions, Success(topic, st.clock));
  }

  /** The log gains at most the status the pass computed, over the version it read. */
  lemma StepWrites(cfg: Config, st: Stores, k: Key, p: StreamPass, c: Choice)
    ensures var st' := Step(cfg, st, k, p, c).0;
      || st'.log == st.log
      || ((p.AtReady? || p.AtReport?) && p.ver == Version(st.log, k) && Latest(st.log, k).Some?
          && st'.log == Commit(st.log, k, Some(StreamR(p.s))))
  {
    match p {
      case Begin =>
      case AtTenant(_, _) =>
      case AtRow(_, _, _) =>
      case AtTopic(_, _, _, _) =>
      case AtReady(_, _) =>
      case AtReport(_, _, _) =>
    }
  }

  /** The only row a pass adds is one for the tenant it was given, and name, description and
      retention of its spec, the latter seven days if the spec leaves it out. */
  lemma StepRows(cfg: Config, st: Stores, k: Key, p: StreamPass, c: Choice)
    ensures var st' := Step(cfg, st, k, p, c).0;
      || st'.streamRows == st.streamRows
      || (p.AtRow? && c.id !in st.streamRows
          && st'.streamRows == st.streamRows[
               c.id := StreamRow(p.tenantID, p.s.spec.name, c.text, p.s.spec.description,
                 if p.s.spec.retentionDays == 0 then 7 else p.s.spec.retentionDays)])
  {
    hide Grows, LogsGrow, TenantsInjective, Within, Set;
    match p {
      case Begin =>
      case AtTenant(_, _) =>
      case AtRow(_, _, _) =>
      case AtTopic(_, _, _, _) =>
      case AtReady(_, _) =>
      case AtReport(_, _, _) =>
    }
  }

  /** The only tenant a pass adds is the one its spec names. */
  lemma StepTenants(cfg: Config, st: Stores, k: Key, p: StreamPass, c: Choice)
    ensures var st' := Step(cfg, st, k, p, c).0;
      st'.tenants == st.tenants || (p.AtTenant? && st'.tenants == st.tenants[p.s.spec.tenantID := c.id])
  {
    hide Grows, LogsGrow, TenantsInjective, Within, Set, Get, UpdateStatus, CreateTopic, Submap, Reported, MadeReady;
    match p {
      case Begin =>
      case AtTenant(_, _) =>
      case AtRow(_, _, _) =>
      case AtTopic(_, _, _, _) =>
      case AtReady(_, _) =>
      case AtReport(_, _, _) =>
    }
  }

  /** A pass that is about to report names the call that failed and its error, and will wait 30,
      or 5 for a database. Only the topic call fails exactly when the broker does not answer. */
  lemma ReportsItsCall(cfg: Config, st: Stores, k: Key, p: StreamPass, c: Choice)
    requires Step(cfg, st, k, p, c).1.Go?
    ensures var q := Step(cfg, st, k, p, c).1.pass; q.AtReport? ==>
      && q.after == (if p.Begin? then 5 else 30)
      && Step(cfg, st, k, q, c).1 == RequeueAfter(q.after)
      && var a := if p.Begin? then Get(st, k, c).value.stream else p.s;
         && q.s.spec == a.spec
         && ShowsFailure(a.status, q.s.status, if p.Begin? then "Pending" else "Error",
              match p
              case Begin => "InfrastructureNotReady"
              case AtTenant(_, _) => "TenantError"
              case AtRow(_, _, _) => "DatabaseError"
              case _ => "KafkaError",
              if p.Begin? then "Waiting for database connection" else c.text)
    ensures p.AtTopic? ==> (Step(cfg, st, k, p, c).1.pass.AtReport? <==> c.fault != Fine)
  {
    hide Grows, LogsGrow, TenantsInjective, Set;
    var q := Step(cfg, st, k, p, c).1.pass;
    if q.AtReport? {
      var a := if p.Begin? then Get(st, k, c).value.stream else p.s;
      match p {
        case Begin =>
          SetShows(a.status.conditions,
              StreamCreated(false, "InfrastructureNotReady", "Waiting for database connection", st.clock));
        case AtTenant(_, _) => SetShows(a.status.conditions, StreamCreated(false, "TenantError", c.text, st.clock));
        case AtRow(_, _, _) => SetShows(a.status.conditions, StreamCreated(false, "DatabaseError", c.text, st.clock));
        case AtTopic(_, _, _, _) => SetShows(a.status.conditions, StreamCreated(false, "KafkaError", c.text, st.clock));
      }
    }
  }

  /** A call that fails, or whose reply is lost: reading and the ready write end the pass with an
      error, the steps in between are reported, and the report itself is dropped. */
  lemma FaultDecides(cfg: Config, st: Stores, k: Key, p: StreamPass, c: Choice)
    requires c.fault != Fine
    ensures var o := Step(cfg, st, k, p, c).1;
      match p
      case Begin => o == Failed
      case AtReady(_, _) => o == Failed
      case AtReport(_, _, after) => o == RequeueAfter(after)
      case _ => o.Go? && o.pass.AtReport?
  {
    hide Grows, LogsGrow, TenantsInjective, Commit, Set;
  }

  lemma ReadPass(cfg: Config, st: Stores, k: Key, a: FrkrStream, c: Choice)
    requires StatusOk(st, a.status)
    requires Get(st, k, c).Found? ==> Get(st, k, c).value == StreamR(a)
    ensures var o := Read(cfg, st, k, c).1; o.Go? ==> !o.pass.Begin? && PassOk(cfg, st, a, o.pass)
  {
    if !cfg.database {
      ReportIsWrite(cfg, st, a, "Pending", "InfrastructureNotReady", "Waiting for database connection");
    }
  }

  lemma TenantPass(cfg: Config, st: Stores, ver: nat, s: FrkrStream, c: Choice)
    requires StatusOk(st, s.status) && cfg.database
    ensures var (st', o) := Tenant(st, ver, s, c); o.Go? && !o.pass.Begin? && PassOk(cfg, st', s, o.pass)
  {
    ReportIsWrite(cfg, EnsureTenant(st, s.spec.tenantID, c).0, s, "Error", "TenantError", c.text);
  }

  lemma RowPass(cfg: Config, st: Stores, ver: nat, s: FrkrStream, tenantID: string, c: Choice)
    requires PassOk(cfg, st, s, AtRow(ver, s, tenantID)) && StatusOk(st, s.status)
    ensures var (st', o) := Row(cfg, st, ver, s, tenantID, c); o.Go? && !o.pass.Begin? && PassOk(cfg, st', s, o.pass)
  {
    var (st', row) := CreateStream(st, tenantID, s.spec.name, s.spec.description, Retention(s.spec), c);
    if row.None? {
      ReportIsWrite(cfg, st', s, "Error", "DatabaseError", c.text);
    } else if !cfg.broker {
      ReadyIsWrite(cfg, st', s, row.value.0, row.value.1);
    }
  }

  lemma TopicPass(cfg: Config, st: Stores, ver: nat, s: FrkrStream, streamID: string, topic: string, c: Choice)
    requires PassOk(cfg, st, s, AtTopic(ver, s, streamID, topic)) && StatusOk(st, s.status)
    ensures var (st', o) := Topic(st, ver, s, streamID, topic, c);
            o.Go? && !o.pass.Begin? && PassOk(cfg, st', s, o.pass)
  {
    var (st', ok) := CreateTopic(st, topic, c);
    if ok {
      ReadyIsWrite(cfg, st', s, streamID, topic);
    } else {
      ReportIsWrite(cfg, st', s, "Error", "KafkaError", c.text);
    }
  }

  /** Each call of a pass over `a` keeps what holds at the point it reaches. */
  lemma StepPass(cfg: Config, st: Stores, k: Key, a: FrkrStream, p: StreamPass, c: Choice)
    requires StatusOk(st, a.status)
    requires p.Begin? ==> Get(st, k, c).Found? ==> Get(st, k, c).value == StreamR(a)
    requires !p.Begin? ==> PassOk(cfg, st, a, p)
    ensures var (st', o) := Step(cfg, st, k, p, c);
            o.Go? ==> PassOk(cfg, st', a, o.pass)
  {
    match p {
      case Begin => ReadPass(cfg, st, k, a, c);
      case AtTenant(ver, s) => TenantPass(cfg, st, ver, s, c);
      case AtRow(ver, s, tenantID) => RowPass(cfg, st, ver, s, tenantID, c);
      case AtTopic(ver, s, streamID, topic) => TopicPass(cfg, st, ver, s, streamID, topic, c);
      case AtReady(_, _) =>
      case AtReport(_, _, _) =>
    }
  }
}
