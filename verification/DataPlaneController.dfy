/** internal/controller/dataplane_controller.go: rebuild warnings and readiness from the two
    connection probes. */
module DataPlaneController {
  import opened Base
  import opened Conditions
  import opened Resources
  import opened Stores

  datatype DataPlanePass = Begin | AtWrite(ver: nat, d: FrkrDataPlane)

  datatype Outcome = Go(pass: DataPlanePass) | Done | Failed

  type Reply = (Stores, Outcome)

  function Warnings(postgres: bool, broker: bool): seq<string> {
    (if postgres then [] else ["Postgres connectivity test failed"])
    + (if broker then [] else ["Kafka-compatible broker connectivity test failed"])
  }

  function ReadyCondition(ready: bool, now: nat): Condition {
    if ready
    then Condition("Ready", true, "ComponentsHealthy", "All data plane components are connected and healthy", now)
    else Condition("Ready", false, "ComponentsUnhealthy", "One or more components are not reachable", now)
  }

  function Probed(d: FrkrDataPlane, postgres: bool, broker: bool, now: nat): FrkrDataPlane {
    d.(status := DataPlaneStatus("Active", postgres, broker, Warnings(postgres, broker),
                                 Set(d.status.conditions, ReadyCondition(postgres && broker, now))))
  }

  function Read(st: Stores, k: Key, c: Choice): (r: Reply)
    ensures r.0 == st && (r.1.Go? ==> !r.1.pass.Begin?)
  {
    match Get(st, k, c)
    case Found(ver, DataPlaneR(d)) => (st, Go(AtWrite(ver, Probed(d, c.flag, c.flag2, st.clock))))
    case ReadError => (st, Failed)
    case _ => (st, Done)
  }

  function Step(st: Stores, k: Key, p: DataPlanePass, c: Choice): (r: Reply)
    ensures Grows(st, r.0) && r.0 == st.(log := r.0.log)
    ensures r.1.Go? ==> p.Begin? && !r.1.pass.Begin?
    ensures r.1.Go? ==> Get(st, k, c).Found? && r.1.pass.ver == Get(st, k, c).version
  {
    match p
    case Begin => Read(st, k, c)
    case AtWrite(ver, d) =>
      var (st', ok) := UpdateStatus(st, k, ver, DataPlaneR(d), c);
      (st', if ok then Done else Failed)
  }

  /** A pass from point `p` to its end with nothing else in between; its calls are decided
      by `ch(n)`, `ch(n + 1)`, and so on. */
  function Run(st: Stores, k: Key, p: DataPlanePass, ch: nat -> Choice, n: nat): (r: Reply)
    ensures !r.1.Go?
    decreases if p.Begin? then 1 else 0
  {
    var r := Step(st, k, p, ch(n));
    if r.1.Go? then Run(r.0, k, r.1.pass, ch, n + 1) else r
  }

  // ---- What a pass and its writes guarantee --------------------------------------

  ghost predicate ConditionsOk(st: Stores, status: DataPlaneStatus) {
    Unique(status.conditions) && Before(status.conditions, st.clock)
  }

  /** Each probe that does not hold has its warning, and the condition says whether both hold:
      Ready is true exactly when both probes hold, exactly when there is no warning. */
  ghost predicate Consistent(status: DataPlaneStatus) {
    && status.warnings == (if status.postgresConnected then [] else ["Postgres connectivity test failed"])
                          + (if status.brokerConnected then []
                             else ["Kafka-compatible broker connectivity test failed"])
    && (if IsTrue(status.conditions, "Ready")
        then Shows(status.conditions, "Ready", true, "ComponentsHealthy",
               "All data plane components are connected and healthy")
        else Shows(status.conditions, "Ready", false, "ComponentsUnhealthy",
               "One or more components are not reachable"))
    && (IsTrue(status.conditions, "Ready") <==> status.postgresConnected && status.brokerConnected)
    && (IsTrue(status.conditions, "Ready") <==> status.warnings == [])
    && |status.warnings| == (if status.postgresConnected then 0 else 1) + (if status.brokerConnected then 0 else 1)
  }

  ghost predicate Writes(st: Stores, a: FrkrDataPlane, b: FrkrDataPlane) {
    && b.spec == a.spec && b.status.phase == "Active"
    && ConditionsOk(st, b.status) && Consistent(b.status)
    && Follows(a.status.conditions, b.status.conditions)
  }

  lemma ProbedIsWrite(st: Stores, a: FrkrDataPlane, postgres: bool, broker: bool)
    requires ConditionsOk(st, a.status)
    ensures Writes(st, a, Probed(a, postgres, broker, st.clock))
  {
    SetIsSound(a.status.conditions, ReadyCondition(postgres && broker, st.clock));
    SetShows(a.status.conditions, ReadyCondition(postgres && broker, st.clock));
  }

  ghost predicate PassOk(st: Stores, a: FrkrDataPlane, p: DataPlanePass)
    requires !p.Begin?
  {
    Writes(st, a, p.d)
  }

  lemma WritesStable(st: Stores, st': Stores, a: FrkrDataPlane, b: FrkrDataPlane)
    requires Writes(st, a, b) && Grows(st, st')
    ensures Writes(st', a, b)
  {
  }

  lemma PassStable(st: Stores, st': Stores, a: FrkrDataPlane, p: DataPlanePass)
    requires !p.Begin? && PassOk(st, a, p) && Grows(st, st')
    ensures PassOk(st', a, p)
  {
  }

  lemma StepWrites(st: Stores, k: Key, p: DataPlanePass, c: Choice)
    ensures var st' := Step(st, k, p, c).0;
      || st'.log == st.log
      || (p.AtWrite? && p.ver == Version(st.log, k) && Latest(st.log, k).Some?
          && st'.log == Commit(st.log, k, Some(DataPlaneR(p.d))))
  {
    match p {
      case Begin =>
      case AtWrite(_, _) =>
    }
  }

  lemma StepPass(st: Stores, k: Key, a: FrkrDataPlane, p: DataPlanePass, c: Choice)
    requires ConditionsOk(st, a.status)
    requires p.Begin? ==> Get(st, k, c).Found? ==> Get(st, k, c).value == DataPlaneR(a)
    requires !p.Begin? ==> PassOk(st, a, p)
    ensures var (st', o) := Step(st, k, p, c); o.Go? ==> PassOk(st', a, o.pass)
  {
    match p {
      case Begin => ProbedIsWrite(st, a, c.flag, c.flag2);
      case AtWrite(_, _) =>
    }
  }

  /** A pass that goes on shows what the two probes answered. */
  lemma ProbesShow(st: Stores, k: Key, c: Choice)
    requires Step(st, k, Begin, c).1.Go?
    ensures var q := Step(st, k, Begin, c).1.pass;
      && Get(st, k, c).Found? && Get(st, k, c).value.DataPlaneR? && q.AtWrite? && q.ver == Get(st, k, c).version
      && q.d.spec == Get(st, k, c).value.plane.spec && q.d.status.phase == "Active"
      && q.d.status.postgresConnected == c.flag && q.d.status.brokerConnected == c.flag2
  {
    hide Set;
  }

  /** Any call that fails, or whose reply is lost, ends the pass with an error. */
  lemma FaultDecides(st: Stores, k: Key, p: DataPlanePass, c: Choice)
    requires c.fault != Fine
    ensures Step(st, k, p, c).1 == Failed
  {
    hide Grows, LogsGrow, Commit, Set;
  }
}
