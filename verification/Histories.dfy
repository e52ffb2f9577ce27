/** What the history of a custom resource says in every reachable world: where a ready
    status came from, which rows and topics stand behind it, and what never changes. */
module Histories {
  import opened Base
  import opened Conditions
  import opened Resources
  import opened Stores
  import opened Machine
  import opened Invariant
  import S = StreamController
  import T = TenantController
  import I = InitController
  import D = DataPlaneController

  function At(st: Stores, k: Key, i: nat): Option<Resource>
    requires i < |LogOf(st.log, k)|
  {
    LogOf(st.log, k)[i]
  }

  /** Versions `i` to `j` all exist: the resource was not removed in between. */
  ghost predicate Lives(st: Stores, k: Key, i: nat, j: nat) {
    i <= j < |LogOf(st.log, k)| && forall m :: i <= m <= j ==> LogOf(st.log, k)[m].Some?
  }

  lemma LinkAt(cfg: Config, st: Stores, k: Key, i: nat)
    requires LogsOk(cfg, st) && 0 < i < |LogOf(st.log, k)|
    ensures LinkOk(cfg, st, k, At(st, k, i - 1), At(st, k, i))
  {
    hide LinkOk;
    assert LogOk(cfg, st, k);
  }

  lemma FirstIsNone(cfg: Config, st: Stores, k: Key)
    requires LogsOk(cfg, st)
    ensures At(st, k, 0) == None
  {
    hide LinkOk;
    assert LogOk(cfg, st, k);
  }

  /** In every reachable world each version of a resource is a user's edit of the one before, or
      what a pass may write over it, field by field. */
  lemma VersionIsEditOrWrite(w: World, ls: seq<Label>, k: Key, i: nat)
    requires Initial(w) && 0 < i && Lives(Exec(w, ls).st, k, i - 1, i)
    ensures var st := Exec(w, ls).st;
      var a, b := At(st, k, i - 1).value, At(st, k, i).value;
      && a.KindOf() == b.KindOf() == k.kind
      && (Edited(a, b) || Wrote(w.cfg, st, k, a, b))
  {
    hide LogsOk, Initial, Next, PassOk, Wrote;
    Reachable(w, ls);
    ExecConfig(w, ls);
    LinkAt(w.cfg, Exec(w, ls).st, k, i);
  }

  // ---- Streams --------------------------------------------------------------------

  ghost predicate IsStream(st: Stores, k: Key, i: nat, status: StreamStatus) {
    && i < |LogOf(st.log, k)| && At(st, k, i).Some? && At(st, k, i).value.StreamR?
    && At(st, k, i).value.stream.status == status
  }

  /** Version `i` was written by a pass over version `i - 1`: same spec, and the status
      names the tenant, row and topic of exactly that spec. */
  ghost predicate StreamWritten(cfg: Config, st: Stores, k: Key, i: nat, status: StreamStatus) {
    && 0 < i && IsStream(st, k, i, status)
    && At(st, k, i - 1).Some? && At(st, k, i - 1).value.StreamR?
    && At(st, k, i - 1).value.stream.spec == At(st, k, i).value.stream.spec
    && S.Provisioned(cfg, st, At(st, k, i).value.stream.spec, status)
  }

  /** A ready status goes back to one write of a pass, and has not been touched since. */
  lemma {:induction false} ReadyOrigin(cfg: Config, st: Stores, k: Key, j: nat, status: StreamStatus) returns (i: nat)
    requires LogsOk(cfg, st) && IsStream(st, k, j, status) && status.phase == "Ready"
    ensures i <= j && StreamWritten(cfg, st, k, i, status)
    ensures forall m :: i <= m <= j ==> IsStream(st, k, m, status)
    decreases j
  {
    hide LogsOk, S.Provisioned;
    FirstIsNone(cfg, st, k);
    LinkAt(cfg, st, k, j);
    var b := At(st, k, j).value;
    if At(st, k, j - 1).Some? && Wrote(cfg, st, k, At(st, k, j - 1).value, b) {
      i := j;
    } else {
      i := ReadyOrigin(cfg, st, k, j - 1, status);
    }
  }

  /** In every reachable world a ready stream has its tenant row, its stream row and, with a
      broker, its topic, for the spec some pass read; and for the present spec too, if the
      spec has not been edited since that write. */
  lemma StreamSafety(w: World, ls: seq<Label>, k: Key) returns (i: nat)
    requires Initial(w)
    requires Latest(Exec(w, ls).st.log, k).Some? && Latest(Exec(w, ls).st.log, k).value.StreamR?
    requires Latest(Exec(w, ls).st.log, k).value.stream.status.phase == "Ready"
    ensures var st := Exec(w, ls).st;
            var s := Latest(st.log, k).value.stream;
            && i <= Version(st.log, k)
            && StreamWritten(w.cfg, st, k, i, s.status)
            && (forall m :: i <= m <= Version(st.log, k) ==> IsStream(st, k, m, s.status))
            && (At(st, k, i).value.stream.spec == s.spec ==> S.Provisioned(w.cfg, st, s.spec, s.status))
  {
    hide LogsOk, Initial, Next, PassOk, S.Provisioned;
    Reachable(w, ls);
    ExecConfig(w, ls);
    var st := Exec(w, ls).st;
    i := ReadyOrigin(w.cfg, st, k, Version(st.log, k), Latest(st.log, k).value.stream.status);
  }

  lemma {:induction false} ExecConfig(w: World, ls: seq<Label>)
    ensures Exec(w, ls).cfg == w.cfg
    decreases |ls|
  {
    hide Next;
    if ls != [] {
      ExecConfig(Next(w, ls[0]), ls[1..]);
    }
  }

  /** A call that commits a stream status keeps the spec it replaces, edits racing or not,
      and a ready one is computed from exactly that spec. */
  lemma CommitMatchesSpec(w: World, k: Key, c: Choice)
    requires Inv(w) && k.kind == StreamKind && k in w.passes
    requires Next(w, Call(k, c)).st.log != w.st.log
    ensures var st := Next(w, Call(k, c)).st;
            && Latest(w.st.log, k).Some? && Latest(w.st.log, k).value.StreamR?
            && Latest(st.log, k).Some? && Latest(st.log, k).value.StreamR?
            && var a, b := Latest(w.st.log, k).value.stream, Latest(st.log, k).value.stream;
               && b.spec == a.spec
               && (b.status.phase == "Ready" ==> S.Provisioned(w.cfg, st, b.spec, b.status))
  {
    hide LogsOk, TenantsInjective, Grows, LogsGrow, S.PassOk, S.Provisioned, S.StatusOk, S.Step, S.Within;
    var p := w.passes[k];
    assert PassOk(w.cfg, w.st, k, p);
    assert p.OfStream? && Next(w, Call(k, c)).st == S.Step(w.cfg, w.st, k, p.s, c).0;
    S.StepWrites(w.cfg, w.st, k, p.s, c);
    StreamPassWrite(w.cfg, w.st, S.Step(w.cfg, w.st, k, p.s, c).0, ReadOf(w.st, k, p.s.ver).value.stream, p.s);
  }

  lemma StreamPassWrite(cfg: Config, st: Stores, st': Stores, a: FrkrStream, p: S.StreamPass)
    requires (p.AtReady? || p.AtReport?) && S.PassOk(cfg, st, a, p) && Grows(st, st')
    ensures p.s.spec == a.spec && (p.s.status.phase == "Ready" ==> S.Provisioned(cfg, st', p.s.spec, p.s.status))
  {
    S.WriteStable(cfg, st, st', a, p.s);
  }

  /** A stored stream phase is Ready exactly when its StreamCreated condition is true. */
  lemma PhaseMatchesCondition(w: World, ls: seq<Label>, k: Key, i: nat, status: StreamStatus)
    requires Initial(w) && IsStream(Exec(w, ls).st, k, i, status)
    ensures status.phase == "Ready" <==> IsTrue(status.conditions, "StreamCreated")
  {
    hide LogsOk, Initial, Next, PassOk;
    Reachable(w, ls);
    KindAt(Exec(w, ls).cfg, Exec(w, ls).st, k, i);
  }

  // ---- Tenants --------------------------------------------------------------------

  ghost predicate IsTenant(st: Stores, k: Key, i: nat, status: TenantStatus) {
    && i < |LogOf(st.log, k)| && At(st, k, i).Some? && At(st, k, i).value.TenantR?
    && At(st, k, i).value.tenant.status == status
  }

  ghost predicate TenantWritten(st: Stores, k: Key, i: nat, status: TenantStatus) {
    0 < i && IsTenant(st, k, i, status) && T.Identified(st, k, At(st, k, i).value.tenant)
  }

  lemma {:induction false} TenantOrigin(cfg: Config, st: Stores, k: Key, j: nat, status: TenantStatus) returns (i: nat)
    requires LogsOk(cfg, st) && IsTenant(st, k, j, status) && status.phase == "Ready"
    ensures i <= j && TenantWritten(st, k, i, status)
    decreases j
  {
    hide LogsOk;
    FirstIsNone(cfg, st, k);
    LinkAt(cfg, st, k, j);
    var b := At(st, k, j).value;
    if At(st, k, j - 1).Some? && Wrote(cfg, st, k, At(st, k, j - 1).value, b) {
      i := j;
    } else {
      i := TenantOrigin(cfg, st, k, j - 1, status);
    }
  }

  /** The name that a tenant resource asks for: its spec's, or else its own. */
  predicate IsNameOf(tk: Key, spec: TenantSpec, name: string) {
    if spec.name == "" then name == tk.name else name == spec.name
  }

  /** One tenant, one ID: the tenant ID in a ready tenant's status is the tenant of a ready
      stream's row exactly when both were written for the same tenant name. */
  lemma TenantIdentity(w: World, ls: seq<Label>, tk: Key, ti: nat, tenant: TenantStatus, sk: Key, si: nat,
      stream: StreamStatus)
      returns (m: nat, n: nat)
    requires Initial(w)
    requires IsTenant(Exec(w, ls).st, tk, ti, tenant) && tenant.phase == "Ready"
    requires IsStream(Exec(w, ls).st, sk, si, stream) && stream.phase == "Ready"
    ensures var st := Exec(w, ls).st;
      && m <= ti && TenantWritten(st, tk, m, tenant)
      && n <= si && StreamWritten(w.cfg, st, sk, n, stream)
      && (st.streamRows[stream.streamID].tenantID == tenant.id
          <==> IsNameOf(tk, At(st, tk, m).value.tenant.spec, At(st, sk, n).value.stream.spec.tenantID))
  {
    hide LogsOk, Initial, Next, PassOk;
    Reachable(w, ls);
    ExecConfig(w, ls);
    var st := Exec(w, ls).st;
    m := TenantOrigin(w.cfg, st, tk, ti, tenant);
    n := ReadyOrigin(w.cfg, st, sk, si, stream);
  }

  // ---- Users ----------------------------------------------------------------------

  /** A password once shown in a user's status stays, whatever passes and edits follow,
      until the user is removed. */
  lemma {:induction false} ShownPasswordStays(cfg: Config, st: Stores, k: Key, i: nat, j: nat)
    requires LogsOk(cfg, st) && k.kind == UserKind && Lives(st, k, i, j)
    ensures At(st, k, i).value.UserR? && At(st, k, j).value.UserR?
    ensures At(st, k, i).value.user.status.password != ""
            ==> At(st, k, j).value.user.status.password == At(st, k, i).value.user.status.password
    decreases j
  {
    hide LogsOk;
    KindAt(cfg, st, k, i);
    KindAt(cfg, st, k, j);
    if i < j {
      ShownPasswordStays(cfg, st, k, i, j - 1);
      LinkAt(cfg, st, k, j);
    }
  }

  // ---- Conditions -----------------------------------------------------------------

  function ConditionsOf(r: Resource): seq<Condition> {
    match r
    case StreamR(x) => x.status.conditions
    case TenantR(x) => x.status.conditions
    case UserR(x) => x.status.conditions
    case ClientR(x) => x.status.conditions
    case AuthR(x) => x.status.conditions
    case InitR(x) => x.status.conditions
    case DataPlaneR(x) => x.status.conditions
  }

  /** In every reachable world, every version of a stream, an init or a data plane has each
      condition type once, and no transition time in the future. */
  lemma ConditionsAreUnique(w: World, ls: seq<Label>, k: Key, i: nat)
    requires Initial(w) && i < |LogOf(Exec(w, ls).st.log, k)| && At(Exec(w, ls).st, k, i).Some?
    requires k.kind == StreamKind || k.kind == InitKind || k.kind == DataPlaneKind
    ensures Unique(ConditionsOf(At(Exec(w, ls).st, k, i).value))
    ensures Before(ConditionsOf(At(Exec(w, ls).st, k, i).value), Exec(w, ls).st.clock)
  {
    hide LogsOk, Initial, Next, PassOk, Unique, Before, IsTrue, S.ShowsSuccess;
    Reachable(w, ls);
    KindAt(Exec(w, ls).cfg, Exec(w, ls).st, k, i);
  }

  lemma FollowsItself(cs: seq<Condition>)
    ensures Follows(cs, cs)
  {
  }

  /** From one version to the next no condition type is lost, and a transition time moves
      forward only, and only when the status flips. */
  lemma ConditionsFollow(cfg: Config, st: Stores, k: Key, i: nat)
    requires LogsOk(cfg, st) && 0 < i && Lives(st, k, i - 1, i)
    requires k.kind == StreamKind || k.kind == InitKind || k.kind == DataPlaneKind
    ensures Follows(ConditionsOf(At(st, k, i - 1).value), ConditionsOf(At(st, k, i).value))
  {
    hide LogsOk, S.Provisioned, I.Verified, Follows;
    LinkAt(cfg, st, k, i);
    FollowsItself(ConditionsOf(At(st, k, i).value));
  }

  /** Over a whole life, a condition's transition time never goes back. */
  lemma {:induction false} TransitionsAdvance(cfg: Config, st: Stores, k: Key, i: nat, j: nat, typ: string)
    requires LogsOk(cfg, st) && Lives(st, k, i, j)
    requires k.kind == StreamKind || k.kind == InitKind || k.kind == DataPlaneKind
    requires Has(ConditionsOf(At(st, k, i).value), typ)
    ensures Has(ConditionsOf(At(st, k, j).value), typ)
    ensures Transition(ConditionsOf(At(st, k, i).value), typ) <= Transition(ConditionsOf(At(st, k, j).value), typ)
    decreases j
  {
    hide LogsOk, Has, Transition, ConditionsOf;
    if i < j {
      TransitionsAdvance(cfg, st, k, i, j - 1, typ);
      ConditionsFollow(cfg, st, k, j);
    }
  }

  // ---- Data planes ------------------------------------------------------------------

  ghost predicate IsPlaneStatus(st: Stores, k: Key, i: nat, status: DataPlaneStatus) {
    && i < |LogOf(st.log, k)| && At(st, k, i).Some? && At(st, k, i).value.DataPlaneR?
    && At(st, k, i).value.plane.status == status
  }

  /** A reconciled data plane is Ready exactly when both probes held and exactly when it has
      no warning. */
  lemma {:induction false} PlaneConsistent(cfg: Config, st: Stores, k: Key, j: nat, status: DataPlaneStatus)
    requires LogsOk(cfg, st) && IsPlaneStatus(st, k, j, status) && status.phase == "Active"
    ensures D.Consistent(status) && Unique(status.conditions)
    decreases j
  {
    hide LogsOk;
    FirstIsNone(cfg, st, k);
    LinkAt(cfg, st, k, j);
    var b := At(st, k, j).value;
    if At(st, k, j - 1).Some? && Wrote(cfg, st, k, At(st, k, j - 1).value, b) {
    } else {
      PlaneConsistent(cfg, st, k, j - 1, status);
    }
  }

  // ---- Init -------------------------------------------------------------------------

  ghost predicate Disagree(status: InitStatus) {
    (status.phase == "Initialized") != IsTrue(status.conditions, "Ready")
  }

  ghost predicate IsInitStatus(st: Stores, k: Key, i: nat, status: InitStatus) {
    && i < |LogOf(st.log, k)| && At(st, k, i).Some? && At(st, k, i).value.InitR?
    && At(st, k, i).value.init.status == status
  }

  /** What each way of writing a version does to the agreement of phase and Ready: an edit
      keeps the status; a failed migration leaves them apart exactly if the resource was ready,
      waiting for gateways exactly if it was initialized; success makes them agree. */
  ghost predicate Steps(a: InitStatus, b: InitStatus) {
    || b == a
    || (b.phase == "Failed" && (Disagree(b) <==> IsTrue(a.conditions, "Ready")))
    || (b.phase == a.phase && !IsTrue(b.conditions, "Ready") && (Disagree(b) <==> a.phase == "Initialized"))
    || (b.phase == "Initialized" && !Disagree(b))
  }

  /** In every reachable world, from one version of an init resource to the next: agreement of
      phase and Ready is lost exactly when the resource was initialized and the migrations
      fail or the pass waits for gateways. A new resource agrees. */
  lemma InitDisagreement(w: World, ls: seq<Label>, k: Key, i: nat, status: InitStatus)
    requires Initial(w) && 0 < i && IsInitStatus(Exec(w, ls).st, k, i, status)
    ensures var a := At(Exec(w, ls).st, k, i - 1);
      if a.None? then !Disagree(status)
      else (
        && a.value.InitR?
        && Steps(a.value.init.status, status)
        && (!Disagree(a.value.init.status) ==>
              (Disagree(status) <==> a.value.init.status.phase == "Initialized"
                                     && (status.phase == "Failed" || !IsTrue(status.conditions, "Ready")))))
  {
    hide LogsOk, Initial, Next, PassOk, I.Verified, I.StatusOk, Follows;
    Reachable(w, ls);
    LinkAt(Exec(w, ls).cfg, Exec(w, ls).st, k, i);
  }
}
