/** A ready init resource: its database is migrated and its gateways were all seen available,
    and if availability is never lost they are all available together from then on. */
module Gateways {
  import opened Base
  import opened Conditions
  import opened Resources
  import opened Stores
  import opened Machine
  import opened Invariant
  import opened Histories
  import S = StreamController
  import T = TenantController
  import U = UserController
  import C = ClientController
  import A = AuthController
  import I = InitController
  import D = DataPlaneController

  /** A deployment that has available replicas keeps some. */
  ghost predicate NeverDrops(st: Stores, l: Label) {
    l.Scale? && I.IsAvailable(st, l.n) ==> l.replicas.Some? && l.replicas.value > 0
  }

  ghost predicate AlwaysUp(w: World, ls: seq<Label>)
    decreases |ls|
  {
    ls != [] ==> NeverDrops(w.st, ls[0]) && AlwaysUp(Next(w, ls[0]), ls[1..])
  }

  /** Whatever was available once is available now. */
  ghost predicate StillUp(st: Stores) {
    forall n :: I.WasAvailable(st, n) ==> I.IsAvailable(st, n)
  }

  lemma CallKeepsDeployments(cfg: Config, st: Stores, k: Key, p: Pass, c: Choice)
    ensures PassStep(cfg, st, k, p, c).0.deployments == st.deployments
  {
    hide Grows, TenantsInjective, S.Step, T.Step, U.Step, C.Step, A.Step, I.Step, D.Step;
    match p {
      case OfStream(_) =>
      case OfTenant(_) =>
      case OfUser(_) =>
      case OfClient(_) =>
      case OfAuth(_) =>
      case OfInit(_) =>
      case OfDataPlane(_) =>
    }
  }

  lemma DeploymentsChange(w: World, l: Label)
    ensures Next(w, l).st.deployments
            == if l.Scale? then Commit(w.st.deployments, l.n, l.replicas) else w.st.deployments
  {
    hide Grows, TenantsInjective, PassStep, Commit;
    if l.Call? && l.k in w.passes {
      CallKeepsDeployments(w.cfg, w.st, l.k, w.passes[l.k], l.c);
    }
  }

  lemma NextUp(w: World, l: Label)
    requires StillUp(w.st) && NeverDrops(w.st, l)
    ensures StillUp(Next(w, l).st)
  {
    hide Next;
    DeploymentsChange(w, l);
    var st' := Next(w, l).st;
    forall n | I.WasAvailable(st', n) ensures I.IsAvailable(st', n) {
      var j :| 0 <= j < |LogOf(st'.deployments, n)| && LogOf(st'.deployments, n)[j].Some?
          && LogOf(st'.deployments, n)[j].value > 0;
      if j < |LogOf(w.st.deployments, n)| {
        assert LogOf(w.st.deployments, n)[j] == LogOf(st'.deployments, n)[j];
        assert I.WasAvailable(w.st, n);
      }
    }
  }

  lemma {:induction false} ExecUp(w: World, ls: seq<Label>)
    requires StillUp(w.st) && AlwaysUp(w, ls)
    ensures StillUp(Exec(w, ls).st)
    decreases |ls|
  {
    hide Next, StillUp, NeverDrops;
    if ls != [] {
      NextUp(w, ls[0]);
      ExecUp(Next(w, ls[0]), ls[1..]);
    }
  }

  ghost predicate IsInit(st: Stores, k: Key, i: nat) {
    i < |LogOf(st.log, k)| && At(st, k, i).Some? && At(st, k, i).value.InitR?
  }

  ghost predicate ReadyAt(st: Stores, k: Key, i: nat) {
    IsInit(st, k, i) && IsTrue(At(st, k, i).value.init.status.conditions, "Ready")
  }

  /** Version `i` was written by a pass over `i - 1` that migrated the database its spec names
      and saw every gateway of its spec available. */
  ghost predicate ReadyWritten(st: Stores, k: Key, i: nat) {
    && 0 < i && ReadyAt(st, k, i) && IsInit(st, k, i - 1)
    && At(st, k, i - 1).value.init.spec == At(st, k, i).value.init.spec
    && At(st, k, i).value.init.status.phase == "Initialized"
    && exists url :: I.Verified(st, k, At(st, k, i).value.init.spec, url)
  }

  /** Ready is true only since a write that verified the spec it had read. */
  lemma {:induction false} ReadyOrigin(cfg: Config, st: Stores, k: Key, j: nat) returns (i: nat)
    requires LogsOk(cfg, st) && ReadyAt(st, k, j)
    ensures i <= j && ReadyWritten(st, k, i)
    ensures forall m :: i <= m <= j ==> ReadyAt(st, k, m)
    decreases j
  {
    hide LogsOk, I.Verified, I.StatusOk;
    FirstIsNone(cfg, st, k);
    LinkAt(cfg, st, k, j);
    if j > 0 && ReadyWritten(st, k, j) {
      i := j;
    } else {
      i := ReadyOrigin(cfg, st, k, j - 1);
    }
  }

  /** If no deployment ever loses its last available replica: whenever an init resource is
      Ready, all gateways of the spec that was verified are available together, now. */
  lemma ReadyGatewaysAreUp(w: World, ls: seq<Label>, k: Key) returns (i: nat)
    requires Initial(w) && StillUp(w.st) && AlwaysUp(w, ls)
    requires ReadyAt(Exec(w, ls).st, k, Version(Exec(w, ls).st.log, k))
    ensures var st := Exec(w, ls).st;
      && i <= Version(st.log, k) && ReadyWritten(st, k, i)
      && (forall m :: i <= m <= Version(st.log, k) ==> ReadyAt(st, k, m))
      && forall g :: g in At(st, k, i).value.init.spec.gateways ==> I.IsAvailable(st, Name(k.namespace, g))
  {
    hide Next, LogsOk, PassOk, ReadyAt, I.IsAvailable, I.WasAvailable, Initial, AlwaysUp, I.UrlFor;
    Reachable(w, ls);
    ExecUp(w, ls);
    var st := Exec(w, ls).st;
    i := ReadyOrigin(Exec(w, ls).cfg, st, k, Version(st.log, k));
    assert IsInit(st, k, i) by { ReadyIsInit(st, k, i); }
    var url :| I.Verified(st, k, At(st, k, i).value.init.spec, url);
  }

  lemma ReadyIsInit(st: Stores, k: Key, i: nat)
    requires ReadyAt(st, k, i)
    ensures IsInit(st, k, i)
  {
  }

  /** In every reachable world: an init resource that has no gateways to wait for and is Ready
      is Ready in its next version too. */
  lemma NoGatewaysNoWait(w: World, ls: seq<Label>, k: Key, i: nat)
    requires Initial(w) && 0 < i
    requires ReadyAt(Exec(w, ls).st, k, i - 1) && At(Exec(w, ls).st, k, i - 1).value.init.spec.gateways == []
    requires IsInit(Exec(w, ls).st, k, i)
    ensures ReadyAt(Exec(w, ls).st, k, i)
  {
    hide LogsOk, Initial, Next, PassOk, I.Verified, I.StatusOk, Follows;
    Reachable(w, ls);
    LinkAt(Exec(w, ls).cfg, Exec(w, ls).st, k, i);
  }
}
