/** No work is ever lost: a resource that is not at the goal of its present spec is queued,
    being processed, scheduled for another try, or has a change on its way to the cache. */
module NoLostWork {
  import opened Base
  import opened Conditions
  import opened Resources
  import opened Stores
  import opened Machine
  import opened Invariant
  import S = StreamController
  import T = TenantController
  import U = UserController
  import C = ClientController
  import A = AuthController
  import I = InitController
  import D = DataPlaneController

  /** The stored status is what a finished pass over this very spec leaves. */
  ghost predicate AtGoal(cfg: Config, st: Stores, k: Key, r: Resource) {
    match r
    case StreamR(x) => x.status.phase == "Ready" && S.Provisioned(cfg, st, x.spec, x.status)
    case TenantR(x) => T.Identified(st, k, x)
    case UserR(x) => x.status.password != "" && U.HasRow(cfg, st, x.spec)
                     && exists pw :: IsPassword(x.spec, pw) && U.SecretGave(st, k, x, pw)
    case ClientR(x) => cfg.database ==> C.Registered(st, x)
    case AuthR(x) => x.status.phase == "Active" && x.status.previousType == x.spec.typ
    case InitR(x) => x.status.phase == "Initialized" && IsTrue(x.status.conditions, "Ready")
                     && exists url :: I.Verified(st, k, x.spec, url)
    case DataPlaneR(x) => x.status.phase == "Active" && D.Consistent(x.status)
  }

  /** A password for the spec: its own, if it gives one. */
  predicate IsPassword(spec: UserSpec, password: string) {
    password != "" && (spec.password != "" ==> password == spec.password)
  }

  ghost predicate Settled(cfg: Config, st: Stores, k: Key) {
    Latest(st.log, k).Some? ==> AtGoal(cfg, st, k, Latest(st.log, k).value)
  }

  predicate Undelivered(st: Stores, k: Key) {
    Seen(st, k) < Version(st.log, k)
  }

  predicate Tracked(w: World, k: Key) {
    Undelivered(w.st, k) || k in w.queue || k in w.delayed || k in w.passes
  }

  function VersionOf(p: Pass): Option<nat> {
    match p
    case OfStream(p) => if p.Begin? then None else Some(p.ver)
    case OfTenant(p) => if p.Begin? then None else Some(p.ver)
    case OfUser(p) => if p.Begin? then None else Some(p.ver)
    case OfClient(p) => if p.Begin? then None else Some(p.ver)
    case OfAuth(p) => if p.Begin? then None else Some(p.ver)
    case OfInit(p) => if p.Begin? then None else Some(p.ver)
    case OfDataPlane(p) => if p.Begin? then None else Some(p.ver)
  }

  /** What a pass read is current, or news of a later version is on its way or queued. */
  ghost predicate Current(w: World, k: Key) {
    k in w.passes ==>
      match VersionOf(w.passes[k])
      case None => true
      case Some(v) => v == Version(w.st.log, k) || Undelivered(w.st, k) || k in w.queue
  }

  ghost predicate SeenOk(st: Stores) {
    forall k :: k in st.seen ==> st.seen[k] <= Version(st.log, k)
  }

  ghost predicate KeyOk(w: World, k: Key) {
    (Settled(w.cfg, w.st, k) || Tracked(w, k)) && Current(w, k)
  }

  ghost predicate KeepsWork(w: World) {
    SeenOk(w.st) && forall k :: KeyOk(w, k)
  }

  // ---- A pass that is done is at the goal -------------------------------------------

  /** A pass ended without another try: the resource is gone, at its goal, or what the pass
      had read was not its latest version. */
  ghost predicate DoneOk(cfg: Config, st: Stores, st': Stores, k: Key, read: nat) {
    Settled(cfg, st', k) || read != Version(st.log, k)
  }

  lemma NotFoundIsGone(cfg: Config, st: Stores, k: Key, c: Choice)
    requires LogsOk(cfg, st) && Get(st, k, c).NotFound?
    ensures DoneOk(cfg, st, st, k, Seen(st, k))
  {
  }

  lemma StreamDone(cfg: Config, st: Stores, k: Key, p: S.StreamPass, c: Choice)
    requires LogsOk(cfg, st) && k.kind == StreamKind && StreamPassOk(cfg, st, k, p) && S.Step(cfg, st, k, p, c).1.Done?
    ensures DoneOk(cfg, st, S.Step(cfg, st, k, p, c).0, k, if p.Begin? then Seen(st, k) else p.ver)
  {
    hide LogsOk, Grows, S.Provisioned, S.StatusOk;
    match p {
      case Begin => if Get(st, k, c).Found? { GetIsVersion(cfg, st, k, c); } else { NotFoundIsGone(cfg, st, k, c); }
      case AtReady(_, s) =>
        S.WriteStable(cfg, st, S.Step(cfg, st, k, p, c).0, ReadOf(st, k, p.ver).value.stream, s);
      case _ =>
    }
  }

  lemma TenantDone(cfg: Config, st: Stores, k: Key, p: T.TenantPass, c: Choice)
    requires LogsOk(cfg, st) && k.kind == TenantKind && TenantPassOk(st, k, p) && T.Step(cfg, st, k, p, c).1.Done?
    ensures DoneOk(cfg, st, T.Step(cfg, st, k, p, c).0, k, if p.Begin? then Seen(st, k) else p.ver)
  {
    hide LogsOk, Grows;
    match p {
      case Begin => if Get(st, k, c).Found? { GetIsVersion(cfg, st, k, c); } else { NotFoundIsGone(cfg, st, k, c); }
      case AtEnsure(_, t) => T.StepPass(cfg, st, k, t, p, c);
      case AtWrite(_, t) =>
        T.WritesStable(st, T.Step(cfg, st, k, p, c).0, k, ReadOf(st, k, p.ver).value.tenant, t);
    }
  }

  lemma UserDone(cfg: Config, st: Stores, k: Key, p: U.UserPass, c: Choice)
    requires LogsOk(cfg, st) && k.kind == UserKind && UserPassOk(cfg, st, k, p) && U.Step(cfg, st, k, p, c).1.Done?
    ensures DoneOk(cfg, st, U.Step(cfg, st, k, p, c).0, k, if p.Begin? then Seen(st, k) else p.ver)
  {
    hide LogsOk, Grows, U.SecretGave;
    match p {
      case Begin => if Get(st, k, c).Found? { GetIsVersion(cfg, st, k, c); } else { NotFoundIsGone(cfg, st, k, c); }
      case AtWrite(_, u, password) =>
        U.GaveStable(st, U.Step(cfg, st, k, p, c).0, k, u, password);
        assert IsPassword(u.spec, password);
      case _ =>
    }
  }

  lemma ClientDone(cfg: Config, st: Stores, k: Key, p: C.ClientPass, c: Choice)
    requires LogsOk(cfg, st) && k.kind == ClientKind && ClientPassOk(cfg, st, k, p) && C.Step(cfg, st, k, p, c).1.Done?
    ensures DoneOk(cfg, st, C.Step(cfg, st, k, p, c).0, k, if p.Begin? then Seen(st, k) else p.ver)
  {
    hide LogsOk, Grows;
    match p {
      case Begin => if Get(st, k, c).Found? { GetIsVersion(cfg, st, k, c); } else { NotFoundIsGone(cfg, st, k, c); }
      case AtWrite(_, x) =>
        C.WritesStable(cfg, st, C.Step(cfg, st, k, p, c).0, ReadOf(st, k, p.ver).value.client, x);
      case _ =>
    }
  }

  lemma AuthDone(cfg: Config, st: Stores, k: Key, p: A.AuthPass, c: Choice)
    requires LogsOk(cfg, st) && k.kind == AuthKind && AuthPassOk(st, k, p) && A.Step(st, k, p, c).1.Done?
    ensures DoneOk(cfg, st, A.Step(st, k, p, c).0, k, if p.Begin? then Seen(st, k) else p.ver)
  {
    hide LogsOk, Grows, A.PassOk;
    match p {
      case Begin => if Get(st, k, c).Found? { GetIsVersion(cfg, st, k, c); } else { NotFoundIsGone(cfg, st, k, c); }
      case AtWrite(_, _, _) =>
      case _ =>
    }
  }

  lemma InitDone(cfg: Config, st: Stores, k: Key, p: I.InitPass, c: Choice)
    requires LogsOk(cfg, st) && k.kind == InitKind && InitPassOk(st, k, p) && I.Step(st, k, p, c).1.Done?
    ensures DoneOk(cfg, st, I.Step(st, k, p, c).0, k, if p.Begin? then Seen(st, k) else p.ver)
  {
    hide LogsOk, Grows, LogsGrow, I.Verified, I.StatusOk, I.Within, I.ShowsSuccess, I.ShowsWaiting, I.ShowsFailure,
        Follows;
    match p {
      case Begin => if Get(st, k, c).Found? { GetIsVersion(cfg, st, k, c); } else { NotFoundIsGone(cfg, st, k, c); }
      case AtReady(_, i, url) =>
        assert I.PassOk(st, k, ReadOf(st, k, p.ver).value.init, p);
        I.VerifiedStable(st, I.Step(st, k, p, c).0, k, i.spec, url);
      case _ =>
    }
  }

  lemma DataPlaneDone(cfg: Config, st: Stores, k: Key, p: D.DataPlanePass, c: Choice)
    requires LogsOk(cfg, st) && k.kind == DataPlaneKind && DataPlanePassOk(st, k, p) && D.Step(st, k, p, c).1.Done?
    ensures DoneOk(cfg, st, D.Step(st, k, p, c).0, k, if p.Begin? then Seen(st, k) else p.ver)
  {
    hide LogsOk, Grows, D.ConditionsOk, D.Consistent;
    match p {
      case Begin => if Get(st, k, c).Found? { GetIsVersion(cfg, st, k, c); } else { NotFoundIsGone(cfg, st, k, c); }
      case AtWrite(_, _) =>
    }
  }

  // ---- Every label keeps the work -----------------------------------------------------

  lemma GoalStable(cfg: Config, st: Stores, st': Stores, k: Key, r: Resource)
    requires AtGoal(cfg, st, k, r) && Grows(st, st')
    ensures AtGoal(cfg, st', k, r)
  {
    hide I.Verified;
    match r {
      case UserR(x) =>
        var pw :| IsPassword(x.spec, pw) && U.SecretGave(st, k, x, pw);
        U.GaveStable(st, st', k, x, pw);
      case InitR(x) =>
        var url :| I.Verified(st, k, x.spec, url);
        I.VerifiedStable(st, st', k, x.spec, url);
      case _ =>
    }
  }

  /** A change that leaves the queue entries, the pass and the cache of `k` alone: either its
      log is the same, or the new version is still undelivered. */
  lemma KeyKept(w: World, w': World, k: Key)
    requires KeyOk(w, k) && SeenOk(w.st) && Grows(w.st, w'.st) && w'.cfg == w.cfg
    requires k in w.st.seen <==> k in w'.st.seen
    requires k in w.st.seen ==> w.st.seen[k] == w'.st.seen[k]
    requires k in w.queue ==> k in w'.queue
    requires k in w.delayed ==> k in w'.delayed
    requires k in w.passes <==> k in w'.passes
    requires k in w.passes ==> w.passes[k] == w'.passes[k]
    ensures KeyOk(w', k)
  {
    hide AtGoal, Grows;
    Prefix(w.st, w'.st, k);
    assert k in w.st.seen ==> w.st.seen[k] <= Version(w.st.log, k);
    if Version(w.st.log, k) == Version(w'.st.log, k) {
      assert LogOf(w.st.log, k) == LogOf(w'.st.log, k);
      if Settled(w.cfg, w.st, k) && Latest(w.st.log, k).Some? {
        GoalStable(w.cfg, w.st, w'.st, k, Latest(w.st.log, k).value);
      }
    }
  }

  lemma SeenKept(st: Stores, st': Stores)
    requires SeenOk(st) && Grows(st, st') && st'.seen == st.seen
    ensures SeenOk(st')
  {
    hide Grows;
    forall k | k in st'.seen ensures st'.seen[k] <= Version(st'.log, k) {
      Prefix(st, st', k);
    }
  }

  lemma PassStepDone(cfg: Config, st: Stores, k: Key, p: Pass, c: Choice)
    requires LogsOk(cfg, st) && PassOk(cfg, st, k, p) && PassStep(cfg, st, k, p, c).1.Done?
    ensures DoneOk(cfg, st, PassStep(cfg, st, k, p, c).0, k,
            match VersionOf(p) case None => Seen(st, k) case Some(v) => v)
  {
    hide LogsOk, DoneOk, Grows, S.Step, T.Step, U.Step, C.Step, A.Step, I.Step, D.Step;
    hide StreamPassOk, TenantPassOk, UserPassOk, ClientPassOk, AuthPassOk, InitPassOk, DataPlanePassOk;
    match p {
      case OfStream(p) => StreamDone(cfg, st, k, p, c);
      case OfTenant(p) => TenantDone(cfg, st, k, p, c);
      case OfUser(p) => UserDone(cfg, st, k, p, c);
      case OfClient(p) => ClientDone(cfg, st, k, p, c);
      case OfAuth(p) => AuthDone(cfg, st, k, p, c);
      case OfInit(p) => InitDone(cfg, st, k, p, c);
      case OfDataPlane(p) => DataPlaneDone(cfg, st, k, p, c);
    }
  }

  /** Past its first call a pass goes on with the version it read, which was the cache's. */
  lemma PassStepVersion(cfg: Config, st: Stores, k: Key, p: Pass, c: Choice)
    requires PassStep(cfg, st, k, p, c).1.Go?
    ensures VersionOf(PassStep(cfg, st, k, p, c).1.pass)
            == (match VersionOf(p) case None => Some(Seen(st, k)) case Some(v) => Some(v))
  {
    hide Grows, S.Step, T.Step, U.Step, C.Step, A.Step, I.Step, D.Step;
    match p {
      case OfStream(_) =>
      case OfTenant(_) =>
      case OfUser(_) =>
      case OfClient(_) =>
      case OfAuth(_) =>
      case OfInit(_) =>
      case OfDataPlane(_) =>
    }
  }

  lemma PassStepSeen(cfg: Config, st: Stores, k: Key, p: Pass, c: Choice)
    ensures PassStep(cfg, st, k, p, c).0.seen == st.seen
  {
    hide Grows, S.Step, T.Step, U.Step, C.Step, A.Step, I.Step, D.Step;
    match p {
      case OfStream(_) =>
      case OfTenant(_) =>
      case OfUser(_) =>
      case OfClient(_) =>
      case OfAuth(_) =>
      case OfInit(_) =>
      case OfDataPlane(_) =>
    }
  }

  lemma CallKeepsWork(w: World, k: Key, c: Choice)
    requires Inv(w) && KeepsWork(w) && k in w.passes
    ensures KeepsWork(Next(w, Call(k, c)))
  {
    hide LogsOk, PassOk, PassStep, Grows, Settled, TenantsInjective, VersionOf, SeenOk;
    var w' := Next(w, Call(k, c));
    PassStepSeen(w.cfg, w.st, k, w.passes[k], c);
    SeenKept(w.st, w'.st);
    forall j ensures KeyOk(w', j) {
      assert KeyOk(w, j);
      if j != k {
        KeyKept(w, w', j);
      } else {
        CalledKey(w, k, c);
      }
    }
  }

  lemma CalledKey(w: World, k: Key, c: Choice)
    requires Inv(w) && KeepsWork(w) && k in w.passes
    ensures KeyOk(Next(w, Call(k, c)), k)
  {
    hide LogsOk, PassOk, PassStep, Grows, AtGoal, TenantsInjective, VersionOf;
    var w' := Next(w, Call(k, c));
    var (st', e) := PassStep(w.cfg, w.st, k, w.passes[k], c);
    assert KeyOk(w, k) && PassOk(w.cfg, w.st, k, w.passes[k]);
    PassStepSeen(w.cfg, w.st, k, w.passes[k], c);
    Prefix(w.st, st', k);
    assert k in w.st.seen ==> w.st.seen[k] <= Version(w.st.log, k);
    match e {
      case Go(_) => PassStepVersion(w.cfg, w.st, k, w.passes[k], c);
      case Done => PassStepDone(w.cfg, w.st, k, w.passes[k], c);
      case Retry =>
    }
  }

  lemma EnvironmentSeen(st: Stores, l: Label)
    ensures Environment(st, l).seen == st.seen
  {
    hide Grows, LogsGrow, Commit;
  }

  /** Labels of users and the cluster, and calls of no pass. */
  lemma EnvironmentKeepsWork(w: World, l: Label)
    requires KeepsWork(w) && !(l.Call? && l.k in w.passes)
    requires !l.Deliver? && !l.Timer? && !l.Start? && !l.Abort? && !l.Restart?
    ensures KeepsWork(Next(w, l))
  {
    hide PassStep, Grows, VersionOf, Environment, SeenOk, KeyOk;
    var w' := Next(w, l);
    EnvironmentSeen(w.st, l);
    SeenKept(w.st, w'.st);
    forall j ensures KeyOk(w', j) {
      KeyKept(w, w', j);
    }
  }

  /** Labels of the runtime. */
  lemma RuntimeKeepsWork(w: World, l: Label)
    requires KeepsWork(w) && (l.Deliver? || l.Timer? || l.Start? || l.Abort?)
    ensures KeepsWork(Next(w, l))
  {
    hide PassStep, Grows, VersionOf, Environment, SeenOk, KeyOk;
    var w' := Next(w, l);
    if l.Deliver? {
      DeliverSeen(w, l.k);
    } else {
      SeenKept(w.st, w'.st);
    }
    forall j ensures KeyOk(w', j) {
      if j == l.k {
        RuntimeKey(w, l);
      } else {
        KeyKept(w, w', j);
      }
    }
  }

  lemma DeliverSeen(w: World, k: Key)
    requires SeenOk(w.st)
    ensures SeenOk(Next(w, Deliver(k)).st)
  {
    hide PassStep, Grows, Environment;
  }

  /** A runtime label on its own key: the entry moves, it is never dropped. */
  lemma RuntimeKey(w: World, l: Label)
    requires (l.Deliver? || l.Timer? || l.Start? || l.Abort?) && KeyOk(w, l.k) && SeenOk(w.st)
    ensures KeyOk(Next(w, l), l.k)
  {
    hide PassStep, Grows, Environment, AtGoal;
    if l.Start? && l.k in w.queue && l.k !in w.passes {
      BeginHasNoVersion(l.k.kind);
    }
  }

  lemma BeginHasNoVersion(kind: Kind)
    ensures VersionOf(BeginOf(kind)) == None
  {
  }

  lemma RestartKeepsWork(w: World)
    ensures KeepsWork(Next(w, Restart))
  {
    hide PassStep, Grows, Environment, AtGoal, VersionOf;
  }

  lemma NextKeepsWork(w: World, l: Label)
    requires Inv(w) && KeepsWork(w)
    ensures KeepsWork(Next(w, l))
  {
    hide Inv, KeepsWork, Next;
    if l.Call? && l.k in w.passes {
      CallKeepsWork(w, l.k, l.c);
    } else if l.Restart? {
      RestartKeepsWork(w);
    } else if l.Deliver? || l.Timer? || l.Start? || l.Abort? {
      RuntimeKeepsWork(w, l);
    } else {
      EnvironmentKeepsWork(w, l);
    }
  }

  lemma InitialKeepsWork(w: World)
    requires Initial(w)
    ensures KeepsWork(w)
  {
    hide AtGoal, TenantsInjective;
  }

  lemma {:induction false} ExecKeepsWork(w: World, ls: seq<Label>)
    requires Inv(w) && KeepsWork(w)
    ensures KeepsWork(Exec(w, ls))
    decreases |ls|
  {
    hide Inv, KeepsWork, Next;
    if ls != [] {
      NextInv(w, ls[0]);
      NextKeepsWork(w, ls[0]);
      ExecKeepsWork(Next(w, ls[0]), ls[1..]);
    }
  }

  /** In every reachable world, whatever failed, stopped, raced or was edited on the way:
      each resource is at the goal of its present spec, or it is still tracked. */
  lemma WorkIsTracked(w: World, ls: seq<Label>, k: Key)
    requires Initial(w)
    ensures var v := Exec(w, ls); Settled(v.cfg, v.st, k) || Tracked(v, k)
  {
    hide Settled, Tracked, Inv, Next, Initial, Exec, Current, SeenOk;
    InitialKeepsWork(w);
    InitialInv(w);
    ExecKeepsWork(w, ls);
    assert KeyOk(Exec(w, ls), k);
  }

  /** Nothing queued, delayed, in progress or undelivered: every resource is at its goal. */
  lemma QuiescentAtGoal(w: World, ls: seq<Label>)
    requires Initial(w)
    requires var v := Exec(w, ls);
      v.queue == {} && v.delayed == {} && v.passes == map[] && forall k :: !Undelivered(v.st, k)
    ensures var v := Exec(w, ls);
      forall k :: Latest(v.st.log, k).Some? ==> AtGoal(v.cfg, v.st, k, Latest(v.st.log, k).value)
  {
    hide AtGoal, Inv, Next, Initial, Exec, Undelivered;
    var v := Exec(w, ls);
    forall k | Latest(v.st.log, k).Some? ensures AtGoal(v.cfg, v.st, k, Latest(v.st.log, k).value) {
      WorkIsTracked(w, ls, k);
    }
  }
}
