/** The whole operator as a step machine: the stores, the work queue that every controller
    shares by key, and the passes in flight. Any label may be taken in any world; one that
    does not apply changes nothing. */
module Machine {
  import opened Base
  import opened Resources
  import opened Stores
  import S = StreamController
  import T = TenantController
  import U = UserController
  import C = ClientController
  import A = AuthController
  import I = InitController
  import D = DataPlaneController

  datatype Pass =
    | OfStream(s: S.StreamPass)
    | OfTenant(t: T.TenantPass)
    | OfUser(u: U.UserPass)
    | OfClient(c: C.ClientPass)
    | OfAuth(a: A.AuthPass)
    | OfInit(i: I.InitPass)
    | OfDataPlane(d: D.DataPlanePass)

  /** How a call leaves its pass: going on, finished, or ended with another try scheduled. */
  datatype Ending = Go(pass: Pass) | Done | Retry

  datatype World = World(
    cfg: Config,
    st: Stores,
    queue: set<Key>,        // waiting to be processed
    delayed: set<Key>,      // to be queued again later
    passes: map<Key, Pass>) // being processed, one pass a key

  datatype Label =
    // what users and the cluster do
    | Create(k: Key, r: Resource)
    | Edit(k: Key, r: Resource)
    | Remove(k: Key)
    | WriteSecret(n: Name, d: Option<Data>)
    | Scale(n: Name, replicas: Option<nat>)
    | Tick
    // what the controller runtime does
    | Deliver(k: Key)       // the cache learns the next version and queues the key
    | Timer(k: Key)
    | Start(k: Key)
    | Call(k: Key, c: Choice)
    | Abort(k: Key)         // a pass stops where it is and is retried
    | Restart               // the process stops and starts again

  function BeginOf(kind: Kind): Pass {
    match kind
    case StreamKind => OfStream(S.Begin)
    case TenantKind => OfTenant(T.Begin)
    case UserKind => OfUser(U.Begin)
    case ClientKind => OfClient(C.Begin)
    case AuthKind => OfAuth(A.Begin)
    case InitKind => OfInit(I.Begin)
    case DataPlaneKind => OfDataPlane(D.Begin)
  }

  function StreamEnd(o: S.Outcome): Ending {
    match o
    case Go(p) => Go(OfStream(p))
    case Done => Done
    case _ => Retry
  }

  function TenantEnd(o: T.Outcome): Ending {
    match o
    case Go(p) => Go(OfTenant(p))
    case Done => Done
    case Failed => Retry
  }

  function UserEnd(o: U.Outcome): Ending {
    match o
    case Go(p) => Go(OfUser(p))
    case Done => Done
    case Failed => Retry
  }

  function ClientEnd(o: C.Outcome): Ending {
    match o
    case Go(p) => Go(OfClient(p))
    case Done => Done
    case Failed => Retry
  }

  function AuthEnd(o: A.Outcome): Ending {
    match o
    case Go(p) => Go(OfAuth(p))
    case Done => Done
    case Failed => Retry
  }

  function InitEnd(o: I.Outcome): Ending {
    match o
    case Go(p) => Go(OfInit(p))
    case Done => Done
    case _ => Retry
  }

  function DataPlaneEnd(o: D.Outcome): Ending {
    match o
    case Go(p) => Go(OfDataPlane(p))
    case Done => Done
    case Failed => Retry
  }

  /** One external call of a pass. */
  function PassStep(cfg: Config, st: Stores, k: Key, p: Pass, c: Choice): (r: (Stores, Ending))
    ensures Grows(st, r.0)
    ensures TenantsInjective(st) ==> TenantsInjective(r.0)
  {
    match p
    case OfStream(p) => var r := S.Step(cfg, st, k, p, c); (r.0, StreamEnd(r.1))
    case OfTenant(p) => var r := T.Step(cfg, st, k, p, c); (r.0, TenantEnd(r.1))
    case OfUser(p) => var r := U.Step(cfg, st, k, p, c); (r.0, UserEnd(r.1))
    case OfClient(p) => var r := C.Step(cfg, st, k, p, c); (r.0, ClientEnd(r.1))
    case OfAuth(p) => var r := A.Step(st, k, p, c); (r.0, AuthEnd(r.1))
    case OfInit(p) => var r := I.Step(st, k, p, c); (r.0, InitEnd(r.1))
    case OfDataPlane(p) => var r := D.Step(st, k, p, c); (r.0, DataPlaneEnd(r.1))
  }

  /** A pass that does not find its resource is done, whatever its kind. */
  lemma GoneIsDone(cfg: Config, st: Stores, k: Key, c: Choice)
    requires Get(st, k, c).NotFound?
    ensures PassStep(cfg, st, k, BeginOf(k.kind), c) == (st, Ending.Done)
  {
    hide Grows, TenantsInjective;
    match k.kind {
      case StreamKind =>
      case TenantKind =>
      case UserKind =>
      case ClientKind =>
      case AuthKind =>
      case InitKind =>
      case DataPlaneKind =>
    }
  }

  function Settle(w: World, k: Key, st: Stores, e: Ending): World {
    match e
    case Go(p) => w.(st := st, passes := w.passes[k := p])
    case Done => w.(st := st, passes := w.passes - {k})
    case Retry => w.(st := st, passes := w.passes - {k}, delayed := w.delayed + {k})
  }

  /** What users and the cluster may do to the stores. */
  function Environment(st: Stores, l: Label): (r: Stores)
    ensures Grows(st, r)
  {
    match l
    case Create(k, o) =>
      if Latest(st.log, k).None? && o.KindOf() == k.kind then st.(log := Commit(st.log, k, Some(o.Fresh()))) else st
    case Edit(k, o) =>
      if Latest(st.log, k).Some? && o.KindOf() == Latest(st.log, k).value.KindOf() then
        st.(log := Commit(st.log, k, Some(o.EditOf(Latest(st.log, k).value))))
      else st
    case Remove(k) => st.(log := Commit(st.log, k, None))
    case WriteSecret(n, d) => st.(secrets := Commit(st.secrets, n, d))
    case Scale(n, v) => st.(deployments := Commit(st.deployments, n, v))
    case Tick => st.(clock := st.clock + 1)
    case _ => st
  }

  /** Users and the cluster may do what they like to Secrets, deployments and resources. */
  lemma AnythingHappens(st: Stores, k: Key, n: Name, d: Option<Data>, replicas: Option<nat>)
    ensures Latest(Environment(st, WriteSecret(n, d)).secrets, n) == d
    ensures Latest(Environment(st, Scale(n, replicas)).deployments, n) == replicas
    ensures Latest(Environment(st, Remove(k)).log, k) == None
    ensures Environment(st, Tick).clock > st.clock
  {
    hide Grows, LogsGrow;
  }

  function Next(w: World, l: Label): (r: World)
    ensures Grows(w.st, r.st) && r.cfg == w.cfg
  {
    match l
    case Deliver(k) =>
      if Seen(w.st, k) < Version(w.st.log, k) then
        w.(st := w.st.(seen := w.st.seen[k := Seen(w.st, k) + 1]), queue := w.queue + {k})
      else w
    case Timer(k) => if k in w.delayed then w.(delayed := w.delayed - {k}, queue := w.queue + {k}) else w
    case Start(k) =>
      if k in w.queue && k !in w.passes then
        w.(queue := w.queue - {k}, passes := w.passes[k := BeginOf(k.kind)])
      else w
    case Call(k, c) =>
      if k in w.passes then
        var r := PassStep(w.cfg, w.st, k, w.passes[k], c);
        Settle(w, k, r.0, r.1)
      else w
    case Abort(k) => if k in w.passes then w.(passes := w.passes - {k}, delayed := w.delayed + {k}) else w
    case Restart =>
      w.(st := w.st.(seen := map k | k in w.st.log :: Version(w.st.log, k)),
         queue := w.st.log.Keys, delayed := {}, passes := map[])
    case _ => w.(st := Environment(w.st, l))
  }

  /** After its last call a pass is no longer in flight; it is scheduled again, for later, exactly
      if it did not finish. Nothing is queued at once, and no other pass is touched. */
  lemma PassEnds(w: World, k: Key, c: Choice)
    requires k in w.passes && !PassStep(w.cfg, w.st, k, w.passes[k], c).1.Go?
    ensures var v, e := Next(w, Call(k, c)), PassStep(w.cfg, w.st, k, w.passes[k], c).1;
      && v.passes == w.passes - {k} && v.queue == w.queue
      && v.delayed == w.delayed + (if e.Retry? then {k} else {})
  {
    hide PassStep, Grows;
  }

  function Exec(w: World, ls: seq<Label>): World
    decreases |ls|
  {
    if ls == [] then w else Exec(Next(w, ls[0]), ls[1..])
  }

  /** The operator starts with no custom resources, an idle queue, and any database whose
      tenant names have distinct IDs. */
  ghost predicate Initial(w: World) {
    && w.st.log == map[] && w.st.seen == map[]
    && w.queue == {} && w.delayed == {} && w.passes == map[]
    && TenantsInjective(w.st)
  }

  lemma ExecAppend(w: World, ls: seq<Label>, l: Label)
    ensures Exec(w, ls + [l]) == Next(Exec(w, ls), l)
    decreases |ls|
  {
    hide Next;
    if ls == [] {
      assert [l][1..] == [];
    } else {
      assert (ls + [l])[1..] == ls[1..] + [l];
      ExecAppend(Next(w, ls[0]), ls[1..], l);
    }
  }

  lemma ExecConcat(w: World, xs: seq<Label>, ys: seq<Label>)
    ensures Exec(w, xs + ys) == Exec(Exec(w, xs), ys)
    decreases |xs|
  {
    hide Next;
    if xs == [] {
      assert xs + ys == ys;
    } else {
      assert (xs + ys)[1..] == xs[1..] + ys;
      ExecConcat(Next(w, xs[0]), xs[1..], ys);
    }
  }
}
