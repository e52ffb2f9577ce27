/** A pass's own status write queues its resource again. Once failures and edits stop, this
    loop ends for tenants, streams, users and clients, within a bound that can be read off the
    world, and where it ends another pass changes nothing in any store; a user must have a
    password in its spec for that. */
module Convergence {
  import opened Base
  import opened Conditions
  import opened Resources
  import opened Stores
  import opened Machine
  import opened Invariant
  import opened NoLostWork
  import opened Histories
  import S = StreamController
  import T = TenantController
  import U = UserController
  import C = ClientController
  import A = AuthController
  import I = InitController
  import D = DataPlaneController

  predicate Converging(cfg: Config, k: Key) {
    (k.kind == StreamKind && cfg.database) || (k.kind == TenantKind && cfg.database)
    || k.kind == UserKind || k.kind == ClientKind
  }

  // ---- Where the loop ends -----------------------------------------------------------

  /** The status that a pass over this spec leaves when it is given the row `r`, whatever the
      clock says. */
  ghost predicate StreamFixed(cfg: Config, st: Stores, x: FrkrStream, r: string) {
    && r in st.streamRows && S.Provisioned(cfg, st, x.spec, x.status)
    && x.status.phase == "Ready" && x.status.streamID == r && x.status.topic == st.streamRows[r].topic
    && S.ShowsSuccess(x.status)
  }

  /** The Secret is what a pass over this spec writes once it found it. */
  ghost predicate SecretFixed(st: Stores, k: Key, spec: ClientSpec) {
    && Latest(st.secrets, ClientSecretName(k)).Some?
    && var d := Latest(st.secrets, ClientSecretName(k)).value;
       && C.Held(d) != "" && d == C.SecretOf(spec, C.Held(d))
       && (spec.secret != "" ==> C.Held(d) == spec.secret)
  }

  ghost predicate ClientRegistered(cfg: Config, st: Stores, x: FrkrClient) {
    cfg.database ==> C.Registered(st, x)
  }

  /** The status shows a password, and if it was generated says so; the row is there, and the
      Secret is one that a pass over this spec writes. */
  ghost predicate UserFixed(cfg: Config, st: Stores, k: Key, x: FrkrUser) {
    && x.status.password != "" && (x.spec.password == "" ==> x.status.passwordGenerated) && U.HasRow(cfg, st, x.spec)
    && Latest(st.secrets, U.SecretName(k, x)).Some?
    && var d := Latest(st.secrets, U.SecretName(k, x)).value;
       "password" in d && IsPassword(x.spec, d["password"]) && d == U.SecretOf(x, d["password"])
  }

  ghost predicate IsFixed(cfg: Config, st: Stores, k: Key, r: string, x: Resource) {
    match x
    case StreamR(x) => StreamFixed(cfg, st, x, r)
    case TenantR(x) => T.Identified(st, k, x)
    case UserR(x) => UserFixed(cfg, st, k, x)
    case ClientR(x) => ClientRegistered(cfg, st, x) && SecretFixed(st, k, x.spec)
    case _ => true
  }

  ghost predicate Fixed(cfg: Config, st: Stores, k: Key, r: string) {
    Latest(st.log, k).Some? ==> IsFixed(cfg, st, k, r, Latest(st.log, k).value)
  }

  // ---- The measure -------------------------------------------------------------------

  /** How many status writes may still change something. */
  ghost function Changes(cfg: Config, st: Stores, k: Key, r: string, x: Resource): (n: nat)
    ensures n <= 2
  {
    match x
    case StreamR(x) => if StreamFixed(cfg, st, x, r) then 0 else 1
    case TenantR(x) => if T.Identified(st, k, x) then 0 else 1
    case UserR(x) => (if x.status.password != "" then 0 else 1) + (if x.status.passwordGenerated then 0 else 1)
    case ClientR(x) => (if ClientRegistered(cfg, st, x) then 0 else 1) + (if x.status.secretGenerated then 0 else 1)
    case _ => 0
  }

  ghost function Pending(cfg: Config, st: Stores, k: Key, r: string): (n: nat)
    ensures n <= 2
  {
    if Latest(st.log, k).Some? then Changes(cfg, st, k, r, Latest(st.log, k).value) else 0
  }

  /** Left alone, the pass will end with everything as `Fixed` asks. */
  ghost predicate StreamGood(cfg: Config, st: Stores, k: Key, r: string, p: S.StreamPass) {
    p.Begin? || (p.ver == Version(st.log, k) &&
      match p
      case AtTopic(_, _, id, topic) => id == r
      case AtReady(_, s) => StreamFixed(cfg, st, s, r)
      case AtReport(_, _, _) => false
      case _ => true)
  }

  ghost predicate TenantGood(st: Stores, k: Key, p: T.TenantPass) {
    p.Begin? || p.ver == Version(st.log, k)
  }

  ghost predicate UserGood(st: Stores, k: Key, p: U.UserPass) {
    p.Begin? || (p.ver == Version(st.log, k) &&
      match p
      case AtCreate(_, u, _) => Latest(st.secrets, U.SecretName(k, u)).None?
      case AtUpdate(_, u, _, v) =>
        Latest(st.secrets, U.SecretName(k, u)).Some? && v == Version(st.secrets, U.SecretName(k, u))
      case AtWrite(_, u, password) => Latest(st.secrets, U.SecretName(k, u)) == Some(U.SecretOf(u, password))
      case _ => true)
  }

  ghost predicate ClientGood(st: Stores, k: Key, p: C.ClientPass) {
    p.Begin? || (p.ver == Version(st.log, k) &&
      match p
      case AtCreate(_, _, _) => Latest(st.secrets, ClientSecretName(k)).None?
      case AtUpdate(_, _, _, v) =>
        Latest(st.secrets, ClientSecretName(k)).Some? && v == Version(st.secrets, ClientSecretName(k))
      case AtWrite(_, x) => SecretFixed(st, k, x.spec)
      case _ => true)
  }

  ghost predicate Good(cfg: Config, st: Stores, k: Key, r: string, p: Pass) {
    match p
    case OfStream(p) => StreamGood(cfg, st, k, r, p)
    case OfTenant(p) => TenantGood(st, k, p)
    case OfUser(p) => UserGood(st, k, p)
    case OfClient(p) => ClientGood(st, k, p)
    case _ => false
  }

  /** Calls left to the end of the pass, at most. */
  function Cost(p: Pass): (n: nat)
    ensures n <= 8
  {
    match p
    case OfStream(p) => S.Rank(p) + 1
    case OfTenant(p) => T.Rank(p) + 1
    case OfUser(p) => U.Rank(p) + 1
    case OfClient(p) => C.Rank(p) + 1
    case _ => 0
  }

  ghost function Load(cfg: Config, st: Stores, k: Key, r: string, p: Pass): nat {
    Cost(p) + (if Good(cfg, st, k, r, p) then 0 else 45)
  }

  ghost function Measure(w: World, k: Key, r: string): nat {
    11 * (Version(w.st.log, k) - Seen(w.st, k)) + 11 * Pending(w.cfg, w.st, k, r)
    + (if k in w.queue then 10 else 0) + (if k in w.delayed then 11 else 0)
    + (if k in w.passes then Load(w.cfg, w.st, k, r, w.passes[k]) else 0)
  }

  // ---- Calm runs -----------------------------------------------------------------------

  predicate NameFree(st: Stores, name: string, c: Choice) {
    name in st.tenants || FreshTenant(st, c.id)
  }

  /** A stream pass whose calls work; over the present version `CreateStream` returns the row
      `r`, adding it if it does not exist, over an older one any row, or none. */
  predicate StreamCalm(st: Stores, k: Key, r: string, p: S.StreamPass, c: Choice) {
    match p
    case AtTenant(_, s) => NameFree(st, s.spec.tenantID, c)
    case AtRow(ver, s, tenantID) =>
      ver == Version(st.log, k) ==>
        && c.id == r != ""
        && (r in st.streamRows ==> st.streamRows[r].tenantID == tenantID && st.streamRows[r].name == s.spec.name)
    case _ => true
  }

  predicate TenantCalm(st: Stores, k: Key, p: T.TenantPass, c: Choice) {
    p.AtEnsure? ==> NameFree(st, T.TenantName(k, p.t.spec), c)
  }

  /** `CreateUser` does not fail on a repeated username. */
  predicate UserCalm(st: Stores, p: U.UserPass, c: Choice) {
    match p
    case AtGenerate(_, _) => c.text != ""
    case AtTenant(_, u, _) => NameFree(st, u.spec.tenantID, c)
    case AtRow(_, u, _, tenantID) => (tenantID, u.spec.username) in st.userRows ==> c.number != 0
    case _ => true
  }

  predicate ClientCalm(st: Stores, k: Key, p: C.ClientPass, c: Choice) {
    match p
    case AtGenerate(_, _) => c.text != ""
    case AtInsert(_, x, _) => C.RowKeyOf(x.spec) in st.clientRows || FreshClient(st, c.id)
    case _ => true
  }

  predicate CalmCall(st: Stores, k: Key, r: string, p: Pass, c: Choice) {
    c.fault == Fine &&
    match p
    case OfStream(p) => StreamCalm(st, k, r, p, c)
    case OfTenant(p) => TenantCalm(st, k, p, c)
    case OfUser(p) => UserCalm(st, p, c)
    case OfClient(p) => ClientCalm(st, k, p, c)
    case _ => true
  }

  /** The call reads what is no longer the latest: a pass begins while the cache is behind, or a
      user or client pass is shown an older version of its Secret. */
  predicate StaleRead(st: Stores, k: Key, p: Pass, c: Choice) {
    match p
    case OfStream(p) => p.Begin? && Seen(st, k) != Version(st.log, k)
    case OfTenant(p) => p.Begin? && Seen(st, k) != Version(st.log, k)
    case OfUser(p) =>
      (p.Begin? && Seen(st, k) != Version(st.log, k))
          || (p.AtSecret? && c.at < Version(st.secrets, U.SecretName(k, p.u)))
    case OfClient(p) =>
      (p.Begin? && Seen(st, k) != Version(st.log, k))
          || (p.AtSecret? && c.at < Version(st.secrets, ClientSecretName(k)))
    case _ => false
  }

  /** The pass goes by an outdated read of its Secret, and will fail and be retried. */
  ghost predicate Doomed(st: Stores, k: Key, p: Pass) {
    VersionOf(p) == Some(Version(st.log, k)) &&
    match p
    case OfUser(p) => UserDoomed(st, k, p)
    case OfClient(p) => ClientDoomed(st, k, p)
    case _ => false
  }

  ghost predicate UserDoomed(st: Stores, k: Key, p: U.UserPass) {
    match p
    case AtCreate(_, u, _) => Latest(st.secrets, U.SecretName(k, u)).Some?
    case AtUpdate(_, u, _, v) => v != Version(st.secrets, U.SecretName(k, u))
    case _ => false
  }

  ghost predicate ClientDoomed(st: Stores, k: Key, p: C.ClientPass) {
    match p
    case AtCreate(_, _, _) => Latest(st.secrets, ClientSecretName(k)).Some?
    case AtUpdate(_, _, _, v) => v != Version(st.secrets, ClientSecretName(k))
    case _ => false
  }

  /** The Secret of the resource as it stands. */
  function OwnSecret(st: Stores, k: Key): Option<Name> {
    if Latest(st.log, k).None? then None else
    match Latest(st.log, k).value
    case UserR(x) => Some(U.SecretName(k, x))
    case ClientR(_) => Some(ClientSecretName(k))
    case _ => None
  }

  ghost predicate SameSecret(st: Stores, st': Stores, n: Option<Name>) {
    n.Some? ==> LogOf(st'.secrets, n.value) == LogOf(st.secrets, n.value)
  }

  /** The next call of the pass at `j` may write the Secret of user `k`, or remove the user. */
  predicate Meddles(st: Stores, k: Key, j: Key, p: Pass) {
    match p
    case OfUser(p) => (p.AtCreate? || p.AtUpdate?) && OwnSecret(st, k) == Some(U.SecretName(j, p.u))
    case OfAuth(p) => p.AtDelete? && p.done < |p.listed| && p.listed[p.done].key == k
    case _ => false
  }

  /** Resource `k` is not edited and its passes do not fail or stop; anything may happen to
      others, but for a user no other takes its name or turns away from basic auth. */
  predicate Calm(w: World, k: Key, r: string, l: Label) {
    match l
    case Create(j, _) => j != k
    case Edit(j, _) => j != k
    case Remove(j) => j != k
    case WriteSecret(n, _) => OwnSecret(w.st, k) != Some(n)
    case Abort(j) => j != k
    case Restart => false
    case Call(j, c) =>
      j in w.passes ==>
        if j == k then CalmCall(w.st, k, r, w.passes[k], c)
        else k.kind == UserKind ==> !Meddles(w.st, k, j, w.passes[j])
    case _ => true
  }

  ghost predicate CalmRun(w: World, k: Key, r: string, ls: seq<Label>)
    decreases |ls|
  {
    ls != [] ==> Calm(w, k, r, ls[0]) && CalmRun(Next(w, ls[0]), k, r, ls[1..])
  }

  // ---- One call of the resource's own pass ------------------------------------------------

  /** What a calm call does to the measure, and where a good pass goes. */
  ghost predicate Progress(cfg: Config, st: Stores, k: Key, r: string, p: Pass, st': Stores, e: Ending) {
    && Version(st'.log, k) <= Version(st.log, k) + 1
    && (LogOf(st'.log, k) == LogOf(st.log, k) ==> Pending(cfg, st', k, r) <= Pending(cfg, st, k, r))
    && (e.Go? ==> LogOf(st'.log, k) == LogOf(st.log, k) && Cost(e.pass) < Cost(p))
    && (Good(cfg, st, k, r, p) ==>
          match e
          case Go(q) => Good(cfg, st', k, r, q)
          case Done =>
            && Fixed(cfg, st', k, r)
            && (LogOf(st'.log, k) != LogOf(st.log, k) ==> Pending(cfg, st', k, r) < Pending(cfg, st, k, r))
          case Retry => false)
    && (Fixed(cfg, st, k, r) && VersionOf(p) == Some(Version(st.log, k)) && !Good(cfg, st, k, r, p) && !e.Retry?
        && LogOf(st'.log, k) == LogOf(st.log, k)
        ==> Fixed(cfg, st', k, r))
    && (Doomed(st, k, p) ==> e.Retry?)
  }

  /** Growing stores in which the resource and its Secret are the same. */
  lemma FixedKept(cfg: Config, st: Stores, st': Stores, k: Key, r: string)
    requires Grows(st, st') && LogOf(st'.log, k) == LogOf(st.log, k)
    ensures Pending(cfg, st', k, r) <= Pending(cfg, st, k, r)
    ensures SameSecret(st, st', OwnSecret(st, k)) && Fixed(cfg, st, k, r) ==> Fixed(cfg, st', k, r)
  {
    hide LogsGrow, ClientSecretName, UserSecretName, U.SecretOf, IsPassword, Set;
    if Latest(st.log, k).Some? {
      match Latest(st.log, k).value {
        case StreamR(x) =>
        case TenantR(x) =>
        case UserR(x) =>
        case ClientR(x) =>
        case _ =>
      }
    }
  }

  /** A call that writes no version of the resource. */
  lemma QuietProgress(cfg: Config, st: Stores, k: Key, r: string, p: Pass, st': Stores, e: Ending)
    requires Grows(st, st') && LogOf(st'.log, k) == LogOf(st.log, k)
    requires !e.Go? || Cost(e.pass) < Cost(p)
    requires Good(cfg, st, k, r, p) ==>
               match e case Go(q) => Good(cfg, st', k, r, q) case Done => Fixed(cfg, st', k, r) case Retry => false
    requires !Good(cfg, st, k, r, p) && !e.Retry? && VersionOf(p) == Some(Version(st.log, k))
             ==> SameSecret(st, st', OwnSecret(st, k))
    requires Doomed(st, k, p) ==> e.Retry?
    ensures Progress(cfg, st, k, r, p, st', e)
  {
    hide Grows, Good, Doomed, Fixed, Pending, OwnSecret, SameSecret, VersionOf, Cost;
    FixedKept(cfg, st, st', k, r);
  }

  /** A status write either fails, or changes nothing, or adds one version. */
  lemma StatusWrite(st: Stores, k: Key, ver: nat, x: Resource, c: Choice)
    requires c.fault == Fine
    ensures var (st', ok) := UpdateStatus(st, k, ver, x, c);
      && ok == (ver == Version(st.log, k) && Latest(st.log, k).Some?)
      && (ok && Latest(st.log, k) != Some(x) ==> LogOf(st'.log, k) == LogOf(st.log, k) + [Some(x)])
      && (!ok || Latest(st.log, k) == Some(x) ==> st' == st)
  {
    hide Grows;
  }

  /** The last call of a pass: a good pass writes a fixed status, with fewer changes to come
      unless it writes what is there. */
  lemma WriteProgress(cfg: Config, st: Stores, k: Key, r: string, p: Pass, ver: nat, x: Resource, c: Choice, e: Ending)
    requires c.fault == Fine && VersionOf(p) == Some(ver)
    requires Good(cfg, st, k, r, p) ==> ver == Version(st.log, k) && Latest(st.log, k).Some?
    requires Good(cfg, st, k, r, p) ==> IsFixed(cfg, st, k, r, x)
    requires Good(cfg, st, k, r, p) && Latest(st.log, k) != Some(x)
             ==> Changes(cfg, st, k, r, x) < Changes(cfg, st, k, r, Latest(st.log, k).value)
    requires e.Retry? || (e.Done? && UpdateStatus(st, k, ver, x, c).1)
    requires Good(cfg, st, k, r, p) ==> e.Done?
    requires Doomed(st, k, p) ==> e.Retry?
    ensures Progress(cfg, st, k, r, p, UpdateStatus(st, k, ver, x, c).0, e)
  {
    hide UpdateStatus, Grows, Good, IsFixed, Changes, VersionOf, Cost;
    StatusWrite(st, k, ver, x, c);
    var st' := UpdateStatus(st, k, ver, x, c).0;
    SameRowsFixed(cfg, st, st', k, r, x);
  }

  lemma SameRowsFixed(cfg: Config, st: Stores, st': Stores, k: Key, r: string, x: Resource)
    requires st' == st.(log := st'.log)
    ensures IsFixed(cfg, st', k, r, x) == IsFixed(cfg, st, k, r, x)
    ensures Changes(cfg, st', k, r, x) == Changes(cfg, st, k, r, x)
  {
    match x {
      case StreamR(_) =>
      case TenantR(_) =>
      case UserR(_) =>
      case ClientR(_) =>
      case _ =>
    }
  }

  lemma TenantProgress(cfg: Config, st: Stores, k: Key, r: string, p: T.TenantPass, c: Choice)
    requires LogsOk(cfg, st) && k.kind == TenantKind && TenantPassOk(st, k, p) && cfg.database
    requires c.fault == Fine && TenantCalm(st, k, p, c) && !StaleRead(st, k, OfTenant(p), c)
    ensures var (st', o) := T.Step(cfg, st, k, p, c); Progress(cfg, st, k, r, OfTenant(p), st', TenantEnd(o))
  {
    hide LogsOk, Grows, Progress, Pending;
    var (st', o) := T.Step(cfg, st, k, p, c);
    match p {
      case Begin =>
        if Get(st, k, c).Found? { GetIsVersion(cfg, st, k, c); }
        QuietProgress(cfg, st, k, r, OfTenant(p), st', TenantEnd(o));
      case AtEnsure(_, t) =>
        T.StepPass(cfg, st, k, t, p, c);
        QuietProgress(cfg, st, k, r, OfTenant(p), st', TenantEnd(o));
      case AtWrite(_, t) => TenantWriteProgress(cfg, st, k, r, p, c);
    }
  }

  lemma TenantWriteProgress(cfg: Config, st: Stores, k: Key, r: string, p: T.TenantPass, c: Choice)
    requires TenantPassOk(st, k, p) && p.AtWrite? && c.fault == Fine
    ensures var (st', o) := T.Write(st, k, p.ver, p.t, c); Progress(cfg, st, k, r, OfTenant(p), st', TenantEnd(o))
  {
    hide Grows, Progress, UpdateStatus;
    StatusWrite(st, k, p.ver, TenantR(p.t), c);
    WriteProgress(cfg, st, k, r, OfTenant(p), p.ver, TenantR(p.t), c, TenantEnd(T.Write(st, k, p.ver, p.t, c).1));
  }

  lemma MadeReadyFixed(cfg: Config, st: Stores, s: FrkrStream, r: string, now: nat)
    requires r in st.streamRows && S.Provisioned(cfg, st, s.spec, StreamStatus("", r, st.streamRows[r].topic, []))
    ensures StreamFixed(cfg, st, S.MadeReady(s, r, st.streamRows[r].topic, now), r)
  {
    hide Set;
    SetShows(s.status.conditions, S.Success(st.streamRows[r].topic, now));
  }

  lemma StreamReadProgress(cfg: Config, st: Stores, k: Key, r: string, c: Choice)
    requires LogsOk(cfg, st) && k.kind == StreamKind && cfg.database && c.fault == Fine
    requires Seen(st, k) == Version(st.log, k)
    ensures var (st', o) := S.Read(cfg, st, k, c); Progress(cfg, st, k, r, OfStream(S.Begin), st', StreamEnd(o))
  {
    hide LogsOk, Grows, Progress, Pending, S.StatusOk;
    var (st', o) := S.Read(cfg, st, k, c);
    GrowsReflexive(st);
    if Get(st, k, c).Found? {
      GetIsVersion(cfg, st, k, c);
    }
    QuietProgress(cfg, st, k, r, OfStream(S.Begin), st', StreamEnd(o));
  }

  lemma StreamTenantProgress(cfg: Config, st: Stores, k: Key, r: string, p: S.StreamPass, c: Choice)
    requires p.AtTenant? && c.fault == Fine && NameFree(st, p.s.spec.tenantID, c)
    ensures var (st', o) := S.Tenant(st, p.ver, p.s, c); Progress(cfg, st, k, r, OfStream(p), st', StreamEnd(o))
  {
    hide Grows, Progress, Fixed, S.Reported;
    var (st', o) := S.Tenant(st, p.ver, p.s, c);
    assert o.Go? && o.pass.AtRow?;
    QuietProgress(cfg, st, k, r, OfStream(p), st', StreamEnd(o));
  }

  lemma StreamRowProgress(cfg: Config, st: Stores, k: Key, r: string, p: S.StreamPass, c: Choice)
    requires StreamPassOk(cfg, st, k, p) && p.AtRow? && c.fault == Fine && StreamCalm(st, k, r, p, c)
    ensures var (st', o) := S.Row(cfg, st, p.ver, p.s, p.tenantID, c);
            Progress(cfg, st, k, r, OfStream(p), st', StreamEnd(o))
  {
    hide Grows, Progress, Fixed, S.Reported, S.MadeReady, StreamFixed;
    var (st', o) := S.Row(cfg, st, p.ver, p.s, p.tenantID, c);
    assert o.Go?;
    if p.ver != Version(st.log, k) {
      assert !Good(cfg, st, k, r, OfStream(p));
    } else if cfg.broker {
      assert o.pass == S.AtTopic(p.ver, p.s, r, st'.streamRows[r].topic);
    } else {
      MadeReadyFixed(cfg, st', p.s, r, st.clock);
      assert o.pass == S.AtReady(p.ver, S.MadeReady(p.s, r, st'.streamRows[r].topic, st.clock));
    }
    QuietProgress(cfg, st, k, r, OfStream(p), st', StreamEnd(o));
  }

  lemma StreamTopicProgress(cfg: Config, st: Stores, k: Key, r: string, p: S.StreamPass, c: Choice)
    requires StreamPassOk(cfg, st, k, p) && p.AtTopic? && c.fault == Fine
    ensures var (st', o) := S.Topic(st, p.ver, p.s, p.streamID, p.topic, c);
            Progress(cfg, st, k, r, OfStream(p), st', StreamEnd(o))
  {
    hide Grows, Progress, Fixed, S.Reported, S.MadeReady, StreamFixed;
    var (st', o) := S.Topic(st, p.ver, p.s, p.streamID, p.topic, c);
    assert o == S.Go(S.AtReady(p.ver, S.MadeReady(p.s, p.streamID, p.topic, st.clock)));
    MadeReadyFixed(cfg, st', p.s, p.streamID, st.clock);
    QuietProgress(cfg, st, k, r, OfStream(p), st', StreamEnd(o));
  }

  /** A second ready status for the same row and topic is the first one. */
  lemma FixedMakesSame(cfg: Config, st: Stores, a: FrkrStream, b: FrkrStream, r: string)
    requires StreamFixed(cfg, st, a, r) && StreamFixed(cfg, st, b, r) && S.MadeFrom(a, b)
    ensures a == b
  {
    hide Set;
    var now: nat :| b == S.MadeReady(a, b.status.streamID, b.status.topic, now);
    SetIsIdle(a.status.conditions, S.Success(a.status.topic, now));
  }

  lemma StreamWriteProgress(cfg: Config, st: Stores, k: Key, r: string, p: S.StreamPass, c: Choice)
    requires StreamPassOk(cfg, st, k, p) && p.AtReady? && c.fault == Fine
    ensures var (st', o) := S.Ready(st, k, p.ver, p.s, c); Progress(cfg, st, k, r, OfStream(p), st', StreamEnd(o))
  {
    hide Grows, Progress, UpdateStatus, S.Write, S.MadeFrom, StreamFixed;
    StatusWrite(st, k, p.ver, StreamR(p.s), c);
    var a := ReadOf(st, k, p.ver).value.stream;
    if StreamFixed(cfg, st, a, r) && StreamFixed(cfg, st, p.s, r) {
      FixedMakesSame(cfg, st, a, p.s, r);
    }
    WriteProgress(cfg, st, k, r, OfStream(p), p.ver, StreamR(p.s), c, StreamEnd(S.Ready(st, k, p.ver, p.s, c).1));
  }

  lemma StreamReportProgress(cfg: Config, st: Stores, k: Key, r: string, p: S.StreamPass, c: Choice)
    requires p.AtReport? && c.fault == Fine
    ensures var (st', o) := S.Report(st, k, p.ver, p.s, p.after, c);
            Progress(cfg, st, k, r, OfStream(p), st', StreamEnd(o))
  {
    hide Grows, Progress, UpdateStatus, IsFixed;
    WriteProgress(cfg, st, k, r, OfStream(p), p.ver, StreamR(p.s), c, Retry);
  }

  lemma StreamProgress(cfg: Config, st: Stores, k: Key, r: string, p: S.StreamPass, c: Choice)
    requires LogsOk(cfg, st) && k.kind == StreamKind && StreamPassOk(cfg, st, k, p) && cfg.database
    requires c.fault == Fine && StreamCalm(st, k, r, p, c) && !StaleRead(st, k, OfStream(p), c)
    ensures var (st', o) := S.Step(cfg, st, k, p, c); Progress(cfg, st, k, r, OfStream(p), st', StreamEnd(o))
  {
    hide LogsOk, Grows, Progress, StreamPassOk, S.Read, S.Tenant, S.Row, S.Topic, S.Ready, S.Report;
    match p {
      case Begin => StreamReadProgress(cfg, st, k, r, c);
      case AtTenant(_, _) => StreamTenantProgress(cfg, st, k, r, p, c);
      case AtRow(_, _, _) => StreamRowProgress(cfg, st, k, r, p, c);
      case AtTopic(_, _, _, _) => StreamTopicProgress(cfg, st, k, r, p, c);
      case AtReady(_, _) => StreamWriteProgress(cfg, st, k, r, p, c);
      case AtReport(_, _, _) => StreamReportProgress(cfg, st, k, r, p, c);
    }
  }

  // ---- Clients ------------------------------------------------------------------------------

  /** Reading, generating and the two database calls. */
  lemma ClientEarlyProgress(cfg: Config, st: Stores, k: Key, r: string, p: C.ClientPass, c: Choice)
    requires LogsOk(cfg, st) && k.kind == ClientKind && ClientPassOk(cfg, st, k, p)
    requires c.fault == Fine && ClientCalm(st, k, p, c) && !StaleRead(st, k, OfClient(p), c)
    requires p.Begin? || p.AtEarly? || p.AtGenerate? || p.AtInsert? || p.AtFetch?
    ensures var (st', o) := C.Step(cfg, st, k, p, c); Progress(cfg, st, k, r, OfClient(p), st', ClientEnd(o))
  {
    hide LogsOk, Grows, Progress, ClientRegistered, SecretFixed;
    var (st', o) := C.Step(cfg, st, k, p, c);
    match p {
      case Begin =>
        if Get(st, k, c).Found? { GetIsVersion(cfg, st, k, c); }
        QuietProgress(cfg, st, k, r, OfClient(p), st', ClientEnd(o));
      case AtEarly(_, _) => QuietProgress(cfg, st, k, r, OfClient(p), st', ClientEnd(o));
      case AtGenerate(_, _) => QuietProgress(cfg, st, k, r, OfClient(p), st', ClientEnd(o));
      case AtInsert(_, _, _) => QuietProgress(cfg, st, k, r, OfClient(p), st', ClientEnd(o));
      case AtFetch(_, _, _) => QuietProgress(cfg, st, k, r, OfClient(p), st', ClientEnd(o));
    }
  }

  lemma HeldIsWritten(spec: ClientSpec, secret: string)
    ensures C.Held(C.SecretOf(spec, secret)) == secret
  {
  }

  lemma ClientSecretProgress(cfg: Config, st: Stores, k: Key, r: string, p: C.ClientPass, c: Choice)
    requires ClientPassOk(cfg, st, k, p) && c.fault == Fine && !StaleRead(st, k, OfClient(p), c) && p.AtSecret?
    ensures var (st', o) := C.Step(cfg, st, k, p, c); Progress(cfg, st, k, r, OfClient(p), st', ClientEnd(o))
  {
    hide Grows, Progress, Fixed, C.Registered, C.SecretOf, C.Held;
    var (st', o) := C.Step(cfg, st, k, p, c);
    QuietProgress(cfg, st, k, r, OfClient(p), st', ClientEnd(o));
  }

  lemma ClientApplyProgress(cfg: Config, st: Stores, k: Key, r: string, p: C.ClientPass, c: Choice)
    requires ClientPassOk(cfg, st, k, p) && c.fault == Fine && (p.AtCreate? || p.AtUpdate?)
    ensures var (st', o) := C.Step(cfg, st, k, p, c); Progress(cfg, st, k, r, OfClient(p), st', ClientEnd(o))
  {
    hide Grows, Progress, Fixed, C.Registered, C.SecretOf, C.Held;
    var (st', o) := C.Step(cfg, st, k, p, c);
    HeldIsWritten(p.c.spec, p.secret);
    if o.Failed? {
      assert st' == st;
      QuietProgress(cfg, st, k, r, OfClient(p), st', ClientEnd(o));
    } else {
      assert Latest(st'.secrets, ClientSecretName(k)) == Some(C.SecretOf(p.c.spec, p.secret));
      QuietProgress(cfg, st, k, r, OfClient(p), st', ClientEnd(o));
    }
  }

  lemma ClientWriteProgress(cfg: Config, st: Stores, k: Key, r: string, p: C.ClientPass, c: Choice)
    requires ClientPassOk(cfg, st, k, p) && p.AtWrite? && c.fault == Fine
    ensures var (st', o) := C.Write(st, k, p.ver, p.c, c); Progress(cfg, st, k, r, OfClient(p), st', ClientEnd(o))
  {
    hide Grows, Progress, UpdateStatus, SecretFixed, C.RowKeyOf;
    StatusWrite(st, k, p.ver, ClientR(p.c), c);
    WriteProgress(cfg, st, k, r, OfClient(p), p.ver, ClientR(p.c), c, ClientEnd(C.Write(st, k, p.ver, p.c, c).1));
  }

  lemma ClientProgress(cfg: Config, st: Stores, k: Key, r: string, p: C.ClientPass, c: Choice)
    requires LogsOk(cfg, st) && k.kind == ClientKind && ClientPassOk(cfg, st, k, p)
    requires c.fault == Fine && ClientCalm(st, k, p, c) && !StaleRead(st, k, OfClient(p), c)
    ensures var (st', o) := C.Step(cfg, st, k, p, c); Progress(cfg, st, k, r, OfClient(p), st', ClientEnd(o))
  {
    hide LogsOk, Grows, Progress, ClientPassOk, ClientCalm;
    hide C.Read, C.Early, C.Generate, C.Insert, C.Fetch, C.Secret, C.Create, C.Update, C.Write;
    if p.AtWrite? {
      ClientWriteProgress(cfg, st, k, r, p, c);
    } else if p.AtCreate? || p.AtUpdate? {
      ClientApplyProgress(cfg, st, k, r, p, c);
    } else if p.AtSecret? {
      ClientSecretProgress(cfg, st, k, r, p, c);
    } else {
      ClientEarlyProgress(cfg, st, k, r, p, c);
    }
  }

  // ---- Users --------------------------------------------------------------------------------

  /** Reading, generating and the two database calls. */
  lemma UserEarlyProgress(cfg: Config, st: Stores, k: Key, r: string, p: U.UserPass, c: Choice)
    requires LogsOk(cfg, st) && k.kind == UserKind && UserPassOk(cfg, st, k, p)
    requires c.fault == Fine && UserCalm(st, p, c) && !StaleRead(st, k, OfUser(p), c)
    requires p.Begin? || p.AtGenerate? || p.AtTenant? || p.AtRow?
    ensures var (st', o) := U.Step(cfg, st, k, p, c); Progress(cfg, st, k, r, OfUser(p), st', UserEnd(o))
  {
    hide LogsOk, Grows, TenantsInjective, Progress, UserFixed, U.WithPassword, U.SecretName, U.Carries;
    var (st', o) := U.Step(cfg, st, k, p, c);
    match p {
      case Begin =>
        if Get(st, k, c).Found? { GetIsVersion(cfg, st, k, c); }
        QuietProgress(cfg, st, k, r, OfUser(p), st', UserEnd(o));
      case AtGenerate(_, _) => QuietProgress(cfg, st, k, r, OfUser(p), st', UserEnd(o));
      case AtTenant(_, _, _) => QuietProgress(cfg, st, k, r, OfUser(p), st', UserEnd(o));
      case AtRow(_, _, _, _) => QuietProgress(cfg, st, k, r, OfUser(p), st', UserEnd(o));
    }
  }

  lemma UserSecretProgress(cfg: Config, st: Stores, k: Key, r: string, p: U.UserPass, c: Choice)
    requires c.fault == Fine && !StaleRead(st, k, OfUser(p), c) && p.AtSecret?
    ensures var (st', o) := U.Step(cfg, st, k, p, c); Progress(cfg, st, k, r, OfUser(p), st', UserEnd(o))
  {
    hide Grows, TenantsInjective, Progress, Fixed, U.SecretOf, U.SecretName;
    var (st', o) := U.Step(cfg, st, k, p, c);
    GrowsReflexive(st);
    QuietProgress(cfg, st, k, r, OfUser(p), st', UserEnd(o));
  }

  lemma UserApplyProgress(cfg: Config, st: Stores, k: Key, r: string, p: U.UserPass, c: Choice)
    requires c.fault == Fine && (p.AtCreate? || p.AtUpdate?)
    ensures var (st', o) := U.Step(cfg, st, k, p, c); Progress(cfg, st, k, r, OfUser(p), st', UserEnd(o))
  {
    hide Grows, TenantsInjective, Progress, Fixed, U.SecretOf, U.SecretName;
    var (st', o) := U.Step(cfg, st, k, p, c);
    if o.Failed? {
      assert st' == st;
      QuietProgress(cfg, st, k, r, OfUser(p), st', UserEnd(o));
    } else {
      assert Latest(st'.secrets, U.SecretName(k, p.u)) == Some(U.SecretOf(p.u, p.password));
      QuietProgress(cfg, st, k, r, OfUser(p), st', UserEnd(o));
    }
  }

  lemma UserWriteFixed(cfg: Config, st: Stores, k: Key, a: FrkrUser, p: U.UserPass)
    requires p.AtWrite? && U.PassOk(cfg, st, k, a, p)
    ensures Latest(st.secrets, U.SecretName(k, p.u)) == Some(U.SecretOf(p.u, p.password)) ==> UserFixed(cfg, st, k, p.u)
    ensures p.u != a ==> Changes(cfg, st, k, "", UserR(p.u)) < Changes(cfg, st, k, "", UserR(a))
  {
    hide U.SecretName, U.SecretGave;
    assert IsPassword(p.u.spec, p.password);
  }

  lemma UserWriteProgress(cfg: Config, st: Stores, k: Key, r: string, p: U.UserPass, c: Choice)
    requires UserPassOk(cfg, st, k, p) && p.AtWrite? && c.fault == Fine
    ensures var (st', o) := U.Write(st, k, p.ver, p.u, c); Progress(cfg, st, k, r, OfUser(p), st', UserEnd(o))
  {
    hide Grows, TenantsInjective, Progress, UpdateStatus, UserFixed, U.PassOk, U.SecretOf, U.SecretName;
    StatusWrite(st, k, p.ver, UserR(p.u), c);
    UserWriteFixed(cfg, st, k, ReadOf(st, k, p.ver).value.user, p);
    WriteProgress(cfg, st, k, r, OfUser(p), p.ver, UserR(p.u), c, UserEnd(U.Write(st, k, p.ver, p.u, c).1));
  }

  lemma UserProgress(cfg: Config, st: Stores, k: Key, r: string, p: U.UserPass, c: Choice)
    requires LogsOk(cfg, st) && k.kind == UserKind && UserPassOk(cfg, st, k, p)
    requires c.fault == Fine && UserCalm(st, p, c) && !StaleRead(st, k, OfUser(p), c)
    ensures var (st', o) := U.Step(cfg, st, k, p, c); Progress(cfg, st, k, r, OfUser(p), st', UserEnd(o))
  {
    hide LogsOk, Grows, TenantsInjective, Progress, UserPassOk, UserCalm;
    hide U.Read, U.Generate, U.Tenant, U.Row, U.Secret, U.Create, U.Update, U.Write;
    if p.AtWrite? {
      UserWriteProgress(cfg, st, k, r, p, c);
    } else if p.AtCreate? || p.AtUpdate? {
      UserApplyProgress(cfg, st, k, r, p, c);
    } else if p.AtSecret? {
      UserSecretProgress(cfg, st, k, r, p, c);
    } else {
      UserEarlyProgress(cfg, st, k, r, p, c);
    }
  }

  // ---- Every label ------------------------------------------------------------------------------

  lemma CallProgress(cfg: Config, st: Stores, k: Key, r: string, p: Pass, c: Choice)
    requires LogsOk(cfg, st) && PassOk(cfg, st, k, p) && Converging(cfg, k) && CalmCall(st, k, r, p, c)
    requires !StaleRead(st, k, p, c)
    ensures var (st', e) := PassStep(cfg, st, k, p, c); Progress(cfg, st, k, r, p, st', e)
  {
    hide LogsOk, Grows, TenantsInjective, Progress, S.Step, T.Step, U.Step, C.Step, A.Step, I.Step, D.Step;
    hide StreamPassOk, TenantPassOk, UserPassOk, ClientPassOk, AuthPassOk, InitPassOk, DataPlanePassOk;
    hide StreamCalm, TenantCalm, UserCalm, ClientCalm, Doomed;
    match p {
      case OfStream(p) => StreamProgress(cfg, st, k, r, p, c);
      case OfTenant(p) => TenantProgress(cfg, st, k, r, p, c);
      case OfUser(p) => UserProgress(cfg, st, k, r, p, c);
      case OfClient(p) => ClientProgress(cfg, st, k, r, p, c);
      case _ =>
    }
  }

  /** The resource is fixed, or something that will lead to it is on its way. */
  ghost predicate Settling(w: World, k: Key, r: string) {
    Fixed(w.cfg, w.st, k, r) || Undelivered(w.st, k) || k in w.queue || k in w.delayed
    || (k in w.passes && (Good(w.cfg, w.st, k, r, w.passes[k]) || Doomed(w.st, k, w.passes[k])))
  }

  predicate Idle(w: World, k: Key) {
    !Undelivered(w.st, k) && k !in w.queue && k !in w.delayed && k !in w.passes
  }

  /** The label moves resource `k` along. */
  predicate Applies(w: World, k: Key, l: Label) {
    match l
    case Deliver(j) => j == k && Undelivered(w.st, k)
    case Timer(j) => j == k && k in w.delayed
    case Start(j) => j == k && k in w.queue && k !in w.passes
    case Call(j, _) => j == k && k in w.passes
    case _ => false
  }

  lemma SeenAfterGrowth(st: Stores, st': Stores, k: Key)
    requires SeenOk(st) && Grows(st, st') && st'.seen == st.seen
    ensures Seen(st', k) == Seen(st, k) && Version(st.log, k) <= Version(st'.log, k)
  {
    Prefix(st, st', k);
  }

  lemma PassOfKind(cfg: Config, st: Stores, k: Key, r: string, p: Pass)
    requires Converging(cfg, k) && PassOk(cfg, st, k, p)
    ensures Cost(p) > 0 && (VersionOf(p).None? ==> Good(cfg, st, k, r, p))
  {
    hide StreamPassOk, TenantPassOk, UserPassOk, ClientPassOk, AuthPassOk, InitPassOk, DataPlanePassOk;
  }

  lemma OwnCallDrops(w: World, k: Key, r: string, c: Choice)
    requires Inv(w) && KeepsWork(w) && Converging(w.cfg, k) && k in w.passes
    requires CalmCall(w.st, k, r, w.passes[k], c) && !StaleRead(w.st, k, w.passes[k], c)
    ensures Measure(Next(w, Call(k, c)), k, r) < Measure(w, k, r)
    ensures Settling(w, k, r) ==> Settling(Next(w, Call(k, c)), k, r)
  {
    hide LogsOk, TenantsInjective, Grows, PassStep, PassOk, CalmCall, StaleRead, Doomed, Good, Fixed, Pending, SeenOk,
        Settled;
    assert PassOk(w.cfg, w.st, k, w.passes[k]);
    assert KeyOk(w, k);
    CallProgress(w.cfg, w.st, k, r, w.passes[k], c);
    PassStepSeen(w.cfg, w.st, k, w.passes[k], c);
    SeenAfterGrowth(w.st, Next(w, Call(k, c)).st, k);
    Prefix(w.st, PassStep(w.cfg, w.st, k, w.passes[k], c).0, k);
    PassOfKind(w.cfg, w.st, k, r, w.passes[k]);
    EndDrops(w, k, r, c);
  }

  lemma EndDrops(w: World, k: Key, r: string, c: Choice)
    requires k in w.passes && KeyOk(w, k) && Cost(w.passes[k]) > 0
    requires VersionOf(w.passes[k]).None? ==> Good(w.cfg, w.st, k, r, w.passes[k])
    requires var (st', e) := PassStep(w.cfg, w.st, k, w.passes[k], c);
      && Progress(w.cfg, w.st, k, r, w.passes[k], st', e)
      && Seen(st', k) == Seen(w.st, k) && Version(w.st.log, k) <= Version(st'.log, k)
      && LogOf(w.st.log, k) <= LogOf(st'.log, k)
    ensures Measure(Next(w, Call(k, c)), k, r) < Measure(w, k, r)
    ensures Settling(w, k, r) ==> Settling(Next(w, Call(k, c)), k, r)
  {
    hide LogsOk, TenantsInjective, Grows, PassStep, PassOk, CalmCall, Doomed, Good, Fixed, Pending, SeenOk, Settled,
        VersionOf, Cost;
    var (st', e) := PassStep(w.cfg, w.st, k, w.passes[k], c);
    match e {
      case Go(_) =>
      case Done =>
      case Retry =>
    }
  }

  lemma StreamStaleStep(cfg: Config, st: Stores, k: Key, p: S.StreamPass, c: Choice)
    requires p.Begin? && c.fault == Fine && cfg.database
    ensures var (st', o) := S.Step(cfg, st, k, p, c); st' == st && (o.Go? || o.Done?)
  {
    hide Grows, TenantsInjective;
  }

  lemma TenantStaleStep(cfg: Config, st: Stores, k: Key, p: T.TenantPass, c: Choice)
    requires p.Begin? && c.fault == Fine
    ensures var (st', o) := T.Step(cfg, st, k, p, c); st' == st && (o.Go? || o.Done?)
  {
    hide Grows, TenantsInjective;
  }

  lemma UserStaleStep(cfg: Config, st: Stores, k: Key, p: U.UserPass, c: Choice)
    requires (p.Begin? || p.AtSecret?) && c.fault == Fine
    ensures var (st', o) := U.Step(cfg, st, k, p, c);
      && st' == st && (o.Go? || o.Done?)
      && (p.AtSecret? ==>
            o.Go? && o.pass.ver == p.ver
                && (UserGood(st, k, o.pass) || UserDoomed(st, k, o.pass) || p.ver != Version(st.log, k)))
  {
    hide Grows, TenantsInjective, CreateSecret, UpdateSecret, UpdateStatus, EnsureTenant, EnsureUser, U.SecretName;
  }

  lemma ClientStaleStep(cfg: Config, st: Stores, k: Key, p: C.ClientPass, c: Choice)
    requires (p.Begin? || p.AtSecret?) && c.fault == Fine
    ensures var (st', o) := C.Step(cfg, st, k, p, c);
      && st' == st && (o.Go? || o.Done?)
      && (p.AtSecret? ==>
            o.Go? && o.pass.ver == p.ver
                && (ClientGood(st, k, o.pass) || ClientDoomed(st, k, o.pass) || p.ver != Version(st.log, k)))
  {
    hide Grows, CreateSecret, UpdateSecret, UpdateStatus, InsertClient;
  }

  /** A stale read changes nothing in the stores; a pass that was good will now fail at its
      Secret write and be retried, or what it missed is on its way. */
  lemma StaleStep(cfg: Config, st: Stores, k: Key, r: string, p: Pass, c: Choice)
    requires StaleRead(st, k, p, c) && CalmCall(st, k, r, p, c) && Converging(cfg, k) && PassOk(cfg, st, k, p)
    ensures !Doomed(st, k, p)
    ensures var (st', e) := PassStep(cfg, st, k, p, c);
      && st' == st && !e.Retry? && (e.Go? ==> Cost(e.pass) < Cost(p))
      && (e.Done? ==> Undelivered(st, k))
      && (Good(cfg, st, k, r, p) && Seen(st, k) == Version(st.log, k) ==>
            e.Go? && (Good(cfg, st, k, r, e.pass) || Doomed(st, k, e.pass)))
  {
    hide Grows, TenantsInjective, CreateSecret, UpdateSecret, UpdateStatus, InsertClient, EnsureTenant, CreateStream,
        CreateTopic;
    hide StreamPassOk, TenantPassOk, UserPassOk, ClientPassOk, AuthPassOk, InitPassOk, DataPlanePassOk;
    match p {
      case OfStream(p) => StreamStaleStep(cfg, st, k, p, c);
      case OfTenant(p) => TenantStaleStep(cfg, st, k, p, c);
      case OfUser(p) => UserStaleStep(cfg, st, k, p, c);
      case OfClient(p) => ClientStaleStep(cfg, st, k, p, c);
      case _ =>
    }
  }

  lemma OwnCallCosts(w: World, k: Key, r: string, c: Choice)
    requires Inv(w) && KeepsWork(w) && Converging(w.cfg, k) && k in w.passes
    requires CalmCall(w.st, k, r, w.passes[k], c) && StaleRead(w.st, k, w.passes[k], c)
    ensures Measure(Next(w, Call(k, c)), k, r) < Measure(w, k, r) + 45
    ensures Settling(w, k, r) ==> Settling(Next(w, Call(k, c)), k, r)
  {
    hide LogsOk, TenantsInjective, Grows, PassStep, PassOk, CalmCall, StaleRead, Doomed, Good, Fixed, Pending, Settled,
        KeyOk, Cost;
    assert PassOk(w.cfg, w.st, k, w.passes[k]);
    PassOfKind(w.cfg, w.st, k, r, w.passes[k]);
    StaleStep(w.cfg, w.st, k, r, w.passes[k], c);
    var (st', e) := PassStep(w.cfg, w.st, k, w.passes[k], c);
    match e {
      case Go(_) =>
      case Done =>
    }
  }

  lemma BeginIsGood(cfg: Config, st: Stores, k: Key, r: string)
    requires Converging(cfg, k)
    ensures Good(cfg, st, k, r, BeginOf(k.kind))
  {
  }

  /** Delivery, timer and start: the entry moves on and costs less there. */
  lemma RuntimeDrops(w: World, k: Key, r: string, l: Label)
    requires Converging(w.cfg, k) && SeenOk(w.st) && Applies(w, k, l) && !l.Call?
    ensures Measure(Next(w, l), k, r) < Measure(w, k, r)
    ensures Settling(w, k, r) ==> Settling(Next(w, l), k, r)
  {
    hide Grows, PassStep, Good, Cost, IsFixed, Changes;
    match l {
      case Deliver(_) => DeliverDrops(w, k, r);
      case Timer(_) =>
      case Start(_) => BeginIsGood(w.cfg, w.st, k, r);
    }
  }

  lemma DeliverDrops(w: World, k: Key, r: string)
    requires Undelivered(w.st, k)
    ensures Measure(Next(w, Deliver(k)), k, r) < Measure(w, k, r)
    ensures Settling(Next(w, Deliver(k)), k, r)
  {
    hide Grows, PassStep, Pending, Good, Cost;
    var w' := Next(w, Deliver(k));
    assert Seen(w'.st, k) == Seen(w.st, k) + 1 && w'.st == w.st.(seen := w'.st.seen);
    SeenIsNoMatter(w.cfg, w.st, w'.st, k, r);
  }

  /** The measure reads the cache only through what is undelivered. */
  lemma SeenIsNoMatter(cfg: Config, st: Stores, st': Stores, k: Key, r: string)
    requires st' == st.(seen := st'.seen)
    ensures Pending(cfg, st', k, r) == Pending(cfg, st, k, r)
    ensures forall p :: Good(cfg, st', k, r, p) == Good(cfg, st, k, r, p)
  {
  }

  // ---- What others do leaves it alone -------------------------------------------------------------

  /** The resource, its cache entry and its Secret are the same; the rest may have grown. */
  ghost predicate LeftAlone(st: Stores, st': Stores, k: Key) {
    && Grows(st, st') && LogOf(st'.log, k) == LogOf(st.log, k) && Seen(st', k) == Seen(st, k)
    && SameSecret(st, st', OwnSecret(st, k))
  }

  /** The Secret of a pass over the latest version is the resource's own. */
  lemma UserOwnSecret(cfg: Config, st: Stores, k: Key, p: U.UserPass)
    requires UserPassOk(cfg, st, k, p) && !p.Begin? && p.ver == Version(st.log, k)
    ensures OwnSecret(st, k) == Some(U.SecretName(k, p.u))
  {
    hide U.SecretGave, U.HasRow;
  }

  lemma GoodKept(cfg: Config, st: Stores, st': Stores, k: Key, r: string, p: Pass)
    requires LeftAlone(st, st', k) && PassOk(cfg, st, k, p) && Good(cfg, st, k, r, p)
    ensures Good(cfg, st', k, r, p)
  {
    hide LogsGrow, ClientSecretName, U.SecretName, U.SecretOf, S.PassOk, T.PassOk, UserPassOk, C.PassOk, Set;
    match p {
      case OfStream(p) =>
      case OfTenant(_) =>
      case OfUser(p) => if !p.Begin? { UserOwnSecret(cfg, st, k, p); }
      case OfClient(p) =>
      case _ =>
    }
  }

  lemma DoomedKept(cfg: Config, st: Stores, st': Stores, k: Key, p: Pass)
    requires LeftAlone(st, st', k) && PassOk(cfg, st, k, p)
    ensures Doomed(st', k, p) == Doomed(st, k, p)
  {
    hide Grows, ClientSecretName, U.SecretName, S.PassOk, T.PassOk, UserPassOk, C.PassOk, A.PassOk, I.PassOk, D.PassOk;
    if p.OfUser? && VersionOf(p) == Some(Version(st.log, k)) {
      UserOwnSecret(cfg, st, k, p.u);
    }
  }

  lemma LeftAloneKeeps(w: World, w': World, k: Key, r: string)
    requires Inv(w) && LeftAlone(w.st, w'.st, k) && w'.cfg == w.cfg
    requires k in w'.queue <==> k in w.queue
    requires k in w'.delayed <==> k in w.delayed
    requires k in w'.passes <==> k in w.passes
    requires k in w.passes ==> w'.passes[k] == w.passes[k]
    ensures Measure(w', k, r) <= Measure(w, k, r)
    ensures Settling(w, k, r) ==> Settling(w', k, r)
  {
    hide Good, Doomed, Pending, Cost, Fixed, Grows, PassOk, LogsOk, TenantsInjective;
    if k in w.passes {
      assert PassOk(w.cfg, w.st, k, w.passes[k]);
      if Good(w.cfg, w.st, k, r, w.passes[k]) {
        GoodKept(w.cfg, w.st, w'.st, k, r, w.passes[k]);
      }
      DoomedKept(w.cfg, w.st, w'.st, k, w.passes[k]);
    }
    FixedKept(w.cfg, w.st, w'.st, k, r);
  }

  /** A pass of another key writes another Secret. */
  lemma SecretLeftAlone(cfg: Config, st: Stores, j: Key, p: Pass, c: Choice, k: Key)
    requires LogsOk(cfg, st) && PassOk(cfg, st, j, p) && j != k && (k.kind == UserKind ==> !Meddles(st, k, j, p))
    ensures SameSecret(st, PassStep(cfg, st, j, p, c).0, OwnSecret(st, k))
  {
    hide LogsOk, Grows, TenantsInjective, S.Step, T.Step, U.Step, C.Step, A.Step, I.Step, D.Step;
    hide StreamPassOk, TenantPassOk, UserPassOk, ClientPassOk, AuthPassOk, InitPassOk, DataPlanePassOk;
    if OwnSecret(st, k).Some? {
      KindAt(cfg, st, k, Version(st.log, k));
      match p {
        case OfStream(_) =>
        case OfTenant(_) =>
        case OfUser(p) =>
          U.StepSecrets(cfg, st, j, p, c);
          if (p.AtCreate? || p.AtUpdate?) && k.kind == ClientKind { SecretNamesApart(k, j, p.u.spec.username); }
        case OfClient(p) =>
          C.StepSecrets(cfg, st, j, p, c);
          ClientSecretApart(st, j, k);
        case OfAuth(_) =>
        case OfInit(_) =>
        case OfDataPlane(_) =>
      }
    }
  }

  lemma ClientSecretApart(st: Stores, j: Key, k: Key)
    requires j != k && j.kind == ClientKind && (Latest(st.log, k).Some? ==> Latest(st.log, k).value.KindOf() == k.kind)
    ensures OwnSecret(st, k) != Some(ClientSecretName(j))
  {
    if k.kind == ClientKind {
      if ClientSecretName(j) == ClientSecretName(k) { SecretNamesInjective(j, k); }
    } else if OwnSecret(st, k).Some? {
      SecretNamesApart(j, k, Latest(st.log, k).value.user.spec.username);
    }
  }

  /** A pass of another key writes another log, unless it deletes `k`. */
  lemma LogLeftAlone(cfg: Config, st: Stores, j: Key, p: Pass, c: Choice, k: Key)
    requires PassOk(cfg, st, j, p) && j != k && (k.kind == UserKind ==> !Meddles(st, k, j, p))
    ensures LogOf(PassStep(cfg, st, j, p, c).0.log, k) == LogOf(st.log, k)
  {
    hide Grows, TenantsInjective, S.Step, T.Step, U.Step, C.Step, A.Step, I.Step, D.Step;
    hide StreamPassOk, TenantPassOk, UserPassOk, ClientPassOk, AuthPassOk, InitPassOk, DataPlanePassOk;
    match p {
      case OfStream(p) => S.StepWrites(cfg, st, j, p, c);
      case OfTenant(p) => T.StepWrites(cfg, st, j, p, c);
      case OfUser(p) => U.StepWrites(cfg, st, j, p, c);
      case OfClient(p) => C.StepWrites(cfg, st, j, p, c);
      case OfAuth(p) =>
        A.StepWrites(st, j, p, c);
        if p.AtDelete? && p.done < |p.listed| { ListedAreUsers(st, j, p); }
      case OfInit(p) => I.StepWrites(st, j, p, c);
      case OfDataPlane(p) => D.StepWrites(st, j, p, c);
    }
  }

  lemma OtherCallLeavesAlone(w: World, j: Key, c: Choice, k: Key)
    requires Inv(w) && KeepsWork(w) && j in w.passes && j != k
    requires k.kind == UserKind ==> !Meddles(w.st, k, j, w.passes[j])
    ensures LeftAlone(w.st, PassStep(w.cfg, w.st, j, w.passes[j], c).0, k)
  {
    hide LogsOk, TenantsInjective, Grows, PassStep, PassOk, KeyOk, SeenOk, OwnSecret, Meddles, SameSecret;
    assert PassOk(w.cfg, w.st, j, w.passes[j]);
    LogLeftAlone(w.cfg, w.st, j, w.passes[j], c, k);
    PassStepSeen(w.cfg, w.st, j, w.passes[j], c);
    SeenAfterGrowth(w.st, PassStep(w.cfg, w.st, j, w.passes[j], c).0, k);
    SecretLeftAlone(w.cfg, w.st, j, w.passes[j], c, k);
  }

  lemma EnvironmentLeavesAlone(st: Stores, k: Key, l: Label)
    requires SeenOk(st)
    requires match l
             case Create(j, _) => j != k
             case Edit(j, _) => j != k
             case Remove(j) => j != k
             case WriteSecret(n, _) => OwnSecret(st, k) != Some(n)
             case _ => true
    ensures LeftAlone(st, Environment(st, l), k)
  {
    hide Grows, SeenOk, Environment, Seen, OwnSecret;
    EnvironmentSeen(st, l);
    EnvironmentLog(st, k, l);
    if OwnSecret(st, k).Some? {
      EnvironmentSecret(st, OwnSecret(st, k).value, l);
    }
    SeenAfterGrowth(st, Environment(st, l), k);
  }

  lemma EnvironmentLog(st: Stores, k: Key, l: Label)
    requires l.Create? || l.Edit? || l.Remove? ==> l.k != k
    ensures LogOf(Environment(st, l).log, k) == LogOf(st.log, k)
  {
    hide Grows, LogsGrow, Commit, LogOf;
  }

  lemma EnvironmentSecret(st: Stores, n: Name, l: Label)
    requires l.WriteSecret? ==> l.n != n
    ensures LogOf(Environment(st, l).secrets, n) == LogOf(st.secrets, n)
  {
    hide Grows, LogsGrow;
  }

  lemma OthersKeep(w: World, k: Key, r: string, l: Label)
    requires Inv(w) && KeepsWork(w) && Converging(w.cfg, k) && Calm(w, k, r, l) && !Applies(w, k, l)
    ensures Measure(Next(w, l), k, r) <= Measure(w, k, r)
    ensures Settling(w, k, r) ==> Settling(Next(w, l), k, r)
  {
    hide Inv, Grows, PassStep, Environment, KeyOk, Measure, Settling, CalmCall, OwnSecret, Meddles;
    GrowsReflexive(w.st);
    if l.Call? {
      if l.k in w.passes {
        OtherCallLeavesAlone(w, l.k, l.c, k);
      }
    } else if !l.Deliver? && !l.Timer? && !l.Start? && !l.Abort? {
      EnvironmentLeavesAlone(w.st, k, l);
    }
    LeftAloneKeeps(w, Next(w, l), k, r);
  }

  /** The label is a stale read of the resource's own pass. */
  predicate Misleads(w: World, k: Key, l: Label) {
    l.Call? && l.k == k && k in w.passes && StaleRead(w.st, k, w.passes[k], l.c)
  }

  /** Every calm label that moves the resource lowers the measure, except that a stale read may
      raise it by what one more pass costs; no other label raises it. */
  lemma NextDrops(w: World, k: Key, r: string, l: Label)
    requires Inv(w) && KeepsWork(w) && Converging(w.cfg, k) && Calm(w, k, r, l)
    ensures Measure(Next(w, l), k, r) + (if Applies(w, k, l) then 1 else 0)
            <= Measure(w, k, r) + (if Misleads(w, k, l) then 45 else 0)
    ensures Settling(w, k, r) ==> Settling(Next(w, l), k, r)
  {
    hide Inv, Next, KeyOk, Measure, Settling, CalmCall, StaleRead, Undelivered;
    if !Applies(w, k, l) {
      OthersKeep(w, k, r, l);
    } else if l.Call? {
      if StaleRead(w.st, k, w.passes[k], l.c) {
        OwnCallCosts(w, k, r, l.c);
      } else {
        OwnCallDrops(w, k, r, l.c);
      }
    } else {
      RuntimeDrops(w, k, r, l);
    }
  }

  /** How many labels of the run move `k` along. */
  function Turns(w: World, k: Key, ls: seq<Label>): nat
    decreases |ls|
  {
    if ls == [] then 0 else (if Applies(w, k, ls[0]) then 1 else 0) + Turns(Next(w, ls[0]), k, ls[1..])
  }

  function StaleReads(w: World, k: Key, ls: seq<Label>): nat
    decreases |ls|
  {
    if ls == [] then 0 else (if Misleads(w, k, ls[0]) then 1 else 0) + StaleReads(Next(w, ls[0]), k, ls[1..])
  }

  /** In a calm run the measure and the number of stale reads bound the turns `k` takes,
      whatever the others do, so the loop ends once the cache keeps up; and it stays true that
      `k` is fixed or about to be. */
  lemma {:induction false} Converges(w: World, k: Key, r: string, ls: seq<Label>)
    requires Inv(w) && KeepsWork(w) && Converging(w.cfg, k) && CalmRun(w, k, r, ls)
    ensures Turns(w, k, ls) + Measure(Exec(w, ls), k, r) <= Measure(w, k, r) + 45 * StaleReads(w, k, ls)
    ensures Settling(w, k, r) ==> Settling(Exec(w, ls), k, r)
    decreases |ls|
  {
    hide Inv, KeepsWork, Next, Measure, Settling, Calm, Applies, Misleads;
    if ls != [] {
      NextInv(w, ls[0]);
      NextKeepsWork(w, ls[0]);
      NextDrops(w, k, r, ls[0]);
      Converges(Next(w, ls[0]), k, r, ls[1..]);
    }
  }

  /** `k` is idle exactly when no label moves it along. */
  lemma IdleIffNothingApplies(w: World, k: Key)
    ensures Idle(w, k) <==> forall l :: !Applies(w, k, l)
  {
    if forall l :: !Applies(w, k, l) {
      assert !Applies(w, k, Deliver(k)) && !Applies(w, k, Timer(k)) && !Applies(w, k, Start(k));
      assert !Applies(w, k, Call(k, Choice(Fine, "", "", 0, 0, [], false, false)));
    }
  }

  /** The row that the latest status names, if `k` is a stream. */
  function ShownRow(st: Stores, k: Key, r: string): string {
    if Latest(st.log, k).Some? && Latest(st.log, k).value.StreamR?
    then Latest(st.log, k).value.stream.status.streamID
    else r
  }

  /** From any reachable world, through a calm run, stale reads included: once no label moves
      `k` along any more, it is at its goal. A tenant and a stream are then fixed, whatever was
      in flight when the calm began. A user or a client is if it was due for a pass then, and so is a
      stream with the row `r`. */
  lemma EndsFixed(w: World, before: seq<Label>, k: Key, r: string, calm: seq<Label>)
    requires Initial(w) && Converging(w.cfg, k)
    requires CalmRun(Exec(w, before), k, r, calm) && forall l :: !Applies(Exec(Exec(w, before), calm), k, l)
    ensures var v := Exec(Exec(w, before), calm);
      && Settled(v.cfg, v.st, k)
      && (k.kind == TenantKind || k.kind == StreamKind ==> Fixed(v.cfg, v.st, k, ShownRow(v.st, k, r)))
      && (Settling(Exec(w, before), k, r) ==> Fixed(v.cfg, v.st, k, r))
    ensures Turns(Exec(w, before), k, calm)
            <= Measure(Exec(w, before), k, r) + 45 * StaleReads(Exec(w, before), k, calm)
  {
    hide Inv, KeepsWork, Next, Measure, Fixed, Undelivered, Good, Doomed, CalmRun, Initial, Applies, NoLostWork.Settled;
    InitialKeepsWork(w);
    InitialInv(w);
    ExecKeepsWork(w, before);
    ExecInv(w, before);
    ExecConfig(w, before);
    Converges(Exec(w, before), k, r, calm);
    var v := Exec(Exec(w, before), calm);
    IdleIffNothingApplies(v, k);
    ExecConcat(w, before, calm);
    ExecInv(w, before + calm);
    WorkIsTracked(w, before + calm, k);
    if k.kind == TenantKind || k.kind == StreamKind {
      SettledIsFixed(v, k, r);
    }
  }

  /** A stream or a tenant at its goal is fixed. */
  lemma SettledIsFixed(w: World, k: Key, r: string)
    requires Inv(w) && (k.kind == TenantKind || k.kind == StreamKind) && Settled(w.cfg, w.st, k)
    ensures Fixed(w.cfg, w.st, k, ShownRow(w.st, k, r))
  {
    hide LogsOk, TenantsInjective, PassOk, S.ShowsSuccess, Unique, Before, IsTrue;
    if Latest(w.st.log, k).Some? {
      KindAt(w.cfg, w.st, k, Version(w.st.log, k));
    }
  }

  // ---- Where it ends, another pass changes nothing -----------------------------------------------------

  lemma TenantUnchanged(cfg: Config, st: Stores, k: Key, r: string, ch: nat -> Choice)
    requires LogsOk(cfg, st) && k.kind == TenantKind && cfg.database && Fixed(cfg, st, k, r)
    requires Seen(st, k) == Version(st.log, k) && forall n :: ch(n).fault == Fine
    ensures T.Run(cfg, st, k, T.Begin, ch, 0) == (st, T.Done)
  {
    hide LogsOk, Grows;
    if Latest(st.log, k).Some? {
      KindAt(cfg, st, k, Version(st.log, k));
      var t := Latest(st.log, k).value.tenant;
      var ver := Version(st.log, k);
      assert T.Step(cfg, st, k, T.Begin, ch(0)) == (st, T.Go(T.AtEnsure(ver, t)));
      assert T.Step(cfg, st, k, T.AtEnsure(ver, t), ch(1)) == (st, T.Done);
    }
  }

  lemma StreamUnchanged(cfg: Config, st: Stores, k: Key, r: string, ch: nat -> Choice)
    requires LogsOk(cfg, st) && k.kind == StreamKind && cfg.database && Fixed(cfg, st, k, r)
    requires Seen(st, k) == Version(st.log, k) && forall n :: ch(n).fault == Fine && ch(n).id == r != ""
    ensures S.Run(cfg, st, k, S.Begin, ch, 0) == (st, S.Done)
  {
    hide LogsOk, Grows, S.StatusOk, S.Reported, S.MadeReady, StreamFixed;
    if Latest(st.log, k).Some? {
      KindAt(cfg, st, k, Version(st.log, k));
      var s := Latest(st.log, k).value.stream;
      var ver := Version(st.log, k);
      RemadeReady(cfg, st, s, r, st.clock);
      var id := st.tenants[s.spec.tenantID];
      assert S.Step(cfg, st, k, S.Begin, ch(0)) == (st, S.Go(S.AtTenant(ver, s)));
      assert S.Step(cfg, st, k, S.AtTenant(ver, s), ch(1)) == (st, S.Go(S.AtRow(ver, s, id)));
      RowUnchanged(cfg, st, k, r, s, ch);
    }
  }

  lemma RowUnchanged(cfg: Config, st: Stores, k: Key, r: string, s: FrkrStream, ch: nat -> Choice)
    requires Latest(st.log, k) == Some(StreamR(s)) && StreamFixed(cfg, st, s, r)
    requires forall n :: ch(n).fault == Fine && ch(n).id == r != ""
    ensures s.spec.tenantID in st.tenants
    ensures S.Run(cfg, st, k, S.AtRow(Version(st.log, k), s, st.tenants[s.spec.tenantID]), ch, 2) == (st, S.Done)
  {
    hide Grows, S.StatusOk, S.Reported, S.MadeReady, StreamFixed;
    var ver := Version(st.log, k);
    RemadeReady(cfg, st, s, r, st.clock);
    var id, topic := st.tenants[s.spec.tenantID], s.status.topic;
    if cfg.broker {
      assert st.(topics := st.topics + {topic}) == st;
      assert S.Step(cfg, st, k, S.AtRow(ver, s, id), ch(2)) == (st, S.Go(S.AtTopic(ver, s, r, topic)));
      assert S.Step(cfg, st, k, S.AtTopic(ver, s, r, topic), ch(3)) == (st, S.Go(S.AtReady(ver, s)));
      assert S.Step(cfg, st, k, S.AtReady(ver, s), ch(4)) == (st, S.Done);
      assert S.Run(cfg, st, k, S.AtTopic(ver, s, r, topic), ch, 3) == (st, S.Done);
    } else {
      assert S.Step(cfg, st, k, S.AtRow(ver, s, id), ch(2)) == (st, S.Go(S.AtReady(ver, s)));
      assert S.Step(cfg, st, k, S.AtReady(ver, s), ch(3)) == (st, S.Done);
    }
  }

  lemma RemadeReady(cfg: Config, st: Stores, s: FrkrStream, r: string, now: nat)
    requires StreamFixed(cfg, st, s, r)
    ensures S.MadeReady(s, r, s.status.topic, now) == s
    ensures S.Provisioned(cfg, st, s.spec, s.status) && r == s.status.streamID
  {
    hide Set;
    SetIsIdle(s.status.conditions, S.Success(s.status.topic, now));
  }

  /** A call that works, sees the latest Secret, and generates a text. */
  ghost predicate UserWorks(st: Stores, k: Key, x: FrkrUser, c: Choice) {
    c.fault == Fine && c.text != "" && c.at >= Version(st.secrets, U.SecretName(k, x))
  }

  /** The password of a pass over `x`: the spec's, or the text it generates. */
  function Effective(x: FrkrUser, text: string): string {
    if x.spec.password != "" then x.spec.password else text
  }

  function WithSecret(st: Stores, k: Key, x: FrkrUser, password: string): Stores {
    st.(secrets := Commit(st.secrets, U.SecretName(k, x), Some(U.SecretOf(x, password))))
  }

  lemma UserFromSecret(cfg: Config, st: Stores, k: Key, x: FrkrUser, password: string, ch: nat -> Choice, n: nat)
    requires Latest(st.log, k) == Some(UserR(x)) && Latest(st.secrets, U.SecretName(k, x)).Some?
    requires forall n :: UserWorks(st, k, x, ch(n))
    ensures U.Run(cfg, st, k, U.AtSecret(Version(st.log, k), x, password), ch, n)
            == (WithSecret(st, k, x, password), U.Done)
  {
    hide Grows, LogsGrow, TenantsInjective, U.SecretOf, U.SecretName;
    var ver, v := Version(st.log, k), Version(st.secrets, U.SecretName(k, x));
    var st' := WithSecret(st, k, x, password);
    assert UserWorks(st, k, x, ch(n)) && UserWorks(st, k, x, ch(n + 1)) && UserWorks(st, k, x, ch(n + 2));
    assert U.Step(cfg, st, k, U.AtSecret(ver, x, password), ch(n)) == (st, U.Go(U.AtUpdate(ver, x, password, v)));
    assert U.Step(cfg, st, k, U.AtUpdate(ver, x, password, v), ch(n + 1)) == (st', U.Go(U.AtWrite(ver, x, password)));
    assert U.Step(cfg, st', k, U.AtWrite(ver, x, password), ch(n + 2)) == (st', U.Done);
    assert U.Run(cfg, st, k, U.AtUpdate(ver, x, password, v), ch, n + 1) == (st', U.Done);
  }

  /** What `CreateUser` may do to a row that is there. */
  predicate RowKept(st: Stores, x: FrkrUser, password: string, c: Choice) {
    x.spec.tenantID in st.tenants ==>
      var key := (st.tenants[x.spec.tenantID], x.spec.username);
      key in st.userRows ==> c.number == 1 || (c.number > 1 && st.userRows[key] == password)
  }

  lemma UserFromTenant(cfg: Config, st: Stores, k: Key, x: FrkrUser, password: string, ch: nat -> Choice, n: nat)
    requires Latest(st.log, k) == Some(UserR(x)) && UserFixed(cfg, st, k, x) && cfg.database
    requires forall n :: UserWorks(st, k, x, ch(n)) && RowKept(st, x, password, ch(n))
    ensures U.Run(cfg, st, k, U.AtTenant(Version(st.log, k), x, password), ch, n)
            == (WithSecret(st, k, x, password), U.Done)
  {
    hide Grows, LogsGrow, TenantsInjective, U.SecretOf, U.SecretName, WithSecret;
    var ver := Version(st.log, k);
    assert UserWorks(st, k, x, ch(n)) && RowKept(st, x, password, ch(n + 1)) && UserWorks(st, k, x, ch(n + 1));
    var id := st.tenants[x.spec.tenantID];
    assert st.userRows[(id, x.spec.username) := st.userRows[(id, x.spec.username)]] == st.userRows;
    assert U.Step(cfg, st, k, U.AtTenant(ver, x, password), ch(n)) == (st, U.Go(U.AtRow(ver, x, password, id)));
    assert U.Step(cfg, st, k, U.AtRow(ver, x, password, id), ch(n + 1)) == (st, U.Go(U.AtSecret(ver, x, password)));
    UserFromSecret(cfg, st, k, x, password, ch, n + 2);
    assert U.Run(cfg, st, k, U.AtRow(ver, x, password, id), ch, n + 1) == (WithSecret(st, k, x, password), U.Done);
  }

  lemma UserFromChosen(cfg: Config, st: Stores, k: Key, x: FrkrUser, password: string, ch: nat -> Choice, n: nat)
    requires Latest(st.log, k) == Some(UserR(x)) && UserFixed(cfg, st, k, x)
    requires forall n :: UserWorks(st, k, x, ch(n)) && RowKept(st, x, password, ch(n))
    ensures U.Run(cfg, st, k, U.Chosen(cfg, Version(st.log, k), x, password), ch, n)
            == (WithSecret(st, k, x, password), U.Done)
  {
    hide U.Run, U.SecretOf, U.SecretName, WithSecret, Grows;
    if cfg.database {
      UserFromTenant(cfg, st, k, x, password, ch, n);
    } else {
      UserFromSecret(cfg, st, k, x, password, ch, n);
    }
  }

  /** Where the loop ends for a user, another whole pass that keeps the row writes its password
      into the Secret and nothing else: nothing new if the spec gives it, and otherwise the
      text it generates. The status stays in either case. */
  lemma UserUnchanged(cfg: Config, st: Stores, k: Key, r: string, x: FrkrUser, ch: nat -> Choice)
    requires Latest(st.log, k) == Some(UserR(x)) && Fixed(cfg, st, k, r) && Seen(st, k) == Version(st.log, k)
    requires forall n :: UserWorks(st, k, x, ch(n)) && RowKept(st, x, Effective(x, ch(1).text), ch(n))
    ensures U.Run(cfg, st, k, U.Begin, ch, 0) == (WithSecret(st, k, x, Effective(x, ch(1).text)), U.Done)
    ensures x.spec.password != "" ==> U.Run(cfg, st, k, U.Begin, ch, 0) == (st, U.Done)
  {
    hide Grows, LogsGrow, TenantsInjective, U.SecretOf, U.SecretName, U.Chosen;
    var ver, password := Version(st.log, k), Effective(x, ch(1).text);
    assert UserWorks(st, k, x, ch(0)) && UserWorks(st, k, x, ch(1));
    assert U.WithPassword(x, password) == x;
    if x.spec.password == "" {
      UserFromChosen(cfg, st, k, x, password, ch, 2);
      assert U.Generated(x) == x;
      assert U.Step(cfg, st, k, U.Begin, ch(0)) == (st, U.Go(U.AtGenerate(ver, x)));
      assert U.Step(cfg, st, k, U.AtGenerate(ver, x), ch(1)) == (st, U.Go(U.Chosen(cfg, ver, x, password)));
      assert U.Run(cfg, st, k, U.AtGenerate(ver, x), ch, 1)
          == U.Run(cfg, st, k, U.Chosen(cfg, ver, x, password), ch, 2);
    } else {
      UserFromChosen(cfg, st, k, x, password, ch, 1);
      assert U.Step(cfg, st, k, U.Begin, ch(0)) == (st, U.Go(U.Chosen(cfg, ver, x, password)));
    }
  }

  lemma ClientUnchanged(cfg: Config, st: Stores, k: Key, r: string, ch: nat -> Choice)
    requires LogsOk(cfg, st) && k.kind == ClientKind && Fixed(cfg, st, k, r)
    requires Seen(st, k) == Version(st.log, k)
    requires forall n :: ch(n).fault == Fine && ch(n).at >= Version(st.secrets, ClientSecretName(k))
    ensures C.Run(cfg, st, k, C.Begin, ch, 0) == (st, C.Done)
  {
    hide LogsOk, Grows, C.SecretOf, ClientSecretName;
    if Latest(st.log, k).Some? {
      KindAt(cfg, st, k, Version(st.log, k));
      var x := Latest(st.log, k).value.client;
      var ver := Version(st.log, k);
      var v := C.Held(Latest(st.secrets, ClientSecretName(k)).value);
      if x.spec.secret == "" {
        assert C.Step(cfg, st, k, C.Begin, ch(0)) == (st, C.Go(C.AtEarly(ver, x)));
        assert C.Step(cfg, st, k, C.AtEarly(ver, x), ch(1)) == (st, C.Go(C.Chosen(cfg, ver, x, v)));
        ChosenUnchanged(cfg, st, k, x, v, ch, 2);
        assert C.Run(cfg, st, k, C.AtEarly(ver, x), ch, 1) == (st, C.Done);
      } else {
        assert C.Step(cfg, st, k, C.Begin, ch(0)) == (st, C.Go(C.Chosen(cfg, ver, x, v)));
        ChosenUnchanged(cfg, st, k, x, v, ch, 1);
      }
    }
  }

  lemma ChosenUnchanged(cfg: Config, st: Stores, k: Key, x: FrkrClient, v: string, ch: nat -> Choice, n: nat)
    requires Latest(st.log, k) == Some(ClientR(x)) && ClientRegistered(cfg, st, x)
    requires Latest(st.secrets, ClientSecretName(k)) == Some(C.SecretOf(x.spec, v))
    requires forall n :: ch(n).fault == Fine && ch(n).at >= Version(st.secrets, ClientSecretName(k))
    ensures C.Run(cfg, st, k, C.Chosen(cfg, Version(st.log, k), x, v), ch, n) == (st, C.Done)
  {
    hide Grows, C.SecretOf, ClientSecretName;
    var ver := Version(st.log, k);
    if cfg.database {
      assert C.MadeReady(x, st.clientRows[C.RowKeyOf(x.spec)].id) == x;
      assert C.Step(cfg, st, k, C.AtInsert(ver, x, v), ch(n)) == (st, C.Go(C.AtFetch(ver, x, v)));
      assert C.Step(cfg, st, k, C.AtFetch(ver, x, v), ch(n + 1)) == (st, C.Go(C.AtSecret(ver, x, v)));
      SecretUnchanged(cfg, st, k, x, v, ch, n + 2);
      assert C.Run(cfg, st, k, C.AtFetch(ver, x, v), ch, n + 1) == (st, C.Done);
    } else {
      SecretUnchanged(cfg, st, k, x, v, ch, n);
    }
  }

  lemma SecretUnchanged(cfg: Config, st: Stores, k: Key, x: FrkrClient, v: string, ch: nat -> Choice, n: nat)
    requires Latest(st.log, k) == Some(ClientR(x))
    requires Latest(st.secrets, ClientSecretName(k)) == Some(C.SecretOf(x.spec, v))
    requires forall n :: ch(n).fault == Fine && ch(n).at >= Version(st.secrets, ClientSecretName(k))
    ensures C.Run(cfg, st, k, C.AtSecret(Version(st.log, k), x, v), ch, n) == (st, C.Done)
  {
    hide Grows, C.SecretOf, ClientSecretName;
    var ver := Version(st.log, k);
    var sv := Version(st.secrets, ClientSecretName(k));
    assert C.Step(cfg, st, k, C.AtSecret(ver, x, v), ch(n)) == (st, C.Go(C.AtUpdate(ver, x, v, sv)));
    assert C.Step(cfg, st, k, C.AtUpdate(ver, x, v, sv), ch(n + 1)) == (st, C.Go(C.AtWrite(ver, x)));
    assert C.Step(cfg, st, k, C.AtWrite(ver, x), ch(n + 2)) == (st, C.Done);
    assert C.Run(cfg, st, k, C.AtUpdate(ver, x, v, sv), ch, n + 1) == (st, C.Done);
  }
}
