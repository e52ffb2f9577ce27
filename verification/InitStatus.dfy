/** What an init resource shows of its migrations: version and dirtiness as the version call
    answered, whatever they are. A dirty migration does not keep it from becoming ready, and a
    failure after that does not take Ready back. */
module InitStatus {
  import opened Base
  import opened Conditions
  import opened Resources
  import opened Stores
  import opened Machine
  import opened Invariant
  import opened Flights
  import I = InitController

  // ---- Dirtiness shows, over runs -------------------------------------------------------

  /** A pass past its version call, over version `ver` of its resource; `printed` is the version
      that its condition shows. */
  ghost predicate ShowsVersion(p: I.InitPass, ver: nat, version: nat, dirty: bool, printed: nat) {
    && (p.AtGateway? || p.AtWaiting? || p.AtReady?)
    && p.ver == ver && p.i.status.version == version && p.i.status.dirty == dirty
    && (p.AtGateway? ==> p.version == printed)
    && (p.AtReady? ==> I.ShowsSuccess(p.i.status, printed))
  }

  ghost predicate IsShowing(p: Pass, ver: nat, version: nat, dirty: bool, printed: nat) {
    p.OfInit? && ShowsVersion(p.i, ver, version, dirty, printed)
  }

  lemma StepShows(st: Stores, k: Key, p: I.InitPass, c: Choice, ver: nat, version: nat, dirty: bool, printed: nat)
    requires ShowsVersion(p, ver, version, dirty, printed) && I.Step(st, k, p, c).1.Go?
    ensures ShowsVersion(I.Step(st, k, p, c).1.pass, ver, version, dirty, printed)
  {
    hide Grows, Set, I.ShowsSuccess;
    if p.AtGateway? {
      I.InitializedShows(p.i, p.version, st.clock);
    }
  }

  lemma ShowingIsClosed(k: Key, ver: nat, version: nat, dirty: bool, printed: nat)
    ensures Closed(k, p => IsShowing(p, ver, version, dirty, printed))
  {
    hide I.Step, Grows, TenantsInjective, ShowsVersion;
    forall cfg: Config, st: Stores, p: Pass, c: Choice | IsShowing(p, ver, version, dirty, printed)
        && PassStep(cfg, st, k, p, c).1.Go?
      ensures IsShowing(PassStep(cfg, st, k, p, c).1.pass, ver, version, dirty, printed)
    {
      StepShows(st, k, p.i, c, ver, version, dirty, printed);
    }
  }

  /** The pass of `k` asks for the version with its next call. */
  ghost predicate Asks(v: World, k: Key) {
    k in v.passes && v.passes[k].OfInit? && v.passes[k].i.AtVersion?
  }

  /** The version call's answer; a failed one leaves what the status showed before. */
  function VersionOf(before: InitStatus, c: Choice): nat {
    if c.fault == Fine then c.number else before.version
  }

  /** What the ready condition prints: zero if the call failed. */
  function PrintedOf(c: Choice): nat {
    if c.fault == Fine then c.number else 0
  }

  function DirtyOf(before: InitStatus, c: Choice): bool {
    if c.fault == Fine then c.flag else before.dirty
  }

  lemma VersionStep(st: Stores, k: Key, p: I.InitPass, c: Choice)
    requires p.AtVersion?
    ensures I.Step(st, k, p, c).1.Go?
    ensures ShowsVersion(I.Step(st, k, p, c).1.pass, p.ver, VersionOf(p.i.status, c), DirtyOf(p.i.status, c),
            PrintedOf(c))
  {
    hide Grows, Set, I.ShowsSuccess;
    I.InitializedShows(p.i, 0, st.clock);
    I.InitializedShows(p.i.(status := p.i.status.(version := c.number, dirty := c.flag)), c.number, st.clock);
  }

  /** The pass goes on whatever the call answers. */
  lemma VersionCall(v: World, k: Key, c: Choice)
    requires Asks(v, k)
    ensures var p := v.passes[k].i;
      && k in Next(v, Call(k, c)).passes
      && IsShowing(Next(v, Call(k, c)).passes[k], p.ver, VersionOf(p.i.status, c), DirtyOf(p.i.status, c), PrintedOf(c))
  {
    hide Grows, TenantsInjective, I.Step, ShowsVersion, VersionOf, DirtyOf;
    VersionStep(v.st, k, v.passes[k].i, c);
  }

  /** What the pass read is still there. */
  lemma AsksOver(v: World, k: Key)
    requires Inv(v) && Asks(v, k)
    ensures ReadOf(v.st, k, v.passes[k].i.ver) == Some(InitR(v.passes[k].i.i))
  {
    hide LogsOk, TenantsInjective, I.UrlFor;
    assert PassOk(v.cfg, v.st, k, v.passes[k]);
  }

  /** The pass of `k` writes the ready status with this call, and is done. */
  ghost predicate Completes(z: World, k: Key, d: Choice) {
    k in z.passes && z.passes[k].OfInit? && z.passes[k].i.AtReady? && I.Step(z.st, k, z.passes[k].i, d).1.Done?
  }

  lemma ReadyStep(st: Stores, k: Key, p: I.InitPass, d: Choice)
    requires p.AtReady? && I.Step(st, k, p, d).1.Done?
    ensures p.ver == Version(st.log, k) && Latest(I.Step(st, k, p, d).0.log, k) == Some(InitR(p.i))
  {
    hide Grows;
  }

  /** The call `d` replaces a status by a ready one that shows version and dirtiness as the
      version call `c` decided. */
  ghost predicate ReadyWith(z: World, k: Key, d: Choice, c: Choice) {
    var b := Latest(Next(z, Call(k, d)).st.log, k);
    var a := Latest(z.st.log, k);
    && a.Some? && a.value.InitR? && b.Some? && b.value.InitR?
    && b.value.init.spec == a.value.init.spec
    && b.value.init.status.phase == "Initialized"
    && I.ShowsSuccess(b.value.init.status, if c.fault == Fine then c.number else 0)
    && b.value.init.status.version == (if c.fault == Fine then c.number else a.value.init.status.version)
    && (b.value.init.status.dirty <==> (c.fault == Fine && c.flag) || (c.fault != Fine && a.value.init.status.dirty))
  }

  lemma CompletedFrom(z: World, k: Key, d: Choice, c: Choice, a: FrkrInit)
    requires Inv(z) && Completes(z, k, d)
    requires IsShowing(z.passes[k], z.passes[k].i.ver, VersionOf(a.status, c), DirtyOf(a.status, c), PrintedOf(c))
    requires ReadOf(z.st, k, z.passes[k].i.ver) == Some(InitR(a))
    ensures ReadyWith(z, k, d, c)
  {
    hide LogsOk, TenantsInjective, I.Step, Grows, I.Verified, I.StatusOk, I.ShowsSuccess, I.ShowsWaiting,
        I.ShowsFailure;
    hide IsTrue, Follows;
    ReadyStep(z.st, k, z.passes[k].i, d);
    assert PassOk(z.cfg, z.st, k, z.passes[k]);
  }

  lemma SameRead(a: Stores, b: Stores, k: Key, ver: nat)
    requires Grows(a, b) && ver < |LogOf(a.log, k)|
    ensures ReadOf(b, k, ver) == ReadOf(a, k, ver)
  {
    assert LogOf(a.log, k) <= LogOf(b.log, k);
  }

  /** In any run: a pass that asks for the version and completes commits Initialized and Ready;
      and the status is dirty exactly when the call worked and answered so, or failed and the
      replaced status was dirty already. */
  lemma ReadyShowsDirty(w: World, before: seq<Label>, v: World, c: Choice, between: seq<Label>, z: World, k: Key,
      d: Choice)
    requires Initial(w) && v == Exec(w, before) && Asks(v, k)
    requires z == Exec(Next(v, Call(k, c)), between) && Lasts(Next(v, Call(k, c)), k, between) && Completes(z, k, d)
    ensures ReadyWith(z, k, d, c)
  {
    hide Next, Inv, Initial, Lasts, Completes, ReadyWith, ShowsVersion, Closed, Grows, VersionOf, DirtyOf;
    Reachable(w, before);
    AsksOver(v, k);
    VersionCall(v, k, c);
    var a, ver := v.passes[k].i.i, v.passes[k].i.ver;
    var u := Next(v, Call(k, c));
    ShowingIsClosed(k, ver, VersionOf(a.status, c), DirtyOf(a.status, c), PrintedOf(c));
    LastsKeeps(u, k, between, p => IsShowing(p, ver, VersionOf(a.status, c), DirtyOf(a.status, c), PrintedOf(c)));
    NextInv(v, Call(k, c));
    ExecInv(u, between);
    SameRead(v.st, u.st, k, ver);
    ExecGrows(u, between);
    SameRead(u.st, z.st, k, ver);
    ShowsOver(z.passes[k].i, ver, VersionOf(a.status, c), DirtyOf(a.status, c), PrintedOf(c));
    CompletedFrom(z, k, d, c, a);
  }

  lemma ShowsOver(p: I.InitPass, ver: nat, version: nat, dirty: bool, printed: nat)
    requires ShowsVersion(p, ver, version, dirty, printed)
    ensures !p.Begin? && p.ver == ver
  {
  }

  // ---- Dirtiness keeps nothing from becoming ready ----------------------------------------

  /** The read of a gateway's deployment finds available replicas. */
  predicate SeesUp(st: Stores, n: Name, c: Choice) {
    GetDeployment(st, n, c).Found? && GetDeployment(st, n, c).value > 0
  }

  function Shown(i: FrkrInit, version: nat, dirty: bool): FrkrInit {
    i.(status := i.status.(version := version, dirty := dirty))
  }

  lemma ReadyWrite(st: Stores, k: Key, ver: nat, j: FrkrInit, url: string, c: Choice)
    requires ver == Version(st.log, k) && Latest(st.log, k).Some? && c.fault == Fine
    ensures I.Step(st, k, I.AtReady(ver, j, url), c) == (st.(log := Commit(st.log, k, Some(InitR(j)))), I.Done)
  {
    hide Grows, LogsGrow;
  }

  lemma GatewayUp(st: Stores, k: Key, ver: nat, i: FrkrInit, url: string, version: nat, next: nat, c: Choice)
    requires next < |i.spec.gateways| && SeesUp(st, Name(k.namespace, i.spec.gateways[next]), c)
    ensures I.Polling(st.clock, ver, i, url, version, next).AtGateway?
    ensures I.Step(st, k, I.Polling(st.clock, ver, i, url, version, next), c)
            == (st, I.Go(I.Polling(st.clock, ver, i, url, version, next + 1)))
  {
    hide Grows, Set;
  }

  /** From gateway `next` on, every gateway is seen up: the pass writes Ready. */
  lemma {:induction false} GatewaysThenReady(st: Stores, k: Key, ver: nat, i: FrkrInit, url: string, version: nat,
      next: nat, ch: nat -> Choice, n: nat)
    requires next <= |i.spec.gateways| && ver == Version(st.log, k) && Latest(st.log, k).Some?
    requires forall j :: next <= j < |i.spec.gateways| ==> SeesUp(st, Name(k.namespace, i.spec.gateways[j]), ch(n + j))
    requires ch(n + |i.spec.gateways|).fault == Fine
    ensures I.Run(st, k, I.Polling(st.clock, ver, i, url, version, next), ch, n + next)
            == (st.(log := Commit(st.log, k, Some(InitR(I.Initialized(i, version, st.clock))))), I.Done)
    decreases |i.spec.gateways| - next
  {
    hide Grows, Set, Commit, I.Initialized, I.Step, SeesUp;
    if next == |i.spec.gateways| {
      ReadyWrite(st, k, ver, I.Initialized(i, version, st.clock), url, ch(n + next));
    } else {
      GatewayUp(st, k, ver, i, url, version, next, ch(n + next));
      GatewaysThenReady(st, k, ver, i, url, version, next + 1, ch, n);
    }
  }

  lemma ReadyStatus(i: FrkrInit, version: nat, now: nat)
    requires Unique(i.status.conditions) && Before(i.status.conditions, now)
    ensures var b := I.Initialized(i, version, now);
      && b.spec == i.spec && b.status.phase == "Initialized" && IsTrue(b.status.conditions, "Ready")
      && I.ShowsSuccess(b.status, version)
      && b.status.dirty == i.status.dirty && b.status.version == i.status.version
  {
    hide Set, Has, I.ShowsSuccess;
    SetIsSound(i.status.conditions, Condition("Ready", true, "MigrationsComplete",
      "Database migrations completed successfully (version: " + StringOf(version) + ") and gateways are ready", now));
    I.InitializedShows(i, version, now);
  }

  /** An undisturbed pass whose version call answers dirty, or not, and which sees every gateway
      up commits Initialized and Ready, and shows the answer. */
  lemma ReadyWhateverDirty(st: Stores, k: Key, ver: nat, i: FrkrInit, url: string, ch: nat -> Choice, n: nat)
    requires ver == Version(st.log, k) && Latest(st.log, k).Some?
    requires Unique(i.status.conditions) && Before(i.status.conditions, st.clock)
    requires ch(n).fault == Fine
    requires forall j :: 0 <= j < |i.spec.gateways| ==> SeesUp(st, Name(k.namespace, i.spec.gateways[j]), ch(n + 1 + j))
    requires ch(n + 1 + |i.spec.gateways|).fault == Fine
    ensures var r := I.Run(st, k, I.AtVersion(ver, i, url), ch, n);
      && r.1 == I.Done && Latest(r.0.log, k).Some? && Latest(r.0.log, k).value.InitR?
      && var b := Latest(r.0.log, k).value.init;
         && b.spec == i.spec && b.status.phase == "Initialized" && IsTrue(b.status.conditions, "Ready")
         && b.status.dirty == ch(n).flag && b.status.version == ch(n).number && I.ShowsSuccess(b.status, ch(n).number)
  {
    hide Grows, Set, Has, IsTrue, Unique, Before, I.Polling, I.Initialized, I.ShowsSuccess, SeesUp;
    var x := Shown(i, ch(n).number, ch(n).flag);
    GatewaysThenReady(st, k, ver, x, url, ch(n).number, 0, ch, n + 1);
    ReadyStatus(x, ch(n).number, st.clock);
  }

  // ---- Reachable worlds -------------------------------------------------------------------

  /** The latest version of `k` is `i`, and the cache lacks the last `behind` versions. */
  ghost predicate Holds(w: World, k: Key, i: FrkrInit, behind: nat) {
    && k.kind == InitKind && Latest(w.st.log, k) == Some(InitR(i))
    && (if k in w.st.seen then w.st.seen[k] else 0) + behind == Version(w.st.log, k)
  }

  ghost predicate IsAt(w: World, k: Key, i: FrkrInit, p: I.InitPass) {
    Holds(w, k, i, 0) && k in w.passes && w.passes[k] == OfInit(p)
  }

  ghost predicate Rests(w: World, k: Key, i: FrkrInit) {
    Holds(w, k, i, 1) && k !in w.passes
  }

  lemma Created(w: World, k: Key, i: FrkrInit)
    requires Initial(w) && k.kind == InitKind && i.status == InitStatus("", 0, false, [])
    ensures Rests(Next(w, Create(k, InitR(i))), k, i)
  {
    hide Grows, TenantsInjective, PassStep;
  }

  lemma Delivered(w: World, k: Key, i: FrkrInit)
    requires Rests(w, k, i)
    ensures var v := Next(w, Deliver(k)); Holds(v, k, i, 0) && k in v.queue && k !in v.passes
  {
    hide Grows, TenantsInjective, PassStep;
  }

  lemma Started(w: World, k: Key, i: FrkrInit)
    requires Holds(w, k, i, 0) && k in w.queue && k !in w.passes
    ensures IsAt(Next(w, Start(k)), k, i, I.Begin)
  {
    hide Grows, TenantsInjective, PassStep;
  }

  /** A call that goes on without a new version. */
  lemma Called(w: World, k: Key, i: FrkrInit, p: I.InitPass, c: Choice, q: I.InitPass)
    requires IsAt(w, k, i, p) && I.Step(w.st, k, p, c).1 == I.Go(q)
    requires I.Step(w.st, k, p, c).0.log == w.st.log && I.Step(w.st, k, p, c).0.clock == w.st.clock
    ensures IsAt(Next(w, Call(k, c)), k, i, q)
    ensures Next(w, Call(k, c)).st.log == w.st.log && Next(w, Call(k, c)).st.clock == w.st.clock
  {
    hide Grows, TenantsInjective, I.Step;
  }

  /** The last call, which commits `j`. */
  lemma Written(w: World, k: Key, i: FrkrInit, p: I.InitPass, c: Choice, j: FrkrInit)
    requires IsAt(w, k, i, p) && !I.Step(w.st, k, p, c).1.Go? && j != i
    requires I.Step(w.st, k, p, c).0 == w.st.(log := Commit(w.st.log, k, Some(InitR(j))))
    ensures Rests(Next(w, Call(k, c)), k, j)
  {
    hide Grows, TenantsInjective, I.Step;
  }

  /** A call that works and has the version call answer 1 and dirty; and one that fails. */
  const WORKS: Choice := Choice(Fine, "", "", 0, 1, [], true, true)
  const FAILS: Choice := Choice(Broken, "", "", 0, 1, [], true, true)

  lemma Begun(w: World, ls: seq<Label>, k: Key, i: FrkrInit) returns (ms: seq<Label>)
    requires Rests(Exec(w, ls), k, i) && i.spec.databaseURL != ""
    ensures IsAt(Exec(w, ms), k, i, I.AtMigrate(Version(Exec(w, ms).st.log, k), i, i.spec.databaseURL))
  {
    hide Grows, TenantsInjective, Next, PassStep;
    ExecAppend(w, ls, Deliver(k));
    Delivered(Exec(w, ls), k, i);
    ms := ls + [Deliver(k)];
    ExecAppend(w, ms, Start(k));
    Started(Exec(w, ms), k, i);
    ms := ms + [Start(k)];
    ExecAppend(w, ms, Call(k, WORKS));
    var v := Exec(w, ms);
    Called(v, k, i, I.Begin, WORKS, I.AtMigrate(Version(v.st.log, k), i, i.spec.databaseURL));
    assert Version(Next(v, Call(k, WORKS)).st.log, k) == Version(v.st.log, k) by { SameVersion(v, k, WORKS); }
    ms := ms + [Call(k, WORKS)];
  }

  lemma SameVersion(v: World, k: Key, c: Choice)
    requires k in v.passes && v.passes[k] == OfInit(I.Begin)
    ensures Next(v, Call(k, c)).st == v.st
  {
    hide Grows, TenantsInjective;
  }

  /** One more label on a run. */
  lemma Goes(w: World, ls: seq<Label>, k: Key, i: FrkrInit, p: I.InitPass, c: Choice, q: I.InitPass)
      returns (ms: seq<Label>)
    requires IsAt(Exec(w, ls), k, i, p) && I.Step(Exec(w, ls).st, k, p, c).1 == I.Go(q)
    requires I.Step(Exec(w, ls).st, k, p, c).0.log == Exec(w, ls).st.log
    requires I.Step(Exec(w, ls).st, k, p, c).0.clock == Exec(w, ls).st.clock
    ensures IsAt(Exec(w, ms), k, i, q) && Version(Exec(w, ms).st.log, k) == Version(Exec(w, ls).st.log, k)
    ensures Exec(w, ms).st.clock == Exec(w, ls).st.clock
  {
    ms := ls + [Call(k, c)];
    hide Next, I.Step, Grows;
    ExecAppend(w, ls, Call(k, c));
    Called(Exec(w, ls), k, i, p, c, q);
  }

  lemma Ends(w: World, ls: seq<Label>, k: Key, i: FrkrInit, p: I.InitPass, c: Choice, j: FrkrInit)
      returns (ms: seq<Label>)
    requires IsAt(Exec(w, ls), k, i, p) && !I.Step(Exec(w, ls).st, k, p, c).1.Go? && j != i
    requires I.Step(Exec(w, ls).st, k, p, c).0 == Exec(w, ls).st.(log := Commit(Exec(w, ls).st.log, k, Some(InitR(j))))
    ensures Rests(Exec(w, ms), k, j)
  {
    ms := ls + [Call(k, c)];
    hide Next, I.Step, Grows;
    ExecAppend(w, ls, Call(k, c));
    Written(Exec(w, ls), k, i, p, c, j);
  }

  /** With a database URL and no gateways, a pass that gets a dirty answer reports Ready. */
  lemma DirtyTurn(w: World, ls: seq<Label>, k: Key, i: FrkrInit) returns (ms: seq<Label>, j: FrkrInit)
    requires Rests(Exec(w, ls), k, i) && i.spec.databaseURL != "" && i.spec.gateways == []
    requires i.status == InitStatus("", 0, false, [])
    ensures Rests(Exec(w, ms), k, j) && j.spec == i.spec
    ensures j.status.phase == "Initialized" && IsTrue(j.status.conditions, "Ready") && j.status.dirty
  {
    hide Next, I.Step, Grows, IsTrue, Has, Set;
    ms := Begun(w, ls, k, i);
    var ver, url, now := Version(Exec(w, ms).st.log, k), i.spec.databaseURL, Exec(w, ms).st.clock;
    var x := Shown(i, 1, true);
    j := I.Initialized(x, 1, now);
    GoodMigration(Exec(w, ms).st, k, ver, i, url);
    ms := Goes(w, ms, k, i, I.AtMigrate(ver, i, url), WORKS, I.AtVersion(ver, i, url));
    DirtyAnswer(Exec(w, ms).st, k, ver, i, url);
    ms := Goes(w, ms, k, i, I.AtVersion(ver, i, url), WORKS, I.AtReady(ver, j, url));
    ReadyWrite(Exec(w, ms).st, k, ver, j, url, WORKS);
    ReadyStatus(x, 1, now);
    ms := Ends(w, ms, k, i, I.AtReady(ver, j, url), WORKS, j);
  }

  lemma GoodMigration(st: Stores, k: Key, ver: nat, i: FrkrInit, url: string)
    ensures var r := I.Step(st, k, I.AtMigrate(ver, i, url), WORKS);
      r.1 == I.Go(I.AtVersion(ver, i, url)) && r.0.log == st.log && r.0.clock == st.clock
  {
    hide Grows;
  }

  lemma DirtyAnswer(st: Stores, k: Key, ver: nat, i: FrkrInit, url: string)
    requires i.spec.gateways == []
    ensures I.Step(st, k, I.AtVersion(ver, i, url), WORKS)
            == (st, I.Go(I.AtReady(ver, I.Initialized(Shown(i, 1, true), 1, st.clock), url)))
  {
    hide Grows, Set;
  }

  /** A later pass whose migrations fail reports the failure and leaves Ready as it was. */
  lemma FailedTurn(w: World, ls: seq<Label>, k: Key, i: FrkrInit) returns (ms: seq<Label>, j: FrkrInit)
    requires Rests(Exec(w, ls), k, i) && i.spec.databaseURL != "" && i.status.phase == "Initialized"
    requires IsTrue(i.status.conditions, "Ready")
    ensures Rests(Exec(w, ms), k, j) && j.spec == i.spec
    ensures j.status.phase == "Failed" && IsTrue(j.status.conditions, "Ready") && j.status.dirty == i.status.dirty
  {
    hide Next, I.Step, Grows, IsTrue, Has, Set;
    ms := Begun(w, ls, k, i);
    var ver, url := Version(Exec(w, ms).st.log, k), i.spec.databaseURL;
    j := I.MigrationsFailed(i, FAILS.text, Exec(w, ms).st.clock);
    FailedMigration(Exec(w, ms).st, k, ver, i, url);
    ReadyStays(i, FAILS.text, Exec(w, ms).st.clock);
    ms := Goes(w, ms, k, i, I.AtMigrate(ver, i, url), FAILS, I.AtFailure(ver, j));
    FailureWrite(Exec(w, ms).st, k, ver, j);
    ms := Ends(w, ms, k, i, I.AtFailure(ver, j), WORKS, j);
  }

  lemma ReadyStays(i: FrkrInit, message: string, now: nat)
    ensures IsTrue(I.MigrationsFailed(i, message, now).status.conditions, "Ready")
            == IsTrue(i.status.conditions, "Ready")
  {
    hide Set;
    LookupAfterSet(i.status.conditions, Condition("MigrationsComplete", false, "MigrationError", message, now),
        "Ready");
  }

  lemma FailedMigration(st: Stores, k: Key, ver: nat, i: FrkrInit, url: string)
    ensures I.Step(st, k, I.AtMigrate(ver, i, url), FAILS)
            == (st, I.Go(I.AtFailure(ver, I.MigrationsFailed(i, FAILS.text, st.clock))))
  {
    hide Grows, Set;
  }

  lemma FailureWrite(st: Stores, k: Key, ver: nat, j: FrkrInit)
    requires ver == Version(st.log, k) && Latest(st.log, k).Some?
    ensures I.Step(st, k, I.AtFailure(ver, j), WORKS) == (st.(log := Commit(st.log, k, Some(InitR(j)))), I.Failed)
  {
    hide Grows, LogsGrow;
  }

  ghost predicate Stands(st: Stores, k: Key, spec: InitSpec, phase: string, dirty: bool) {
    Latest(st.log, k).Some? && Latest(st.log, k).value.InitR?
    && var i := Latest(st.log, k).value.init;
       i.spec == spec && i.status.phase == phase && IsTrue(i.status.conditions, "Ready") && i.status.dirty == dirty
  }

  /** From any fresh start there is a run that leaves an init
      resource Initialized, Ready and dirty; and a longer one that leaves one failed and Ready. */
  lemma DirtyReadyReachable(w: World, k: Key, spec: InitSpec) returns (ls: seq<Label>, ms: seq<Label>)
    requires Initial(w) && k.kind == InitKind && spec.databaseURL != "" && spec.gateways == []
    ensures Stands(Exec(w, ls).st, k, spec, "Initialized", true)
    ensures Stands(Exec(w, ms).st, k, spec, "Failed", true)
  {
    hide Next, Initial, IsTrue;
    var i := FrkrInit(spec, InitStatus("", 0, false, []));
    ls := [Create(k, InitR(i))];
    Created(w, k, i);
    assert Exec(w, ls) == Next(w, Create(k, InitR(i))) by { ExecAppend(w, [], Create(k, InitR(i))); }
    var j, f;
    ls, j := DirtyTurn(w, ls, k, i);
    ms, f := FailedTurn(w, ls, k, j);
  }
}
