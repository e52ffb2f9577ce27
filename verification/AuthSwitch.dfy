/** Switching away from basic auth is crash-safe: the new type is recorded only after every
    listed user was removed, and until then the old one stays. */
module AuthSwitch {
  import opened Base
  import opened Resources
  import opened Stores
  import opened Machine
  import opened Invariant
  import opened Flights
  import S = StreamController
  import T = TenantController
  import U = UserController
  import C = ClientController
  import A = AuthController
  import I = InitController
  import D = DataPlaneController

  /** The pass has removed every listed user up to its point. */
  ghost predicate Removed(st: Stores, p: A.AuthPass) {
    match p
    case AtDelete(_, _, listed, done) => forall i :: 0 <= i < done && i < |listed| ==> A.RemovedSince(st, listed[i])
    case AtWrite(_, _, listed) => forall i :: 0 <= i < |listed| ==> A.RemovedSince(st, listed[i])
    case _ => true
  }

  ghost predicate AllRemoved(w: World) {
    forall k :: k in w.passes && w.passes[k].OfAuth? ==> Removed(w.st, w.passes[k].a)
  }

  /** Deletions by auth passes work, though their replies may be lost. */
  predicate DeletesWork(w: World, l: Label) {
    l.Call? && l.k in w.passes && w.passes[l.k].OfAuth? && w.passes[l.k].a.AtDelete? ==> l.c.fault != Broken
  }

  ghost predicate AlwaysDeletes(w: World, ls: seq<Label>)
    decreases |ls|
  {
    ls != [] ==> DeletesWork(w, ls[0]) && AlwaysDeletes(Next(w, ls[0]), ls[1..])
  }

  lemma RemovedStable(st: Stores, st': Stores, p: A.AuthPass)
    requires Removed(st, p) && Grows(st, st')
    ensures Removed(st', p)
  {
    hide Grows, A.RemovedSince;
    var listed := if p.AtDelete? then p.listed else if p.AtWrite? then p.listed else [];
    forall i | 0 <= i < |listed| && A.RemovedSince(st, listed[i]) ensures A.RemovedSince(st', listed[i]) {
      A.RemovalStable(st, st', listed[i]);
    }
  }

  lemma DeletionRemoves(st: Stores, u: A.Listed, c: Choice)
    requires A.WasUser(st, u) && c.fault != Broken
    ensures A.RemovedSince(DeleteResource(st, u.key, c).0, u)
  {
    hide Grows;
    if Latest(st.log, u.key).None? {
      NowGone(st, u);
    } else {
      var st' := DeleteResource(st, u.key, c).0;
      assert st'.log == Commit(st.log, u.key, None);
      NowGone(st', u);
    }
  }

  lemma NowGone(st: Stores, u: A.Listed)
    requires A.WasUser(st, u) && Latest(st.log, u.key).None?
    ensures A.RemovedSince(st, u)
  {
    assert LogOf(st.log, u.key)[|LogOf(st.log, u.key)| - 1] == None;
  }

  lemma StepRemoves(st: Stores, k: Key, p: A.AuthPass, c: Choice)
    requires AuthPassOk(st, k, p) && Removed(st, p) && (p.AtDelete? ==> c.fault != Broken)
    ensures var (st', o) := A.Step(st, k, p, c); o.Go? ==> Removed(st', o.pass)
  {
    hide Grows, A.RemovedSince, A.WasUser, IsListing;
    if p.AtDelete? {
      var st' := DeleteResource(st, p.listed[p.done].key, c).0;
      DeletionRemoves(st, p.listed[p.done], c);
      RemovedStable(st, st', p);
    }
  }

  lemma NextRemoves(w: World, l: Label)
    requires Inv(w) && AllRemoved(w) && DeletesWork(w, l)
    ensures AllRemoved(Next(w, l))
  {
    hide LogsOk, TenantsInjective, Grows, Removed, PassOk, A.Step, S.Step, T.Step, U.Step, C.Step, I.Step, D.Step,
        Environment;
    var w' := Next(w, l);
    forall k | k in w'.passes && w'.passes[k].OfAuth? ensures Removed(w'.st, w'.passes[k].a) {
      if k in w.passes && w'.passes[k] == w.passes[k] {
        RemovedStable(w.st, w'.st, w.passes[k].a);
      } else if l.Call? && l.k in w.passes {
        OwnCallRemoves(w, l.k, l.c);
      } else {
        BeginRemoves(w'.st, k);
      }
    }
  }

  lemma BeginRemoves(st: Stores, k: Key)
    ensures BeginOf(k.kind).OfAuth? ==> Removed(st, BeginOf(k.kind).a)
  {
  }

  lemma OwnCallRemoves(w: World, k: Key, c: Choice)
    requires Inv(w) && AllRemoved(w) && DeletesWork(w, Call(k, c)) && k in w.passes
    ensures var r := PassStep(w.cfg, w.st, k, w.passes[k], c); r.1.Go? && r.1.pass.OfAuth? ==> Removed(r.0, r.1.pass.a)
  {
    hide LogsOk, TenantsInjective, Grows, Removed, AuthPassOk, A.Step, S.Step, T.Step, U.Step, C.Step, I.Step, D.Step;
    assert PassOk(w.cfg, w.st, k, w.passes[k]);
    match w.passes[k] {
      case OfAuth(p) => StepRemoves(w.st, k, p, c);
      case OfStream(_) =>
      case OfTenant(_) =>
      case OfUser(_) =>
      case OfClient(_) =>
      case OfInit(_) =>
      case OfDataPlane(_) =>
    }
  }

  lemma {:induction false} ExecRemoves(w: World, ls: seq<Label>)
    requires Inv(w) && AllRemoved(w) && AlwaysDeletes(w, ls)
    ensures Inv(Exec(w, ls)) && AllRemoved(Exec(w, ls))
    decreases |ls|
  {
    hide Inv, AllRemoved, Next, DeletesWork;
    if ls != [] {
      NextInv(w, ls[0]);
      NextRemoves(w, ls[0]);
      ExecRemoves(Next(w, ls[0]), ls[1..]);
    }
  }

  function PreviousType(st: Stores, k: Key): Option<string> {
    if Latest(st.log, k).Some? && Latest(st.log, k).value.AuthR?
    then Some(Latest(st.log, k).value.auth.status.previousType) else None
  }

  /** The recorded type leaves basic only by the last call of a pass that read the switch; a
      pass that stops before leaves it as it was. */
  lemma OnlyTheLastCallRecords(w: World, l: Label, k: Key)
    requires Inv(w) && k.kind == AuthKind && PreviousType(w.st, k) == Some("basic")
    requires PreviousType(Next(w, l).st, k).Some? && PreviousType(Next(w, l).st, k) != Some("basic")
    ensures l.Call? && l.k == k && k in w.passes && w.passes[k].OfAuth?
    ensures var p := w.passes[k].a;
      && p.AtWrite? && p.ver == Version(w.st.log, k) && Latest(w.st.log, k) == Some(AuthR(p.a))
      && p.a.status.previousType == "basic" && p.a.spec.typ != "basic"
  {
    hide LogsOk, TenantsInjective, Grows, LogsGrow, PassStep, PassOk;
    if l.Call? && l.k in w.passes {
      var j, v := CallWrites(w, l.k, l.c);
      assert l.k == k;
      RecordedByWrite(w, k, l.c);
    }
  }

  lemma RecordedByWrite(w: World, k: Key, c: Choice)
    requires Inv(w) && k.kind == AuthKind && k in w.passes && PreviousType(w.st, k) == Some("basic")
    requires var st' := PassStep(w.cfg, w.st, k, w.passes[k], c).0;
      PreviousType(st', k).Some? && PreviousType(st', k) != Some("basic")
    ensures w.passes[k].OfAuth?
    ensures var p := w.passes[k].a;
      && p.AtWrite? && p.ver == Version(w.st.log, k) && Latest(w.st.log, k) == Some(AuthR(p.a))
      && p.a.status.previousType == "basic" && p.a.spec.typ != "basic"
  {
    hide LogsOk, TenantsInjective, Grows, A.Step, A.WasUser;
    assert PassOk(w.cfg, w.st, k, w.passes[k]);
    A.StepWrites(w.st, k, w.passes[k].a, c);
  }

  /** A listing that works shows exactly the users the cache holds, each at the version seen. */
  lemma ListingIsComplete(st: Stores, ver: nat, a: FrkrAuthConfig, c: Choice)
    requires c.fault == Fine && IsListing(st, UserKind, c.keys)
    ensures var o := A.List(st, ver, a, c).1;
      && o.Go? && (o.pass.AtDelete? || o.pass.AtWrite?)
      && var listed := if o.pass.AtDelete? then o.pass.listed else [];
         forall u: Key :: u.kind == UserKind && Present(st, u) ==> A.ListedNow(st, u) in listed
  {
    hide Grows;
    var o := A.List(st, ver, a, c).1;
    forall u: Key | u.kind == UserKind && Present(st, u)
      ensures c.keys != [] && o.pass.AtDelete? && A.ListedNow(st, u) in o.pass.listed
    {
      assert u in st.log;
      var i :| 0 <= i < |c.keys| && c.keys[i] == u;
      assert o.pass.listed[i] == A.ListedNow(st, u);
    }
  }

  /** In any run whose deletions work, passes stopping anywhere: when the recorded type leaves
      basic, every user the recording pass had listed was gone since its listing. */
  lemma SwitchIsCrashSafe(w: World, ls: seq<Label>, l: Label, k: Key)
    requires Initial(w) && AlwaysDeletes(w, ls) && k.kind == AuthKind
    requires PreviousType(Exec(w, ls).st, k) == Some("basic")
    requires PreviousType(Next(Exec(w, ls), l).st, k).Some? && PreviousType(Next(Exec(w, ls), l).st, k) != Some("basic")
    ensures var v := Exec(w, ls);
      && k in v.passes && v.passes[k].OfAuth? && v.passes[k].a.AtWrite?
      && v.passes[k].a.a.status.previousType == "basic" && v.passes[k].a.a.spec.typ != "basic"
      && forall u :: u in v.passes[k].a.listed ==> A.RemovedSince(v.st, u)
  {
    hide Inv, Next, PreviousType, A.RemovedSince, AlwaysDeletes, Initial;
    InitialInv(w);
    assert AllRemoved(w) by { NothingToRemove(w); }
    ExecRemoves(w, ls);
    OnlyTheLastCallRecords(Exec(w, ls), l, k);
  }

  lemma NothingToRemove(w: World)
    requires Initial(w)
    ensures AllRemoved(w)
  {
    hide TenantsInjective;
  }

  // ---- From the listing to the switch -------------------------------------------------------

  ghost predicate HasListed(p: Pass, listed: seq<A.Listed>) {
    p.OfAuth? && (p.a.AtDelete? || p.a.AtWrite?) && p.a.listed == listed
  }

  lemma ListedIsClosed(k: Key, listed: seq<A.Listed>)
    ensures Closed(k, p => HasListed(p, listed))
  {
    hide A.Step, Grows, TenantsInjective;
    forall cfg: Config, st: Stores, p: Pass, c: Choice | HasListed(p, listed) && PassStep(cfg, st, k, p, c).1.Go?
      ensures HasListed(PassStep(cfg, st, k, p, c).1.pass, listed)
    {
      StepKeepsListed(st, k, p.a, c);
    }
  }

  lemma StepKeepsListed(st: Stores, k: Key, p: A.AuthPass, c: Choice)
    requires (p.AtDelete? || p.AtWrite?) && A.Step(st, k, p, c).1.Go?
    ensures HasListed(OfAuth(A.Step(st, k, p, c).1.pass), p.listed)
  {
    hide Grows, DeleteResource;
  }

  /** The pass of `k` lists the users with this call, and the listing works. */
  ghost predicate Lists(v: World, k: Key, c: Choice) {
    && k in v.passes && v.passes[k].OfAuth? && v.passes[k].a.AtList? && c.fault == Fine
    && IsListing(v.st, UserKind, c.keys)
  }

  lemma ListCall(v: World, k: Key, c: Choice) returns (listed: seq<A.Listed>)
    requires Lists(v, k, c)
    ensures k in Next(v, Call(k, c)).passes && HasListed(Next(v, Call(k, c)).passes[k], listed)
    ensures forall u: Key :: u.kind == UserKind && Present(v.st, u) ==> A.ListedNow(v.st, u) in listed
  {
    hide Grows, TenantsInjective, A.List, Present, IsListing;
    var p := v.passes[k].a;
    ListingIsComplete(v.st, p.ver, p.a, c);
    var o := A.List(v.st, p.ver, p.a, c).1;
    listed := if o.pass.AtDelete? then o.pass.listed else [];
    EmptyListing(v.st, p.ver, p.a, c);
  }

  lemma EmptyListing(st: Stores, ver: nat, a: FrkrAuthConfig, c: Choice)
    ensures var o := A.List(st, ver, a, c).1; o.Go? && o.pass.AtWrite? ==> o.pass.listed == []
  {
    hide Grows, IsListing;
  }

  /** In any run whose deletions work: if a pass lists the users and the call `l` then records
      its new type, whatever happened in between, every user that the cache held at the listing
      was gone at that moment or at some later one. */
  lemma SwitchIsComplete(w: World, before: seq<Label>, v: World, c: Choice, between: seq<Label>, z: World, l: Label,
      k: Key)
    requires Initial(w) && k.kind == AuthKind && v == Exec(w, before) && Lists(v, k, c)
    requires z == Exec(Next(v, Call(k, c)), between) && Lasts(Next(v, Call(k, c)), k, between)
    requires AlwaysDeletes(w, before + [Call(k, c)] + between)
    requires PreviousType(z.st, k) == Some("basic")
    requires PreviousType(Next(z, l).st, k).Some? && PreviousType(Next(z, l).st, k) != Some("basic")
    ensures forall u: Key :: u.kind == UserKind && Present(v.st, u) ==> A.RemovedSince(z.st, A.ListedNow(v.st, u))
  {
    hide Next, Initial, Lasts, PreviousType, AlwaysDeletes, A.RemovedSince, Present, Closed;
    ExecAppend(w, before, Call(k, c));
    ExecConcat(w, before + [Call(k, c)], between);
    var listed := ListCall(v, k, c);
    ListedIsClosed(k, listed);
    LastsKeeps(Next(v, Call(k, c)), k, between, p => HasListed(p, listed));
    SwitchIsCrashSafe(w, before + [Call(k, c)] + between, l, k);
  }

  /** An auth pass that removes any other resource read a switch away from basic, and what it
      removes is a user that its listing showed. */
  lemma DeletesOnlyOnSwitch(w: World, k: Key, c: Choice, j: Key)
    requires Inv(w) && k in w.passes && k.kind == AuthKind && j != k
    requires LogOf(PassStep(w.cfg, w.st, k, w.passes[k], c).0.log, j) != LogOf(w.st.log, j)
    ensures w.passes[k].OfAuth? && w.passes[k].a.AtDelete?
    ensures var p := w.passes[k].a;
      && j.kind == UserKind && p.a.status.previousType == "basic" && p.a.spec.typ != "basic"
      && ReadOf(w.st, k, p.ver) == Some(AuthR(p.a))
      && exists u :: u in p.listed && u.key == j && A.WasUser(w.st, u)
  {
    hide LogsOk, TenantsInjective, Grows, A.Step;
    assert PassOk(w.cfg, w.st, k, w.passes[k]);
    var p := w.passes[k].a;
    A.StepWrites(w.st, k, p, c);
    assert p.AtDelete? && p.listed[p.done].key == j;
    assert p.listed[p.done] in p.listed;
  }
}
