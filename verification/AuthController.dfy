/** internal/controller/auth_controller.go: switching away from basic auth deletes every
    listed user before the new type is recorded. */
module AuthController {
  import opened Base
  import opened Resources
  import opened Stores

  /** A user as the listing showed it: at version `ver`, when the latest one was `latest`. */
  datatype Listed = Listed(key: Key, ver: nat, latest: nat)

  function ListedNow(st: Stores, key: Key): Listed {
    Listed(key, Seen(st, key), Version(st.log, key))
  }

  datatype AuthPass =
    | Begin
    | AtList(ver: nat, a: FrkrAuthConfig)
    | AtDelete(ver: nat, a: FrkrAuthConfig, listed: seq<Listed>, done: nat)
    | AtWrite(ver: nat, a: FrkrAuthConfig, listed: seq<Listed>)

  datatype Outcome = Go(pass: AuthPass) | Done | Failed

  type Reply = (Stores, Outcome)

  const BASIC := "basic"

  function Rank(p: AuthPass): nat {
    match p
    case Begin => 1
    case AtList(_, _) => 1
    case AtDelete(_, _, listed, done) => if done < |listed| then |listed| - done else 0
    case AtWrite(_, _, _) => 0
  }

  /** Order of the calls of a pass; the number of deletions is known after the listing. */
  function Stage(p: AuthPass): nat {
    match p
    case Begin => 3
    case AtList(_, _) => 2
    case AtDelete(_, _, _, _) => 1
    case AtWrite(_, _, _) => 0
  }

  predicate LeavesBasic(a: FrkrAuthConfig) {
    a.status.previousType == BASIC && a.spec.typ != BASIC
  }

  function Activated(a: FrkrAuthConfig): FrkrAuthConfig {
    a.(status := a.status.(previousType := a.spec.typ, phase := "Active"))
  }

  ghost predicate Within(st: Stores, p: AuthPass, r: Reply) {
    && Grows(st, r.0)
    && r.0 == st.(log := r.0.log)
    && (r.1.Go? ==> !r.1.pass.Begin?
                    && (Stage(r.1.pass) < Stage(p) || (Stage(r.1.pass) == Stage(p) && Rank(r.1.pass) < Rank(p))))
  }

  function Read(st: Stores, k: Key, c: Choice): (r: Reply)
    ensures Within(st, Begin, r) && r.0 == st
  {
    match Get(st, k, c)
    case Found(ver, AuthR(a)) => if LeavesBasic(a) then (st, Go(AtList(ver, a))) else (st, Go(AtWrite(ver, a, [])))
    case ReadError => (st, Failed)
    case _ => (st, Done)
  }

  /** A failed listing deletes nobody, and the new type is recorded all the same. */
  function List(st: Stores, ver: nat, a: FrkrAuthConfig, c: Choice): (r: Reply)
    ensures Within(st, AtList(ver, a), r) && r.0 == st
  {
    if c.fault == Fine && c.keys != [] && IsListing(st, UserKind, c.keys) then
      (st, Go(AtDelete(ver, a, seq(|c.keys|, i requires 0 <= i < |c.keys| => ListedNow(st, c.keys[i])), 0)))
    else (st, Go(AtWrite(ver, a, [])))
  }

  /** A failed deletion is logged and the loop goes on. */
  function Delete(st: Stores, ver: nat, a: FrkrAuthConfig, listed: seq<Listed>, done: nat, c: Choice): (r: Reply)
    requires done < |listed|
    ensures Within(st, AtDelete(ver, a, listed, done), r)
  {
    var st' := DeleteResource(st, listed[done].key, c).0;
    if done + 1 < |listed| then (st', Go(AtDelete(ver, a, listed, done + 1))) else (st', Go(AtWrite(ver, a, listed)))
  }

  function Write(st: Stores, k: Key, ver: nat, a: FrkrAuthConfig, c: Choice): (r: Reply)
    ensures Grows(st, r.0) && r.0 == st.(log := r.0.log) && !r.1.Go?
  {
    var (st', ok) := UpdateStatus(st, k, ver, AuthR(Activated(a)), c);
    (st', if ok then Done else Failed)
  }

  function Step(st: Stores, k: Key, p: AuthPass, c: Choice): (r: Reply)
    ensures Within(st, p, r)
    ensures r.1.Go? ==> if p.Begin? then Get(st, k, c).Found? && r.1.pass.ver == Get(st, k, c).version
                        else r.1.pass.ver == p.ver
  {
    match p
    case Begin => Read(st, k, c)
    case AtList(ver, a) => List(st, ver, a, c)
    case AtDelete(ver, a, listed, done) =>
      if done < |listed| then Delete(st, ver, a, listed, done, c) else (st, Go(AtWrite(ver, a, listed)))
    case AtWrite(ver, a, _) => Write(st, k, ver, a, c)
  }

  /** A pass from point `p` to its end with nothing else in between; its calls are decided
      by `ch(n)`, `ch(n + 1)`, and so on. */
  function Run(st: Stores, k: Key, p: AuthPass, ch: nat -> Choice, n: nat): (r: Reply)
    ensures !r.1.Go?
    decreases Stage(p), Rank(p)
  {
    var r := Step(st, k, p, ch(n));
    if r.1.Go? then Run(r.0, k, r.1.pass, ch, n + 1) else r
  }

  // ---- What a pass guarantees ------------------------------------------------------

  /** The user was gone at some point since the listing that showed it. */
  ghost predicate RemovedSince(st: Stores, u: Listed) {
    exists i :: u.latest <= i < |LogOf(st.log, u.key)| && LogOf(st.log, u.key)[i] == None
  }

  ghost predicate WasUser(st: Stores, u: Listed) {
    && u.key.kind == UserKind
    && u.ver <= u.latest < |LogOf(st.log, u.key)| && LogOf(st.log, u.key)[u.ver].Some?
  }

  /** The recorded type is basic and the spec asks for another. */
  ghost predicate Switches(a: FrkrAuthConfig) {
    a.status.previousType == "basic" && a.spec.typ != "basic"
  }

  /** Only a pass that read a switch away from basic lists or deletes anybody, and what it
      deletes is a user that its listing showed. */
  ghost predicate PassOk(st: Stores, a: FrkrAuthConfig, p: AuthPass)
    requires !p.Begin?
  {
    match p
    case AtList(_, x) => x == a && Switches(a)
    case AtDelete(_, x, listed, done) =>
      x == a && Switches(a) && done < |listed| && (forall u :: u in listed ==> WasUser(st, u))
    case AtWrite(_, x, listed) =>
      x == a && (listed != [] ==> Switches(a)) && (forall u :: u in listed ==> WasUser(st, u))
  }

  lemma PassStable(st: Stores, st': Stores, a: FrkrAuthConfig, p: AuthPass)
    requires !p.Begin? && PassOk(st, a, p) && Grows(st, st')
    ensures PassOk(st', a, p)
  {
    forall u | WasUser(st, u) ensures WasUser(st', u) {
      assert LogOf(st.log, u.key) <= LogOf(st'.log, u.key);
    }
  }

  lemma RemovalStable(st: Stores, st': Stores, u: Listed)
    requires RemovedSince(st, u) && Grows(st, st')
    ensures RemovedSince(st', u)
  {
    var i :| u.latest <= i < |LogOf(st.log, u.key)| && LogOf(st.log, u.key)[i] == None;
    assert LogOf(st.log, u.key) <= LogOf(st'.log, u.key);
    assert LogOf(st'.log, u.key)[i] == None;
  }

  /** Writes: the type and phase of the pass's own resource, or the removal of one listed user. */
  lemma StepWrites(st: Stores, k: Key, p: AuthPass, c: Choice)
    ensures var st' := Step(st, k, p, c).0;
      || st'.log == st.log
      || (p.AtWrite? && p.ver == Version(st.log, k) && Latest(st.log, k).Some?
          && st'.log == Commit(st.log, k, Some(AuthR(Activated(p.a)))))
      || (p.AtDelete? && p.done < |p.listed| && st'.log == Commit(st.log, p.listed[p.done].key, None))
  {
    match p {
      case Begin =>
      case AtList(_, _) =>
      case AtDelete(_, _, _, _) =>
      case AtWrite(_, _, _) =>
    }
  }

  /** The first call decides: a pass lists the users exactly if it read a switch away from
      basic, and else it goes on to record the type. */
  lemma ListsOnSwitch(st: Stores, k: Key, c: Choice, ver: nat, a: FrkrAuthConfig)
    requires Get(st, k, c) == Found(ver, AuthR(a))
    ensures Step(st, k, Begin, c) == (st, Go(if Switches(a) then AtList(ver, a) else AtWrite(ver, a, [])))
  {
  }

  /** The last call writes the type and the phase, and no other field. */
  lemma Records(st: Stores, k: Key, p: AuthPass, c: Choice)
    requires p.AtWrite? && Step(st, k, p, c).1.Done?
    ensures p.ver == Version(st.log, k) && Latest(st.log, k).Some?
    ensures Latest(Step(st, k, p, c).0.log, k)
            == Some(AuthR(FrkrAuthConfig(p.a.spec, AuthStatus("Active", p.a.spec.typ, p.a.status.conditions))))
  {
    hide Grows, LogsGrow;
  }

  // ---- Whole passes ------------------------------------------------------------------

  /** A whole pass over a resource that does not switch away from basic, the spec's type being
      the recorded one included, leaves every other log as it was. */
  lemma NoSwitchDeletesNobody(st: Stores, k: Key, ver: nat, a: FrkrAuthConfig, ch: nat -> Choice, j: Key)
    requires Get(st, k, ch(0)) == Found(ver, AuthR(a)) && j != k
    requires a.status.previousType != "basic" || a.spec.typ == "basic"
    ensures LogOf(Run(st, k, Begin, ch, 0).0.log, j) == LogOf(st.log, j)
  {
    hide Grows, LogsGrow, Commit;
    ListsOnSwitch(st, k, ch(0), ver, a);
    assert Run(st, k, Begin, ch, 0) == Step(st, k, AtWrite(ver, a, []), ch(1));
  }

  /** A listing that fails, or finds nobody, deletes nobody; the type is recorded all the same. */
  lemma FailedListing(st: Stores, k: Key, ver: nat, a: FrkrAuthConfig, c: Choice)
    requires c.fault != Fine || c.keys == [] || !IsListing(st, UserKind, c.keys)
    ensures Step(st, k, AtList(ver, a), c) == (st, Go(AtWrite(ver, a, [])))
  {
  }

  /** The first `n` listed users are gone. */
  ghost predicate Gone(st: Stores, listed: seq<Listed>, n: nat) {
    forall i :: 0 <= i < n && i < |listed| ==> Latest(st.log, listed[i].key).None?
  }

  lemma OneMoreGone(st: Stores, listed: seq<Listed>, done: nat, c: Choice)
    requires done < |listed| && Gone(st, listed, done) && c.fault != Broken
    ensures Gone(DeleteResource(st, listed[done].key, c).0, listed, done + 1)
  {
    hide Grows, LogsGrow;
  }

  /** The rest of a pass whose deletions work: all listed users are gone. */
  lemma {:induction false} DeletesTheRest(st: Stores, k: Key, p: AuthPass, ch: nat -> Choice, n: nat)
    requires p.AtDelete? && p.done < |p.listed| && k.kind == AuthKind && Gone(st, p.listed, p.done)
    requires forall u :: u in p.listed ==> u.key.kind == UserKind
    requires forall m :: n <= m < n + |p.listed| - p.done ==> ch(m).fault != Broken
    ensures Gone(Run(st, k, p, ch, n).0, p.listed, |p.listed|)
    decreases |p.listed| - p.done
  {
    hide Grows, LogsGrow, Commit, DeleteResource;
    var st' := DeleteResource(st, p.listed[p.done].key, ch(n)).0;
    OneMoreGone(st, p.listed, p.done, ch(n));
    if p.done + 1 < |p.listed| {
      var q := AtDelete(p.ver, p.a, p.listed, p.done + 1);
      assert Step(st, k, p, ch(n)) == (st', Go(q));
      DeletesTheRest(st', k, q, ch, n + 1);
    } else {
      assert Step(st, k, p, ch(n)) == (st', Go(AtWrite(p.ver, p.a, p.listed)));
      assert Run(st, k, p, ch, n) == Step(st', k, AtWrite(p.ver, p.a, p.listed), ch(n + 1));
    }
  }

  /** A whole pass over a switch away from basic, whose listing and deletions work: every user
      that the cache held is gone. */
  lemma SwitchDeletesAll(st: Stores, k: Key, ver: nat, a: FrkrAuthConfig, ch: nat -> Choice, user: Key)
    requires Get(st, k, ch(0)) == Found(ver, AuthR(a)) && k.kind == AuthKind
    requires a.status.previousType == "basic" && a.spec.typ != "basic"
    requires ch(1).fault == Fine && IsListing(st, UserKind, ch(1).keys)
    requires forall m :: 2 <= m < 2 + |ch(1).keys| ==> ch(m).fault != Broken
    requires user.kind == UserKind && Present(st, user)
    ensures Latest(Run(st, k, Begin, ch, 0).0.log, user).None?
  {
    hide Grows, LogsGrow, DeleteResource, Run, Step;
    ListsOnSwitch(st, k, ch(0), ver, a);
    assert user in ch(1).keys by { assert user in st.log; }
    var p := List(st, ver, a, ch(1)).1.pass;
    var i :| 0 <= i < |ch(1).keys| && ch(1).keys[i] == user;
    assert p.listed[i].key == user;
    DeletesTheRest(st, k, p, ch, 2);
    RunStarts(st, k, ver, a, ch);
  }

  lemma RunStarts(st: Stores, k: Key, ver: nat, a: FrkrAuthConfig, ch: nat -> Choice)
    requires Step(st, k, Begin, ch(0)) == (st, Go(AtList(ver, a))) && List(st, ver, a, ch(1)).1.Go?
    ensures Run(st, k, Begin, ch, 0) == Run(st, k, List(st, ver, a, ch(1)).1.pass, ch, 2)
  {
    hide Grows, IsListing;
    assert Run(st, k, Begin, ch, 0) == Run(st, k, AtList(ver, a), ch, 1);
  }

  /** A call that fails, or whose reply is lost: reading and the last write end the pass with an
      error; the listing and the deletions do not. */
  lemma FaultDecides(st: Stores, k: Key, p: AuthPass, c: Choice)
    requires c.fault != Fine
    ensures Step(st, k, p, c).1 ==
      match p
      case AtList(ver, a) => Go(AtWrite(ver, a, []))
      case AtDelete(ver, a, listed, done) =>
        if done + 1 < |listed| then Go(AtDelete(ver, a, listed, done + 1)) else Go(AtWrite(ver, a, listed))
      case _ => Failed
  {
    hide Grows, LogsGrow, Commit, IsListing;
  }

  lemma StepPass(st: Stores, k: Key, a: FrkrAuthConfig, p: AuthPass, c: Choice)
    requires p.Begin? ==> Get(st, k, c).Found? ==> Get(st, k, c).value == AuthR(a)
    requires !p.Begin? ==> PassOk(st, a, p)
    ensures var (st', o) := Step(st, k, p, c); o.Go? ==> PassOk(st', a, o.pass)
  {
    match p {
      case Begin =>
      case AtList(_, _) =>
      case AtDelete(ver, x, listed, done) =>
        var st' := DeleteResource(st, listed[done].key, c).0;
        forall u | u in listed ensures WasUser(st', u) {
          assert LogOf(st.log, u.key) <= LogOf(st'.log, u.key);
        }
      case AtWrite(_, _, _) =>
    }
  }
}
