/** A whole pass with nothing in between is a run of the machine made of its calls alone. */
module WholePasses {
  import opened Resources
  import opened Stores
  import opened Machine
  import S = StreamController
  import T = TenantController
  import U = UserController
  import C = ClientController
  import A = AuthController
  import I = InitController
  import D = DataPlaneController

  function Calls(k: Key, ch: nat -> Choice, n: nat, m: nat): (r: seq<Label>)
    decreases m
  {
    if m == 0 then [] else [Call(k, ch(n))] + Calls(k, ch, n + 1, m - 1)
  }

  /** `m` calls of the pass at `k` end it in `st` with `e`. */
  ghost predicate EndsBy(w: World, k: Key, ch: nat -> Choice, n: nat, m: nat, st: Stores, e: Ending) {
    Exec(w, Calls(k, ch, n, m)) == Settle(w, k, st, e)
  }

  lemma LastCall(w: World, k: Key, ch: nat -> Choice, n: nat)
    requires k in w.passes
    ensures var (st, e) := PassStep(w.cfg, w.st, k, w.passes[k], ch(n)); EndsBy(w, k, ch, n, 1, st, e)
  {
    hide PassStep, Grows, Settle;
    assert Calls(k, ch, n, 1) == [Call(k, ch(n))];
    assert Calls(k, ch, n, 1)[1..] == [];
    assert Exec(w, Calls(k, ch, n, 1)) == Exec(Next(w, Call(k, ch(n))), []);
  }

  lemma FirstCall(w: World, k: Key, ch: nat -> Choice, n: nat, m: nat, st: Stores, e: Ending)
    requires k in w.passes && !e.Go?
    requires var (st1, e1) := PassStep(w.cfg, w.st, k, w.passes[k], ch(n));
      e1.Go? && EndsBy(w.(st := st1, passes := w.passes[k := e1.pass]), k, ch, n + 1, m, st, e)
    ensures EndsBy(w, k, ch, n, m + 1, st, e)
  {
    hide PassStep, Grows;
    var (st1, e1) := PassStep(w.cfg, w.st, k, w.passes[k], ch(n));
    var w1 := w.(st := st1, passes := w.passes[k := e1.pass]);
    assert Next(w, Call(k, ch(n))) == w1;
    assert Calls(k, ch, n, m + 1)[1..] == Calls(k, ch, n + 1, m);
    assert w1.passes - {k} == w.passes - {k};
  }

  lemma {:induction false} StreamRunIsCalls(w: World, k: Key, ch: nat -> Choice, n: nat) returns (m: nat)
    requires k in w.passes && w.passes[k].OfStream?
    ensures var (st, o) := S.Run(w.cfg, w.st, k, w.passes[k].s, ch, n); EndsBy(w, k, ch, n, m, st, StreamEnd(o))
    decreases S.Rank(w.passes[k].s)
  {
    hide S.Step, Grows, TenantsInjective, EndsBy;
    var p := w.passes[k].s;
    var (st1, o) := S.Step(w.cfg, w.st, k, p, ch(n));
    LastCall(w, k, ch, n);
    m := 1;
    if o.Go? {
      var w1 := w.(st := st1, passes := w.passes[k := OfStream(o.pass)]);
      m := StreamRunIsCalls(w1, k, ch, n + 1);
      var (st, last) := S.Run(w.cfg, st1, k, o.pass, ch, n + 1);
      FirstCall(w, k, ch, n, m, st, StreamEnd(last));
      m := m + 1;
    }
  }

  lemma {:induction false} TenantRunIsCalls(w: World, k: Key, ch: nat -> Choice, n: nat) returns (m: nat)
    requires k in w.passes && w.passes[k].OfTenant?
    ensures var (st, o) := T.Run(w.cfg, w.st, k, w.passes[k].t, ch, n); EndsBy(w, k, ch, n, m, st, TenantEnd(o))
    decreases T.Rank(w.passes[k].t)
  {
    hide T.Step, Grows, TenantsInjective, EndsBy;
    var p := w.passes[k].t;
    var (st1, o) := T.Step(w.cfg, w.st, k, p, ch(n));
    LastCall(w, k, ch, n);
    m := 1;
    if o.Go? {
      var w1 := w.(st := st1, passes := w.passes[k := OfTenant(o.pass)]);
      m := TenantRunIsCalls(w1, k, ch, n + 1);
      var (st, last) := T.Run(w.cfg, st1, k, o.pass, ch, n + 1);
      FirstCall(w, k, ch, n, m, st, TenantEnd(last));
      m := m + 1;
    }
  }

  lemma {:induction false} UserRunIsCalls(w: World, k: Key, ch: nat -> Choice, n: nat) returns (m: nat)
    requires k in w.passes && w.passes[k].OfUser?
    ensures var (st, o) := U.Run(w.cfg, w.st, k, w.passes[k].u, ch, n); EndsBy(w, k, ch, n, m, st, UserEnd(o))
    decreases U.Rank(w.passes[k].u)
  {
    hide U.Step, Grows, TenantsInjective, EndsBy;
    var p := w.passes[k].u;
    var (st1, o) := U.Step(w.cfg, w.st, k, p, ch(n));
    LastCall(w, k, ch, n);
    m := 1;
    if o.Go? {
      var w1 := w.(st := st1, passes := w.passes[k := OfUser(o.pass)]);
      m := UserRunIsCalls(w1, k, ch, n + 1);
      var (st, last) := U.Run(w.cfg, st1, k, o.pass, ch, n + 1);
      FirstCall(w, k, ch, n, m, st, UserEnd(last));
      m := m + 1;
    }
  }

  lemma {:induction false} ClientRunIsCalls(w: World, k: Key, ch: nat -> Choice, n: nat) returns (m: nat)
    requires k in w.passes && w.passes[k].OfClient?
    ensures var (st, o) := C.Run(w.cfg, w.st, k, w.passes[k].c, ch, n); EndsBy(w, k, ch, n, m, st, ClientEnd(o))
    decreases C.Rank(w.passes[k].c)
  {
    hide C.Step, Grows, EndsBy;
    var p := w.passes[k].c;
    var (st1, o) := C.Step(w.cfg, w.st, k, p, ch(n));
    LastCall(w, k, ch, n);
    m := 1;
    if o.Go? {
      var w1 := w.(st := st1, passes := w.passes[k := OfClient(o.pass)]);
      m := ClientRunIsCalls(w1, k, ch, n + 1);
      var (st, last) := C.Run(w.cfg, st1, k, o.pass, ch, n + 1);
      FirstCall(w, k, ch, n, m, st, ClientEnd(last));
      m := m + 1;
    }
  }

  lemma {:induction false} AuthRunIsCalls(w: World, k: Key, ch: nat -> Choice, n: nat) returns (m: nat)
    requires k in w.passes && w.passes[k].OfAuth?
    ensures var (st, o) := A.Run(w.st, k, w.passes[k].a, ch, n); EndsBy(w, k, ch, n, m, st, AuthEnd(o))
    decreases A.Stage(w.passes[k].a), A.Rank(w.passes[k].a)
  {
    hide A.Step, Grows, EndsBy;
    var p := w.passes[k].a;
    var (st1, o) := A.Step(w.st, k, p, ch(n));
    LastCall(w, k, ch, n);
    m := 1;
    if o.Go? {
      var w1 := w.(st := st1, passes := w.passes[k := OfAuth(o.pass)]);
      m := AuthRunIsCalls(w1, k, ch, n + 1);
      var (st, last) := A.Run(st1, k, o.pass, ch, n + 1);
      FirstCall(w, k, ch, n, m, st, AuthEnd(last));
      m := m + 1;
    }
  }

  lemma {:induction false} InitRunIsCalls(w: World, k: Key, ch: nat -> Choice, n: nat) returns (m: nat)
    requires k in w.passes && w.passes[k].OfInit?
    ensures var (st, o) := I.Run(w.st, k, w.passes[k].i, ch, n); EndsBy(w, k, ch, n, m, st, InitEnd(o))
    decreases I.Stage(w.passes[k].i), I.Rank(w.passes[k].i)
  {
    hide I.Step, Grows, EndsBy;
    var p := w.passes[k].i;
    var (st1, o) := I.Step(w.st, k, p, ch(n));
    LastCall(w, k, ch, n);
    m := 1;
    if o.Go? {
      var w1 := w.(st := st1, passes := w.passes[k := OfInit(o.pass)]);
      m := InitRunIsCalls(w1, k, ch, n + 1);
      var (st, last) := I.Run(st1, k, o.pass, ch, n + 1);
      FirstCall(w, k, ch, n, m, st, InitEnd(last));
      m := m + 1;
    }
  }

  lemma {:induction false} DataPlaneRunIsCalls(w: World, k: Key, ch: nat -> Choice, n: nat) returns (m: nat)
    requires k in w.passes && w.passes[k].OfDataPlane?
    ensures var (st, o) := D.Run(w.st, k, w.passes[k].d, ch, n); EndsBy(w, k, ch, n, m, st, DataPlaneEnd(o))
    decreases if w.passes[k].d.Begin? then 1 else 0
  {
    hide D.Step, Grows, EndsBy;
    var p := w.passes[k].d;
    var (st1, o) := D.Step(w.st, k, p, ch(n));
    LastCall(w, k, ch, n);
    m := 1;
    if o.Go? {
      var w1 := w.(st := st1, passes := w.passes[k := OfDataPlane(o.pass)]);
      m := DataPlaneRunIsCalls(w1, k, ch, n + 1);
      var (st, last) := D.Run(st1, k, o.pass, ch, n + 1);
      FirstCall(w, k, ch, n, m, st, DataPlaneEnd(last));
      m := m + 1;
    }
  }
}
