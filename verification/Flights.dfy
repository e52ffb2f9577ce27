/** One pass in flight while everything else goes on: what its own calls keep, it still has
    whenever it is looked at again. */
module Flights {
  import opened Resources
  import opened Stores
  import opened Machine

  /** The pass of `k` is still in flight after the label. */
  ghost predicate Survives(w: World, k: Key, l: Label) {
    k in w.passes && l != Abort(k) && l != Restart
    && (l.Call? && l.k == k ==> PassStep(w.cfg, w.st, k, w.passes[k], l.c).1.Go?)
  }

  ghost predicate Lasts(w: World, k: Key, ls: seq<Label>)
    decreases |ls|
  {
    k in w.passes && (ls != [] ==> Survives(w, k, ls[0]) && Lasts(Next(w, ls[0]), k, ls[1..]))
  }

  /** The calls of a pass of `k` keep this. */
  ghost predicate Closed(k: Key, keep: Pass -> bool) {
    forall cfg: Config, st: Stores, p: Pass, c: Choice ::
      keep(p) && PassStep(cfg, st, k, p, c).1.Go? ==> keep(PassStep(cfg, st, k, p, c).1.pass)
  }

  lemma NextFlight(w: World, k: Key, l: Label)
    requires Survives(w, k, l)
    ensures k in Next(w, l).passes
    ensures var q := Next(w, l).passes[k];
      || q == w.passes[k]
      || (l.Call? && l.k == k && q == PassStep(w.cfg, w.st, k, w.passes[k], l.c).1.pass)
  {
    hide PassStep, Environment, Grows, TenantsInjective;
  }

  lemma {:induction false} LastsKeeps(w: World, k: Key, ls: seq<Label>, keep: Pass -> bool)
    requires Lasts(w, k, ls) && Closed(k, keep) && keep(w.passes[k])
    ensures k in Exec(w, ls).passes && keep(Exec(w, ls).passes[k])
    decreases |ls|
  {
    hide PassStep, Next;
    if ls != [] {
      NextFlight(w, k, ls[0]);
      LastsKeeps(Next(w, ls[0]), k, ls[1..], keep);
    }
  }

  /** What the stores hold they hold ever after. */
  lemma {:induction false} ExecGrows(w: World, ls: seq<Label>)
    ensures Grows(w.st, Exec(w, ls).st)
    decreases |ls|
  {
    hide Grows, Next;
    if ls == [] {
      GrowsReflexive(w.st);
    } else {
      ExecGrows(Next(w, ls[0]), ls[1..]);
      GrowsTransitive(w.st, Next(w, ls[0]).st, Exec(w, ls).st);
    }
  }
}
