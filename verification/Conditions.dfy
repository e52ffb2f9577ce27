/** Status conditions and the list update `meta.SetStatusCondition`, whose source is
    in k8s.io/apimachinery; the behaviour modelled here is its documented one. */
module Conditions {

  datatype Condition = Condition(
    typ: string, status: bool, reason: string, message: string, transition: nat)

  /** Position of the first condition of this type, or the length when there is none. */
  function IndexOf(cs: seq<Condition>, typ: string): (i: nat)
    ensures i <= |cs|
    ensures i < |cs| ==> cs[i].typ == typ
    ensures forall j :: 0 <= j < i ==> cs[j].typ != typ
  {
    if cs == [] then 0
    else if cs[0].typ == typ then 0
    else 1 + IndexOf(cs[1..], typ)
  }

  /** The list after setting `n`: updated by type or appended, with the old transition
      time kept unless the status flips. */
  function Set(cs: seq<Condition>, n: Condition): seq<Condition> {
    var i := IndexOf(cs, n.typ);
    if i == |cs| then cs + [n]
    else if cs[i].status == n.status then cs[i := n.(transition := cs[i].transition)]
    else cs[i := n]
  }

  predicate Has(cs: seq<Condition>, typ: string) {
    IndexOf(cs, typ) < |cs|
  }

  predicate IsTrue(cs: seq<Condition>, typ: string) {
    Has(cs, typ) && cs[IndexOf(cs, typ)].status
  }

  /** The condition of this type, and all that is asked of it but its time. */
  predicate Shows(cs: seq<Condition>, typ: string, status: bool, reason: string, message: string) {
    var i := IndexOf(cs, typ);
    i < |cs| && cs[i].status == status && cs[i].reason == reason && cs[i].message == message
  }

  function Transition(cs: seq<Condition>, typ: string): nat
    requires Has(cs, typ)
  {
    cs[IndexOf(cs, typ)].transition
  }

  ghost predicate Unique(cs: seq<Condition>) {
    forall i, j :: 0 <= i < j < |cs| ==> cs[i].typ != cs[j].typ
  }

  ghost predicate Before(cs: seq<Condition>, now: nat) {
    forall i :: 0 <= i < |cs| ==> cs[i].transition <= now
  }

  /** `b` may follow `a`: no type is lost, a transition time moves only when the status
      flips, and it never moves back. */
  ghost predicate Follows(a: seq<Condition>, b: seq<Condition>) {
    forall t :: Has(a, t) ==>
      && Has(b, t)
      && Transition(a, t) <= Transition(b, t)
      && (IsTrue(a, t) == IsTrue(b, t) ==> Transition(a, t) == Transition(b, t))
  }

  lemma IndexIs(cs: seq<Condition>, t: string, i: nat)
    requires i < |cs| && cs[i].typ == t
    requires forall j :: 0 <= j < i ==> cs[j].typ != t
    ensures IndexOf(cs, t) == i
  {
  }

  lemma NoIndex(cs: seq<Condition>, t: string)
    requires forall j :: 0 <= j < |cs| ==> cs[j].typ != t
    ensures IndexOf(cs, t) == |cs|
  {
  }

  /** Looking any type up after a `Set`. */
  lemma LookupAfterSet(cs: seq<Condition>, n: Condition, t: string)
    ensures var r := Set(cs, n);
            && IndexOf(r, n.typ) == IndexOf(cs, n.typ) < |r|
            && (t != n.typ ==> Has(r, t) == Has(cs, t))
            && (t != n.typ && Has(cs, t) ==> IndexOf(r, t) == IndexOf(cs, t))
            && (t != n.typ && Has(cs, t) ==> r[IndexOf(r, t)] == cs[IndexOf(cs, t)])
  {
    var r, i := Set(cs, n), IndexOf(cs, n.typ);
    IndexIs(r, n.typ, i);
    if t != n.typ {
      var j := IndexOf(cs, t);
      if j < |cs| {
        IndexIs(r, t, j);
      } else {
        NoIndex(r, t);
      }
    }
  }

  /** A condition that was set shows, and setting it has no effect exactly if it showed before. */
  lemma SetShows(cs: seq<Condition>, n: Condition)
    ensures Shows(Set(cs, n), n.typ, n.status, n.reason, n.message)
    ensures forall t, s, r, m :: t != n.typ ==> Shows(Set(cs, n), t, s, r, m) == Shows(cs, t, s, r, m)
  {
    forall t, s, r, m | t != n.typ ensures Shows(Set(cs, n), t, s, r, m) == Shows(cs, t, s, r, m) {
      LookupAfterSet(cs, n, t);
    }
    LookupAfterSet(cs, n, n.typ);
  }

  lemma SetIsIdle(cs: seq<Condition>, n: Condition)
    ensures Set(cs, n) == cs <==> Shows(cs, n.typ, n.status, n.reason, n.message)
  {
    SetShows(cs, n);
  }

  /** Setting a condition keeps types unique, makes the asked status the one looked up,
      leaves every other type alone, and never moves a transition time back or without
      a flip. */
  lemma SetIsSound(cs: seq<Condition>, n: Condition)
    requires Unique(cs) && Before(cs, n.transition)
    ensures Unique(Set(cs, n)) && Before(Set(cs, n), n.transition)
    ensures Has(Set(cs, n), n.typ) && IsTrue(Set(cs, n), n.typ) == n.status
    ensures Follows(cs, Set(cs, n))
    ensures forall t :: t != n.typ ==> IsTrue(Set(cs, n), t) == IsTrue(cs, t)
  {
    forall t ensures Has(cs, t) ==>
        && Has(Set(cs, n), t)
        && Transition(cs, t) <= Transition(Set(cs, n), t)
        && (IsTrue(cs, t) == IsTrue(Set(cs, n), t) ==> Transition(cs, t) == Transition(Set(cs, n), t))
      ensures t != n.typ ==> IsTrue(Set(cs, n), t) == IsTrue(cs, t)
    {
      LookupAfterSet(cs, n, t);
    }
    LookupAfterSet(cs, n, n.typ);
  }

  /** Setting the same condition twice is setting it once, whatever the second clock. */
  lemma SetTwice(cs: seq<Condition>, n: Condition, later: nat)
    ensures Set(Set(cs, n), n.(transition := later)) == Set(cs, n)
  {
    LookupAfterSet(cs, n, n.typ);
  }

  /** The library's loop: look for the type, then update in place or append. The first entry of
      the type takes the new status, reason and message, and the new time only if the status
      flips; all other entries stay as and where they are. */
  method SetStatusCondition(conditions: seq<Condition>, n: Condition) returns (r: seq<Condition>)
    ensures r == Set(conditions, n)
    ensures var i := IndexOf(conditions, n.typ);
      if i == |conditions| then r == conditions + [n]
      else
        var time := if conditions[i].status == n.status then conditions[i].transition else n.transition;
        r == conditions[i := Condition(n.typ, n.status, n.reason, n.message, time)]
  {
    var i := 0;
    while i < |conditions| && conditions[i].typ != n.typ
      invariant 0 <= i <= |conditions|
      invariant forall j :: 0 <= j < i ==> conditions[j].typ != n.typ
    {
      i := i + 1;
    }
    if i == |conditions| {
      NoIndex(conditions, n.typ);
      r := conditions + [n];
    } else {
      IndexIs(conditions, n.typ, i);
      var kept := conditions[i];
      if kept.status != n.status {
        kept := kept.(status := n.status, transition := n.transition);
      }
      kept := kept.(reason := n.reason, message := n.message);
      r := conditions[i := kept];
    }
  }
}
