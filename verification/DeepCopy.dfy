/** api/v1/zz_generated.deepcopy.go: every copy starts as a shallow one, which shares slices and
    pointers with its source, and is then unshared level by level. */
module DeepCopy {
  import opened Base
  import opened Conditions

  // ---- Slices -------------------------------------------------------------------------------

  /** A Go slice is nil or a whole array, which other slices may share. */
  type Slice<T> = array?<T>

  /** What a slice holds; nil and empty stay apart. */
  function Held<T>(s: Slice<T>): Option<seq<T>>
    reads s
  {
    if s == null then None else Some(s[..])
  }

  function Arrays<T>(s: Slice<T>): set<object> {
    if s == null then {} else {s}
  }

  /** Allocate, then fill element by element. */
  method CopySlice<T(0)>(s: Slice<T>) returns (t: Slice<T>)
    ensures Held(t) == Held(s) && fresh(Arrays(t))
  {
    if s == null { return null; }
    t := new T[s.Length];
    for i := 0 to s.Length
      invariant t[..i] == s[..i]
    {
      t[i] := s[i];
    }
    assert t[..] == t[..s.Length] && s[..] == s[..s.Length];
  }

  // ---- Pointers -----------------------------------------------------------------------------

  /** metav1.Time, behind the pointer of a user's LastPasswordReset. */
  class Time {
    var instant: int

    constructor (instant: int)
      ensures this.instant == instant
    {
      this.instant := instant;
    }

    method DeepCopy() returns (t: Time)
      ensures fresh(t) && t.instant == instant
    {
      t := new Time(instant);
    }
  }

  class OIDCConfig {
    var issuerURL: string
    var clientID: string
    var clientSecretRef: string
    var scopes: Slice<string>

    constructor ()
      ensures issuerURL == clientID == clientSecretRef == "" && scopes == null
    {
      issuerURL, clientID, clientSecretRef, scopes := "", "", "", null;
    }

    function Content(): (string, string, string, Option<seq<string>>)
      reads this, scopes
    {
      (issuerURL, clientID, clientSecretRef, Held(scopes))
    }

    /** The source's text, location by location: every read of the receiver happens after the
        writes before it. So it copies into any other location, and into the receiver itself it
        leaves an array of empty strings: what it held is lost. */
    method DeepCopyInto(out: OIDCConfig)
      modifies out
      ensures fresh(Arrays(out.scopes))
      ensures out != this ==> out.Content() == old(Content()) == Content()
      ensures out == this && old(scopes) != null ==>
                Content() == (old(issuerURL), old(clientID), old(clientSecretRef),
                    Some(seq(old(scopes).Length, _ => "")))
      ensures out == this && old(scopes) == null ==> Content() == old(Content())
    {
      out.issuerURL, out.clientID, out.clientSecretRef, out.scopes := issuerURL, clientID, clientSecretRef, scopes;
      if scopes != null {
        out.scopes := new string[scopes.Length](_ => "");
        for i := 0 to scopes.Length
          invariant fresh(out.scopes) && out.scopes.Length == old(scopes).Length == scopes.Length
          invariant out.issuerURL == old(issuerURL) && out.clientID == old(clientID)
                    && out.clientSecretRef == old(clientSecretRef)
          invariant out != this
                    ==> scopes == old(scopes) && scopes[..] == old(scopes[..]) && out.scopes[..i] == scopes[..i]
          invariant out == this ==> forall j :: 0 <= j < scopes.Length ==> scopes[j] == ""
        {
          out.scopes[i] := scopes[i];
        }
        assert out.scopes[..] == out.scopes[..scopes.Length] && scopes[..] == scopes[..scopes.Length];
        assert out == this ==> scopes[..] == seq(old(scopes).Length, _ => "");
      }
    }
  }

  // ---- Structs ------------------------------------------------------------------------------

  /** A spec: its plain fields, and those behind references. `strings` is a data plane's
      Brokers, an init's Gateways or a user's Roles; `oidc` an auth configuration's OIDCConfig;
      nil where the type has no such field. */
  datatype Spec<P> = Spec(plain: P, strings: Slice<string>, oidc: OIDCConfig?)

  /** A status: `warnings` is a data plane's, `reset` a user's LastPasswordReset; nil where the
      type has no such field. */
  datatype Status<P> = Status(plain: P, warnings: Slice<string>, reset: Time?, conditions: Slice<Condition>)

  datatype Meta = Meta(namespace: string, name: string, version: nat)

  datatype Object<P, Q> = Object(meta: Meta, spec: Spec<P>, status: Status<Q>)

  /** A listing of resources. */
  datatype List<P, Q> = List(version: nat, items: Slice<Object<P, Q>>)

  function Scopes<P, Q>(x: Object<P, Q>): Slice<string>
    reads x.spec.oidc
  {
    if x.spec.oidc == null then null else x.spec.oidc.scopes
  }

  function Cells<P, Q>(x: Object<P, Q>): set<object> {
    (if x.spec.oidc == null then {} else {x.spec.oidc}) + (if x.status.reset == null then {} else {x.status.reset})
  }

  /** Everything that the struct reaches by a slice or a pointer. */
  function Reach<P, Q>(x: Object<P, Q>): set<object>
    reads x.spec.oidc
  {
    Cells(x) + Arrays(x.spec.strings) + Arrays(Scopes(x)) + Arrays(x.status.warnings) + Arrays(x.status.conditions)
  }

  /** The struct as a value, with nothing left to share. */
  datatype Content<P, Q> = Content(
    meta: Meta, spec: P, strings: Option<seq<string>>, oidc: Option<(string, string, string, Option<seq<string>>)>,
    status: Q, warnings: Option<seq<string>>, reset: Option<int>, conditions: Option<seq<Condition>>)

  function ContentOf<P, Q>(x: Object<P, Q>): Content<P, Q>
    reads Reach(x)
  {
    Content(x.meta,
      x.spec.plain, Held(x.spec.strings), if x.spec.oidc == null then None else Some(x.spec.oidc.Content()),
      x.status.plain, Held(x.status.warnings), if x.status.reset == null then None else Some(x.status.reset.instant),
      Held(x.status.conditions))
  }

  /** No two slices of strings of the struct share an array. */
  ghost predicate Apart<P, Q>(x: Object<P, Q>)
    reads x.spec.oidc
  {
    && Arrays(x.spec.strings) !! Arrays(x.status.warnings)
    && Arrays(x.spec.strings) !! Arrays(Scopes(x)) && Arrays(Scopes(x)) !! Arrays(x.status.warnings)
  }

  method CopySpec<P>(x: Spec<P>) returns (y: Spec<P>)
    ensures y.plain == x.plain && Held(y.strings) == Held(x.strings) && fresh(Arrays(y.strings))
    ensures y.oidc == null <==> x.oidc == null
    ensures y.oidc != null ==> fresh(y.oidc) && fresh(Arrays(y.oidc.scopes)) && y.oidc.Content() == x.oidc.Content()
    ensures y.oidc != null ==> Arrays(y.strings) !! Arrays(y.oidc.scopes)
  {
    y := x;
    if x.strings != null {
      var strings := CopySlice(x.strings);
      y := y.(strings := strings);
    }
    if x.oidc != null {
      var oidc := new OIDCConfig();
      x.oidc.DeepCopyInto(oidc);
      y := y.(oidc := oidc);
    }
  }

  method CopyStatus<Q>(x: Status<Q>) returns (y: Status<Q>)
    ensures y.plain == x.plain && Held(y.warnings) == Held(x.warnings) && Held(y.conditions) == Held(x.conditions)
    ensures fresh(Arrays(y.warnings)) && fresh(Arrays(y.conditions))
    ensures y.reset == null <==> x.reset == null
    ensures y.reset != null ==> fresh(y.reset) && y.reset.instant == x.reset.instant
  {
    y := x;
    if x.warnings != null {
      var warnings := CopySlice(x.warnings);
      y := y.(warnings := warnings);
    }
    if x.reset != null {
      var reset := x.reset.DeepCopy();
      y := y.(reset := reset);
    }
    if x.conditions != null {
      var conditions := CopySlice(x.conditions);
      y := y.(conditions := conditions);
    }
  }

  method Copy<P, Q>(x: Object<P, Q>) returns (y: Object<P, Q>)
    ensures ContentOf(y) == ContentOf(x) == old(ContentOf(x))
    ensures fresh(Reach(y)) && Apart(y)
  {
    y := x;
    var spec := CopySpec(x.spec);
    y := y.(spec := spec);
    var status := CopyStatus(x.status);
    y := y.(status := status);
  }

  // ---- Listings -------------------------------------------------------------------------------

  ghost function AllCells<P, Q>(xs: seq<Object<P, Q>>): set<object> {
    if xs == [] then {} else AllCells(xs[..|xs| - 1]) + Cells(xs[|xs| - 1])
  }

  ghost function AllReach<P, Q>(xs: seq<Object<P, Q>>): (r: set<object>)
    reads AllCells(xs)
    ensures AllCells(xs) <= r
  {
    if xs == [] then {} else AllReach(xs[..|xs| - 1]) + Reach(xs[|xs| - 1])
  }

  ghost function Contents<P, Q>(xs: seq<Object<P, Q>>): seq<Content<P, Q>>
    reads AllCells(xs), AllReach(xs)
  {
    if xs == [] then [] else Contents(xs[..|xs| - 1]) + [ContentOf(xs[|xs| - 1])]
  }

  /** No item shares anything with another. */
  ghost predicate AllApart<P, Q>(xs: seq<Object<P, Q>>)
    reads AllCells(xs)
  {
    xs == [] || (AllApart(xs[..|xs| - 1]) && Apart(xs[|xs| - 1]) && AllReach(xs[..|xs| - 1]) !! Reach(xs[|xs| - 1]))
  }

  lemma {:induction false} ContentsAt<P, Q>(xs: seq<Object<P, Q>>, i: nat)
    requires i < |xs|
    ensures |Contents(xs)| == |xs| && Contents(xs)[i] == ContentOf(xs[i])
  {
    if i < |xs| - 1 {
      ContentsAt(xs[..|xs| - 1], i);
    } else if i > 0 {
      ContentsAt(xs[..|xs| - 1], i - 1);
    }
  }

  lemma {:induction false} ApartAt<P, Q>(xs: seq<Object<P, Q>>, i: nat, j: nat)
    requires AllApart(xs) && i < j < |xs|
    ensures Reach(xs[i]) !! Reach(xs[j])
  {
    if j < |xs| - 1 {
      ApartAt(xs[..|xs| - 1], i, j);
    } else {
      ReachAt(xs[..|xs| - 1], i);
    }
  }

  lemma {:induction false} ReachAt<P, Q>(xs: seq<Object<P, Q>>, i: nat)
    requires i < |xs|
    ensures Reach(xs[i]) <= AllReach(xs)
  {
    if i < |xs| - 1 {
      ReachAt(xs[..|xs| - 1], i);
    }
  }

  lemma {:induction false} AllAllocated<P, Q>(xs: seq<Object<P, Q>>)
    ensures forall o :: o in AllReach(xs) ==> allocated(o)
    ensures forall o :: o in AllCells(xs) ==> allocated(o)
  {
    if xs != [] {
      AllAllocated(xs[..|xs| - 1]);
    }
  }

  /** `DeepCopyInto` for a location that is an element of a slice. */
  method CopyInto<P, Q>(x: Object<P, Q>, items: array<Object<P, Q>>, i: nat)
    requires i < items.Length
    modifies items
    ensures items[..] == old(items[..])[i := items[i]]
    ensures ContentOf(items[i]) == old(ContentOf(x))
    ensures fresh(Reach(items[i])) && Apart(items[i])
  {
    var y := Copy(x);
    items[i] := y;
  }

  /** One round of the loop: what was copied before stays as it is, and apart. */
  method CopyNext<P, Q>(x: Object<P, Q>, items: array<Object<P, Q>>, i: nat)
    requires i < items.Length && AllApart(items[..i]) && items !in AllReach(items[..i])
    modifies items
    ensures Contents(items[..i + 1]) == old(Contents(items[..i])) + [old(ContentOf(x))]
    ensures AllApart(items[..i + 1]) && items !in AllReach(items[..i + 1])
    ensures fresh(Reach(items[i])) && AllReach(items[..i + 1]) == old(AllReach(items[..i])) + Reach(items[i])
  {
    hide ContentOf, Apart, Reach, Cells;
    ghost var before := items[..i];
    AllAllocated(before);
    CopyInto(x, items, i);
    assert items[..i + 1][..i] == before;
  }

  lemma NoItems<P, Q>(xs: seq<Object<P, Q>>)
    requires xs == []
    ensures AllReach(xs) == {} && Contents(xs) == [] && AllApart(xs)
  {
  }

  lemma ContentsLength<P, Q>(xs: seq<Object<P, Q>>)
    ensures |Contents(xs)| == |xs|
  {
    if xs != [] {
      ContentsAt(xs, 0);
    }
  }

  method Fill<P, Q>(from: array<Object<P, Q>>, items: array<Object<P, Q>>)
    requires items.Length == from.Length && items != from && items !in AllReach(from[..])
    modifies items
    ensures from[..] == old(from[..]) && Contents(from[..]) == old(Contents(from[..]))
    ensures Contents(items[..]) == Contents(from[..])
    ensures fresh(AllReach(items[..])) && AllApart(items[..])
  {
    hide ContentOf, Apart, Reach, Cells, AllCells, AllReach, Contents, AllApart;
    ghost var src, values := from[..], Contents(from[..]);
    AllAllocated(src);
    ContentsLength(src);
    NoItems(items[..0]);
    for i := 0 to items.Length
      invariant from[..] == src && Contents(src) == values && items !in AllReach(src)
      invariant Contents(items[..i]) == values[..i]
      invariant fresh(AllReach(items[..i])) && items !in AllReach(items[..i]) && AllApart(items[..i])
    {
      ContentsAt(src, i);
      CopyNext(from[i], items, i);
    }
    assert items[..items.Length] == items[..];
  }

  /** Everything that the list reaches: its array of items, and all that they reach. */
  ghost function ListReach<P, Q>(l: List<P, Q>): set<object>
    reads l.items, if l.items == null then {} else AllCells(l.items[..])
  {
    if l.items == null then {} else {l.items} + AllReach(l.items[..])
  }

  /** The list as a value. */
  ghost function ListContent<P, Q>(l: List<P, Q>): (nat, Option<seq<Content<P, Q>>>)
    reads ListReach(l)
  {
    (l.version, if l.items == null then None else Some(Contents(l.items[..])))
  }

  /** Copies a whole list: the same content, nothing of it shared, neither with the source nor
      between its items, whatever the items of the source share. The source is as it was. */
  method CopyList<P(0), Q(0)>(l: List<P, Q>) returns (r: List<P, Q>)
    ensures ListContent(r) == ListContent(l) == old(ListContent(l)) && ListReach(l) == old(ListReach(l))
    ensures l.items != null ==> l.items[..] == old(l.items[..])
    ensures fresh(ListReach(r)) && ListReach(r) !! ListReach(l)
    ensures r.items != null ==> AllApart(r.items[..])
  {
    hide ContentOf, Apart, Reach, Cells, Contents, AllReach, AllCells, AllApart;
    r := l;
    if l.items != null {
      AllAllocated(l.items[..]);
      var items := new Object<P, Q>[l.items.Length];
      Fill(l.items, items);
      r := r.(items := items);
    }
  }

  /** From any state in which two lists reach nothing in common, as a source and its copy do:
      objects that one of them reaches are `written`, and all else that the two reach is
      `kept`. Then the other still reaches the same objects and holds the same content. */
  twostate lemma WritesSpareTheOther<P, Q>(l: List<P, Q>, r: List<P, Q>, written: set<object>, kept: set<object>)
    requires old(ListReach(l)) !! old(ListReach(r))
    requires kept == old(ListReach(l)) + old(ListReach(r)) - written && unchanged(kept)
    ensures written <= old(ListReach(r)) ==> ListReach(l) == old(ListReach(l)) && ListContent(l) == old(ListContent(l))
    ensures written <= old(ListReach(l)) ==> ListReach(r) == old(ListReach(r)) && ListContent(r) == old(ListContent(r))
  {
    hide ContentOf, Reach, Cells;
  }
}
