/**
  Keeping the present values of a list of optional results, in order.  Both
  loops of a workflow search have this shape: the node loop keeps the
  entries of the matching nodes, the row loop keeps the entries of the rows
  with at least one matching node.
*/
module Collect {
  import opened Wrappers

  /** `[f(x) for x in s]`, for a function defined on every element of `s`. */
  function Map<A, B>(f: A --> B, s: seq<A>): (r: seq<B>)
    requires forall x :: x in s ==> f.requires(x)
    ensures |r| == |s|
    ensures forall i :: 0 <= i < |s| ==> r[i] == f(s[i])
  {
    if s == [] then [] else Map(f, s[..|s| - 1]) + [f(s[|s| - 1])]
  }

  /** Mapping one more element appends its image. */
  lemma MapSnoc<A, B>(f: A --> B, s: seq<A>, i: nat)
    requires forall x :: x in s ==> f.requires(x)
    requires i < |s|
    ensures Map(f, s[..i + 1]) == Map(f, s[..i]) + [f(s[i])]
  {
    assert s[..i + 1][..i] == s[..i];
  }

  /** The values of the `Some` elements, in order. */
  function Somes<T>(s: seq<Option<T>>): seq<T>
  {
    if s == [] then []
    else
      var n := |s| - 1;
      Somes(s[..n]) + (if s[n].Some? then [s[n].value] else [])
  }

  /** The positions of the `Some` elements, in order. */
  function SomePositions<T>(s: seq<Option<T>>): seq<nat>
  {
    if s == [] then []
    else
      var n := |s| - 1;
      SomePositions(s[..n]) + (if s[n].Some? then [n] else [])
  }

  /** Appending one optional result appends its value, if any. */
  lemma SomesSnoc<T>(s: seq<Option<T>>, x: Option<T>)
    ensures Somes(s + [x]) == Somes(s) + (if x.Some? then [x.value] else [])
  {
    assert (s + [x])[..|s|] == s;
  }

  /** The positions are valid, strictly increasing, and at most one per element. */
  lemma {:induction false} SomePositionsSound<T>(s: seq<Option<T>>)
    ensures |SomePositions(s)| <= |s|
    ensures forall j :: 0 <= j < |SomePositions(s)| ==> SomePositions(s)[j] < |s|
    ensures forall j :: 0 <= j < |SomePositions(s)| ==> s[SomePositions(s)[j]].Some?
    ensures forall j, k :: 0 <= j < k < |SomePositions(s)| ==> SomePositions(s)[j] < SomePositions(s)[k]
  {
    if s != [] {
      var n := |s| - 1;
      SomePositionsSound(s[..n]);
      var p0 := SomePositions(s[..n]);
      assert forall j :: 0 <= j < |p0| ==> s[p0[j]] == s[..n][p0[j]];
    }
  }

  /** Every `Some` element's position is listed. */
  lemma {:induction false} SomePositionsComplete<T>(s: seq<Option<T>>)
    ensures forall i :: 0 <= i < |s| && s[i].Some? ==> i in SomePositions(s)
  {
    if s != [] {
      var n := |s| - 1;
      SomePositionsComplete(s[..n]);
      assert forall i :: 0 <= i < n ==> s[..n][i] == s[i];
    }
  }

  /** The j-th kept value is the value at the j-th listed position. */
  lemma {:induction false} SomesAtPositions<T>(s: seq<Option<T>>)
    ensures |Somes(s)| == |SomePositions(s)|
    ensures forall j :: 0 <= j < |SomePositions(s)| ==> SomePositions(s)[j] < |s|
    ensures forall j :: 0 <= j < |SomePositions(s)| ==> s[SomePositions(s)[j]] == Some(Somes(s)[j])
  {
    if s != [] {
      var n := |s| - 1;
      SomesAtPositions(s[..n]);
      var p0 := SomePositions(s[..n]);
      assert forall j :: 0 <= j < |p0| ==> s[p0[j]] == s[..n][p0[j]];
    }
  }

  /**
    `Somes(s)` is exactly the present values of `s`, each once, in order:
    the j-th of them sits at the j-th of a strictly increasing list of
    positions, and that list holds every position of a `Some`.
  */
  lemma SomesExact<T>(s: seq<Option<T>>)
    ensures |Somes(s)| == |SomePositions(s)| <= |s|
    ensures forall j :: 0 <= j < |SomePositions(s)| ==>
              SomePositions(s)[j] < |s| && s[SomePositions(s)[j]] == Some(Somes(s)[j])
    ensures forall j, k :: 0 <= j < k < |SomePositions(s)| ==> SomePositions(s)[j] < SomePositions(s)[k]
    ensures forall i :: 0 <= i < |s| ==> (i in SomePositions(s) <==> s[i].Some?)
  {
    SomePositionsSound(s);
    SomePositionsComplete(s);
    SomesAtPositions(s);
    var p := SomePositions(s);
    forall i | 0 <= i < |s| && i in p
      ensures s[i].Some?
    {
      var j :| 0 <= j < |p| && p[j] == i;
    }
  }

  /** No present value, nothing kept. */
  lemma {:induction false} SomesOfNones<T>(s: seq<Option<T>>)
    requires forall i :: 0 <= i < |s| ==> s[i].None?
    ensures Somes(s) == []
  {
    if s != [] {
      SomesOfNones(s[..|s| - 1]);
    }
  }
}
