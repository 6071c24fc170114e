/**
 Sorting a copy of a slice by a total preorder. Only sortedness and the multiset of elements
 are promised: nothing may depend on how equal elements are ordered.
 */
module Sorting {
  ghost predicate TotalPreorder<T(!new)>(le: (T, T) -> bool) {
    && (forall a, b :: le(a, b) || le(b, a))
    && (forall a, b, c :: le(a, b) && le(b, c) ==> le(a, c))
  }

  ghost predicate SortedBy<T>(s: seq<T>, le: (T, T) -> bool) {
    forall i, j | 0 <= i < j < |s| :: le(s[i], s[j])
  }

  /** How many leading elements must stay in front of `x`. */
  function Position<T(!new)>(s: seq<T>, x: T, le: (T, T) -> bool, k: nat): (p: nat)
    requires TotalPreorder(le) && SortedBy(s, le) && k <= |s|
    requires forall j | 0 <= j < k :: le(s[j], x)
    ensures p <= |s| && (forall j | 0 <= j < p :: le(s[j], x)) && (forall j | p <= j < |s| :: le(x, s[j]))
    decreases |s| - k
  {
    if k == |s| || !le(s[k], x) then k else Position(s, x, le, k + 1)
  }

  function Placed<T>(s: seq<T>, x: T, k: nat): (r: seq<T>)
    requires k <= |s|
    ensures |r| == |s| + 1
    ensures forall j | 0 <= j < |r| :: r[j] == if j < k then s[j] else if j == k then x else s[j - 1]
    ensures multiset(r) == multiset(s) + multiset{x}
  {
    assert s == s[..k] + s[k..];
    s[..k] + [x] + s[k..]
  }

  lemma PlacedSorted<T(!new)>(s: seq<T>, x: T, le: (T, T) -> bool)
    requires TotalPreorder(le) && SortedBy(s, le)
    ensures SortedBy(Placed(s, x, Position(s, x, le, 0)), le)
  {
  }

  function Sorted<T(!new)>(s: seq<T>, le: (T, T) -> bool): (r: seq<T>)
    requires TotalPreorder(le)
    ensures SortedBy(r, le) && multiset(r) == multiset(s)
  {
    if s == [] then []
    else
      var rest := Sorted(s[1..], le);
      PlacedSorted(rest, s[0], le);
      assert s == [s[0]] + s[1..];
      Placed(rest, s[0], Position(rest, s[0], le, 0))
  }
}
