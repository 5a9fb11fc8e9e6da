/**
 * The two sequence queries the handlers are built from: keeping the rows a
 * predicate selects (a database `find`) and locating the first row a
 * predicate selects (a database `findOne`).
 */
module Seqs {
  import opened Wrappers

  /** The rows of `s` that `keep` selects, in their original order. */
  function Filter<T(!new)>(s: seq<T>, keep: T -> bool): (r: seq<T>)
    ensures |r| <= |s|
    ensures forall x :: x in r <==> x in s && keep(x)
  {
    if s == [] then []
    else if keep(s[0]) then [s[0]] + Filter(s[1..], keep)
    else Filter(s[1..], keep)
  }

  /** Filtering keeps every selected row as often as it occurs, and drops every other one. */
  lemma {:induction false} FilterCount<T(!new)>(s: seq<T>, keep: T -> bool, x: T)
    ensures multiset(Filter(s, keep))[x] == if keep(x) then multiset(s)[x] else 0
  {
    if s != [] {
      FilterCount(s[1..], keep, x);
      assert s == [s[0]] + s[1..];
      assert multiset(s) == multiset([s[0]]) + multiset(s[1..]);
    }
  }

  /** `FilterCount` for every element at once. */
  lemma FilterCounts<T(!new)>(s: seq<T>, keep: T -> bool)
    ensures forall x :: multiset(Filter(s, keep))[x] == if keep(x) then multiset(s)[x] else 0
  {
    forall x ensures multiset(Filter(s, keep))[x] == if keep(x) then multiset(s)[x] else 0 {
      FilterCount(s, keep, x);
    }
  }

  /** The index of the first row `found` selects, if there is one. */
  function IndexWhere<T>(s: seq<T>, found: T -> bool): (r: Option<nat>)
    ensures r.Some? ==> r.value < |s| && found(s[r.value])
    ensures r.Some? ==> forall k :: 0 <= k < r.value ==> !found(s[k])
    ensures r.None? ==> forall k :: 0 <= k < |s| ==> !found(s[k])
  {
    if s == [] then None
    else if found(s[0]) then Some(0)
    else match IndexWhere(s[1..], found)
      case None => None
      case Some(k) => Some(k + 1)
  }
}
