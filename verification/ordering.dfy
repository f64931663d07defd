/** Ordering of query results: the `orderBy: { createdAt: 'desc' }` of the
    route handlers and the dashboard's `sort` by creation time, newest first. */
module Ordering {
  import Wrappers

  /** Newest first: keys never increase along the sequence. */
  predicate SortedDesc<T>(xs: seq<T>, key: T -> int) {
    forall i, j :: 0 <= i < j < |xs| ==> key(xs[i]) >= key(xs[j])
  }

  /** Places `x` before the first element whose key is smaller, so that
      among equal keys the earlier arrivals stay first. */
  function InsertDesc<T>(x: T, xs: seq<T>, key: T -> int): (r: seq<T>)
    requires SortedDesc(xs, key)
    ensures SortedDesc(r, key)
    ensures multiset(r) == multiset(xs) + multiset{x}
    ensures |r| == |xs| + 1
    ensures r[0] == x || (|xs| > 0 && r[0] == xs[0])
  {
    if |xs| == 0 then [x]
    else if key(x) > key(xs[0]) then [x] + xs
    else
      var tail := InsertDesc(x, xs[1..], key);
      assert xs == [xs[0]] + xs[1..];
      assert forall i :: 0 <= i < |tail| ==> key(tail[i]) <= key(tail[0]);
      assert key(tail[0]) <= key(xs[0]);
      [xs[0]] + tail
  }

  /** Sorts newest first; the result is a permutation of the input. */
  function SortDesc<T>(xs: seq<T>, key: T -> int): (r: seq<T>)
    ensures SortedDesc(r, key)
    ensures multiset(r) == multiset(xs)
    ensures |r| == |xs|
  {
    if |xs| == 0 then []
    else
      assert xs == xs[..|xs| - 1] + [xs[|xs| - 1]];
      InsertDesc(xs[|xs| - 1], SortDesc(xs[..|xs| - 1], key), key)
  }

  /** Sorting keeps exactly the elements it was given. */
  lemma SortDescMembers<T>(xs: seq<T>, key: T -> int, x: T)
    ensures x in SortDesc(xs, key) <==> x in xs
  {
    var r := SortDesc(xs, key);
    assert x in r <==> x in multiset(r);
    assert x in xs <==> x in multiset(xs);
  }

  /** Elements satisfying `p`, in their original order (`Array.filter` and
      a `where` clause). */
  function Filter<T>(xs: seq<T>, p: T -> bool): (r: seq<T>)
    ensures |r| <= |xs|
    ensures forall i :: 0 <= i < |r| ==> p(r[i])
  {
    if |xs| == 0 then []
    else
      var rest := Filter(xs[..|xs| - 1], p);
      if p(xs[|xs| - 1]) then rest + [xs[|xs| - 1]] else rest
  }

  /** The filter keeps exactly the elements satisfying `p`. */
  lemma {:induction false} FilterMembers<T>(xs: seq<T>, p: T -> bool)
    ensures forall i :: 0 <= i < |Filter(xs, p)| ==> Filter(xs, p)[i] in xs
    ensures forall i :: 0 <= i < |xs| && p(xs[i]) ==> xs[i] in Filter(xs, p)
  {
    if |xs| > 0 {
      var init := xs[..|xs| - 1];
      FilterMembers(init, p);
      assert xs == init + [xs[|xs| - 1]];
      assert forall i :: 0 <= i < |init| ==> init[i] == xs[i];
    }
  }

  /** Where an element that passes the filter lands in its result. */
  lemma {:induction false} FilterIndex<T>(xs: seq<T>, p: T -> bool, i: nat) returns (t: nat)
    requires i < |xs| && p(xs[i])
    ensures t < |Filter(xs, p)| && Filter(xs, p)[t] == xs[i]
  {
    var init := xs[..|xs| - 1];
    if i == |xs| - 1 {
      t := |Filter(init, p)|;
    } else {
      assert xs[i] == init[i];
      t := FilterIndex(init, p, i);
    }
  }

  /** Filtering then sorting keeps exactly the elements satisfying `p`. */
  lemma SortedFilterMembers<T>(xs: seq<T>, p: T -> bool, key: T -> int)
    ensures var r := SortDesc(Filter(xs, p), key);
            && (forall i :: 0 <= i < |r| ==> p(r[i]) && r[i] in xs)
            && (forall i :: 0 <= i < |xs| && p(xs[i]) ==> xs[i] in r)
  {
    var f := Filter(xs, p);
    var r := SortDesc(f, key);
    FilterMembers(xs, p);
    forall i | 0 <= i < |xs| && p(xs[i]) ensures xs[i] in r {
      SortDescMembers(f, key, xs[i]);
    }
    forall i | 0 <= i < |r| ensures p(r[i]) && r[i] in xs {
      SortDescMembers(f, key, r[i]);
      var j :| 0 <= j < |f| && f[j] == r[i];
    }
  }

  /** How many elements satisfy `p` (`filter(p).length`). */
  function Count<T>(xs: seq<T>, p: T -> bool): (n: nat)
    ensures n <= |xs|
    ensures n == |Filter(xs, p)|
  {
    if |xs| == 0 then 0
    else Count(xs[..|xs| - 1], p) + (if p(xs[|xs| - 1]) then 1 else 0)
  }

  /** A count is zero exactly when no element satisfies the predicate. */
  lemma {:induction false} CountZero<T>(xs: seq<T>, p: T -> bool)
    ensures Count(xs, p) == 0 <==> forall i :: 0 <= i < |xs| ==> !p(xs[i])
  {
    if |xs| > 0 {
      CountZero(xs[..|xs| - 1], p);
      assert forall i :: 0 <= i < |xs| - 1 ==> xs[..|xs| - 1][i] == xs[i];
    }
  }

  /** Position of the first element satisfying `p` (`findFirst`, `find`,
      `findUnique` on a table kept in primary-key order). */
  function FirstIndex<T>(xs: seq<T>, p: T -> bool): (r: Wrappers.Option<nat>)
    ensures r.Some? ==> r.value < |xs| && p(xs[r.value])
    ensures r.Some? ==> forall j :: 0 <= j < r.value ==> !p(xs[j])
    ensures r.None? <==> forall j :: 0 <= j < |xs| ==> !p(xs[j])
  {
    if |xs| == 0 then Wrappers.None
    else if p(xs[0]) then Wrappers.Some(0)
    else
      match FirstIndex(xs[1..], p)
      case None => Wrappers.None
      case Some(k) => Wrappers.Some(k + 1)
  }
}
