/**
 * The list updates the views apply to their state arrays: `filter`, a keyed `map` that
 * rewrites only the items whose key matches, a keyed removal, and the page merge of the
 * infinite-scroll lists (page 1 replaces, later pages append).
 */
module Collections {

  /** `xs.filter(keep)`. */
  function Filter<T>(xs: seq<T>, keep: T -> bool): (r: seq<T>)
    ensures |r| <= |xs|
  {
    if xs == [] then [] else (if keep(xs[0]) then [xs[0]] else []) + Filter(xs[1..], keep)
  }

  /** The filtered list holds exactly the items of `xs` that pass `keep`. */
  lemma {:induction false} FilterMembers<T>(xs: seq<T>, keep: T -> bool)
    ensures forall x :: x in Filter(xs, keep) <==> x in xs && keep(x)
  {
    if xs != [] {
      FilterMembers(xs[1..], keep);
      assert xs == [xs[0]] + xs[1..];
    }
  }

  /** Filtering commutes with concatenation, so the kept items stay in their original order. */
  lemma {:induction false} FilterAppend<T>(xs: seq<T>, ys: seq<T>, keep: T -> bool)
    ensures Filter(xs + ys, keep) == Filter(xs, keep) + Filter(ys, keep)
  {
    if xs == [] {
      assert xs + ys == ys;
    } else {
      var head := if keep(xs[0]) then [xs[0]] else [];
      var zs := xs + ys;
      assert zs[0] == xs[0] && zs[1..] == xs[1..] + ys;
      assert Filter(zs, keep) == head + Filter(xs[1..] + ys, keep);
      FilterAppend(xs[1..], ys, keep);
      assert Filter(xs, keep) == head + Filter(xs[1..], keep);
    }
  }

  /** When every item passes, filtering changes nothing. */
  lemma {:induction false} FilterKeepsAll<T>(xs: seq<T>, keep: T -> bool)
    requires forall i :: 0 <= i < |xs| ==> keep(xs[i])
    ensures Filter(xs, keep) == xs
  {
    if xs != [] {
      FilterKeepsAll(xs[1..], keep);
      assert xs == [xs[0]] + xs[1..];
    }
  }

  /** `xs.filter(x => keyOf(x) !== k)`. */
  function RemoveWhere<T, K(==)>(xs: seq<T>, keyOf: T -> K, k: K): seq<T> {
    Filter(xs, x => keyOf(x) != k)
  }

  /**
   * Removing by key drops exactly the items with that key: what remains is every other
   * item, in order, and a list with no such item comes back unchanged.
   */
  lemma RemoveWhereSpec<T, K>(xs: seq<T>, keyOf: T -> K, k: K)
    ensures forall x :: x in RemoveWhere(xs, keyOf, k) <==> x in xs && keyOf(x) != k
    ensures forall ys, zs :: xs == ys + zs ==>
      RemoveWhere(xs, keyOf, k) == RemoveWhere(ys, keyOf, k) + RemoveWhere(zs, keyOf, k)
    ensures (forall i :: 0 <= i < |xs| ==> keyOf(xs[i]) != k) ==> RemoveWhere(xs, keyOf, k) == xs
  {
    FilterMembers(xs, x => keyOf(x) != k);
    forall ys, zs | xs == ys + zs
      ensures RemoveWhere(xs, keyOf, k) == RemoveWhere(ys, keyOf, k) + RemoveWhere(zs, keyOf, k)
    {
      FilterAppend(ys, zs, x => keyOf(x) != k);
    }
    if forall i :: 0 <= i < |xs| ==> keyOf(xs[i]) != k {
      FilterKeepsAll(xs, x => keyOf(x) != k);
    }
  }

  /** `xs.map(x => keyOf(x) === k ? f(x) : x)`. */
  function UpdateWhere<T, K(==)>(xs: seq<T>, keyOf: T -> K, k: K, f: T -> T): seq<T> {
    if xs == [] then []
    else [if keyOf(xs[0]) == k then f(xs[0]) else xs[0]] + UpdateWhere(xs[1..], keyOf, k, f)
  }

  /** A keyed update keeps the length and position of every item and rewrites only the matching ones. */
  lemma {:induction false} UpdateWhereAt<T, K>(xs: seq<T>, keyOf: T -> K, k: K, f: T -> T)
    ensures |UpdateWhere(xs, keyOf, k, f)| == |xs|
    ensures forall i :: 0 <= i < |xs| ==>
      UpdateWhere(xs, keyOf, k, f)[i] == if keyOf(xs[i]) == k then f(xs[i]) else xs[i]
  {
    if xs != [] {
      UpdateWhereAt(xs[1..], keyOf, k, f);
      var r := UpdateWhere(xs, keyOf, k, f);
      forall i | 0 <= i < |xs|
        ensures r[i] == if keyOf(xs[i]) == k then f(xs[i]) else xs[i]
      {
        if i > 0 { assert r[i] == UpdateWhere(xs[1..], keyOf, k, f)[i - 1]; }
      }
    }
  }

  /** Infinite-scroll merge: page 1 replaces the list, any later page is appended after it. */
  function MergePage<T>(prev: seq<T>, pageNum: int, results: seq<T>): seq<T> {
    if pageNum == 1 then results else prev + results
  }

  /** The merged list: page 1 shows exactly the new results; a later page keeps the old list as a prefix, followed by the new results in order. */
  lemma MergePageSpec<T>(prev: seq<T>, pageNum: int, results: seq<T>)
    ensures pageNum == 1 ==> MergePage(prev, pageNum, results) == results
    ensures pageNum != 1 ==>
      && |MergePage(prev, pageNum, results)| == |prev| + |results|
      && MergePage(prev, pageNum, results)[..|prev|] == prev
      && MergePage(prev, pageNum, results)[|prev|..] == results
  {
  }
}
