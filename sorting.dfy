/**
  `sort(by:)` / `sorted(by:)` with a strict ordering predicate. Swift's sort
  is not stable, so the contract says only what every run guarantees: the
  result is ordered and holds the same elements. An insertion sort realises it.
*/
module Sorting {
  /** What `sort(by:)` demands of its predicate: irreflexive, transitive, and "not before" transitive too. */
  ghost predicate StrictWeakOrder<T(!new)>(less: (T, T) -> bool) {
    && (forall a :: !less(a, a))
    && (forall a, b, c :: less(a, b) && less(b, c) ==> less(a, c))
    && (forall a, b, c :: !less(a, b) && !less(b, c) ==> !less(a, c))
  }

  /** No element comes strictly before an earlier one. */
  predicate SortedBy<T>(xs: seq<T>, less: (T, T) -> bool) {
    forall i, j :: 0 <= i < j < |xs| ==> !less(xs[j], xs[i])
  }

  /** Every element of `xs` is not before `x`. */
  predicate NoneBefore<T>(xs: seq<T>, x: T, less: (T, T) -> bool) {
    forall k :: 0 <= k < |xs| ==> !less(xs[k], x)
  }

  lemma NoneBeforeOfElements<T>(xs: seq<T>, x: T, less: (T, T) -> bool)
    requires forall y :: y in multiset(xs) ==> !less(y, x)
    ensures NoneBefore(xs, x, less)
  {
    forall k | 0 <= k < |xs|
      ensures !less(xs[k], x)
    {
      assert xs[k] in multiset(xs);
    }
  }

  /** `x` inserted into the ordered `xs` after every element strictly before it. */
  function Insert<T(!new)>(xs: seq<T>, x: T, less: (T, T) -> bool): (r: seq<T>)
    requires StrictWeakOrder(less) && SortedBy(xs, less)
    ensures SortedBy(r, less)
    ensures multiset(r) == multiset(xs) + multiset{x}
    decreases |xs|
  {
    if xs == [] then [x]
    else if !less(xs[0], x) then
      assert NoneBefore(xs, x, less) by {
        forall k | 0 < k < |xs|
          ensures !less(xs[k], x)
        {
          assert !less(xs[k], xs[0]);
        }
      }
      [x] + xs
    else
      var rest := Insert(xs[1..], x, less);
      assert xs == [xs[0]] + xs[1..];
      assert NoneBefore(rest, xs[0], less) by {
        forall y | y in multiset(rest)
          ensures !less(y, xs[0])
        {
          if y != x {
            assert y in multiset(xs[1..]);
            var k :| 0 <= k < |xs[1..]| && xs[1..][k] == y;
            assert !less(xs[k + 1], xs[0]);
          }
        }
        NoneBeforeOfElements(rest, xs[0], less);
      }
      [xs[0]] + rest
  }

  /** `sorted(by: less)`: the elements of `xs` in an order `less` never contradicts. */
  function SortBy<T(!new)>(xs: seq<T>, less: (T, T) -> bool): (r: seq<T>)
    requires StrictWeakOrder(less)
    ensures SortedBy(r, less)
    ensures multiset(r) == multiset(xs)
    ensures |r| == |xs|
  {
    if xs == [] then []
    else
      var n := |xs| - 1;
      var r := Insert(SortBy(xs[..n], less), xs[n], less);
      assert xs == xs[..n] + [xs[n]];
      assert multiset(r) == multiset(xs[..n]) + multiset{xs[n]} == multiset(xs);
      assert |r| == |multiset(r)| == |multiset(xs)| == |xs|;
      r
  }
}
