/**
  The array operations the view models apply to their cached lists:
  `filter`/`removeAll(where:)`, `firstIndex(where:)` followed by an index
  assignment, and `remove(at:)`.
*/
module ListOps {
  import opened Wrappers

  /** `xs.filter(keep)`: the elements that pass, in their original order. */
  function Filter<T>(xs: seq<T>, keep: T -> bool): (r: seq<T>)
    ensures |r| <= |xs|
    ensures forall i :: 0 <= i < |r| ==> keep(r[i])
    ensures forall x :: x in r ==> x in xs
  {
    if xs == [] then [] else (if keep(xs[0]) then [xs[0]] else []) + Filter(xs[1..], keep)
  }

  /** Filtering keeps exactly the passing copies of each element. */
  lemma {:induction false} FilterCounts<T>(xs: seq<T>, keep: T -> bool, x: T)
    ensures multiset(Filter(xs, keep))[x] == if keep(x) then multiset(xs)[x] else 0
  {
    if xs != [] {
      FilterCounts(xs[1..], keep, x);
      assert xs == [xs[0]] + xs[1..];
    }
  }

  /** `FilterCounts` for every element at once. */
  lemma FilterCountsAll<T>(xs: seq<T>, keep: T -> bool)
    ensures forall x :: multiset(Filter(xs, keep))[x] == if keep(x) then multiset(xs)[x] else 0
  {
    forall x
      ensures multiset(Filter(xs, keep))[x] == if keep(x) then multiset(xs)[x] else 0
    {
      FilterCounts(xs, keep, x);
    }
  }

  /** When everything passes, filtering keeps the list as it is. */
  lemma {:induction false} FilterEverything<T>(xs: seq<T>, keep: T -> bool)
    requires forall i :: 0 <= i < |xs| ==> keep(xs[i])
    ensures Filter(xs, keep) == xs
  {
    if xs != [] {
      FilterEverything(xs[1..], keep);
      assert xs == [xs[0]] + xs[1..];
    }
  }

  /** Filtering works piece by piece, so it keeps the relative order of what it keeps. */
  lemma {:induction false} FilterAppend<T>(xs: seq<T>, ys: seq<T>, keep: T -> bool)
    ensures Filter(xs + ys, keep) == Filter(xs, keep) + Filter(ys, keep)
  {
    if xs == [] {
      assert xs + ys == ys;
    } else {
      assert (xs + ys)[1..] == xs[1..] + ys;
      FilterAppend(xs[1..], ys, keep);
    }
  }

  /** `xs.removeAll(where: drop)`: the elements that do not match, in their original order. */
  function RemoveAll<T>(xs: seq<T>, drop: T -> bool): (r: seq<T>)
    ensures |r| <= |xs|
    ensures forall i :: 0 <= i < |r| ==> !drop(r[i])
    ensures forall x :: x in r ==> x in xs
  {
    if xs == [] then [] else (if drop(xs[0]) then [] else [xs[0]]) + RemoveAll(xs[1..], drop)
  }

  /** Removing the matches removes every copy of a matching element and keeps every copy of the others. */
  lemma {:induction false} RemoveAllCounts<T>(xs: seq<T>, drop: T -> bool, x: T)
    ensures multiset(RemoveAll(xs, drop))[x] == if drop(x) then 0 else multiset(xs)[x]
  {
    if xs != [] {
      RemoveAllCounts(xs[1..], drop, x);
      assert xs == [xs[0]] + xs[1..];
    }
  }

  /** Removal works piece by piece, so the survivors keep their relative order. */
  lemma {:induction false} RemoveAllAppend<T>(xs: seq<T>, ys: seq<T>, drop: T -> bool)
    ensures RemoveAll(xs + ys, drop) == RemoveAll(xs, drop) + RemoveAll(ys, drop)
  {
    if xs == [] {
      assert xs + ys == ys;
    } else {
      assert (xs + ys)[1..] == xs[1..] + ys;
      RemoveAllAppend(xs[1..], ys, drop);
    }
  }

  /** Without a match nothing is removed. */
  lemma {:induction false} RemoveAllNothing<T>(xs: seq<T>, drop: T -> bool)
    requires forall i :: 0 <= i < |xs| ==> !drop(xs[i])
    ensures RemoveAll(xs, drop) == xs
  {
    if xs != [] {
      RemoveAllNothing(xs[1..], drop);
      assert xs == [xs[0]] + xs[1..];
    }
  }

  /** Removing by one test and then by another is removing by either. */
  lemma {:induction false} RemoveAllTwice<T>(xs: seq<T>, first: T -> bool, second: T -> bool, either: T -> bool)
    requires forall x :: either(x) == (first(x) || second(x))
    ensures RemoveAll(RemoveAll(xs, first), second) == RemoveAll(xs, either)
  {
    if xs != [] {
      RemoveAllTwice(xs[1..], first, second, either);
      var rest := RemoveAll(xs[1..], first);
      if !first(xs[0]) {
        assert RemoveAll(xs, first) == [xs[0]] + rest;
        assert ([xs[0]] + rest)[1..] == rest;
      } else {
        assert RemoveAll(xs, first) == rest;
      }
    }
  }

  /** Removing the matches twice is removing them once. */
  lemma RemoveAllIdempotent<T>(xs: seq<T>, drop: T -> bool)
    ensures RemoveAll(RemoveAll(xs, drop), drop) == RemoveAll(xs, drop)
  {
    RemoveAllNothing(RemoveAll(xs, drop), drop);
  }

  /** Removing the matches around a single matching element removes just that element. */
  lemma RemoveOnlyMatch<T>(pre: seq<T>, x: T, post: seq<T>, drop: T -> bool)
    requires drop(x)
    requires forall j :: 0 <= j < |pre| ==> !drop(pre[j])
    requires forall j :: 0 <= j < |post| ==> !drop(post[j])
    ensures RemoveAll(pre + [x] + post, drop) == pre + post
  {
    RemoveAllAppend(pre + [x], post, drop);
    RemoveAllAppend(pre, [x], drop);
    var left := RemoveAll(pre + [x], drop);
    RemoveAllNothing(pre, drop);
    RemoveAllNothing(post, drop);
    assert RemoveAll([x], drop) == [];
    assert left == pre;
  }

  /** Removing by position the only element that matches is removing the matches. */
  lemma RemoveAtOnlyMatch<T>(xs: seq<T>, i: nat, drop: T -> bool)
    requires i < |xs| && drop(xs[i])
    requires forall j :: 0 <= j < |xs| && j != i ==> !drop(xs[j])
    ensures RemoveAt(xs, i) == RemoveAll(xs, drop)
  {
    var pre, post := xs[..i], xs[i + 1..];
    assert xs == pre + [xs[i]] + post;
    assert forall j :: 0 <= j < |post| ==> post[j] == xs[i + 1 + j];
    RemoveOnlyMatch(pre, xs[i], post, drop);
  }

  /** `xs.firstIndex(where: matches)`. */
  function FirstIndex<T>(xs: seq<T>, matches: T -> bool): (r: Option<nat>)
    ensures r.Some? ==> r.value < |xs| && matches(xs[r.value])
    ensures r.Some? ==> forall j :: 0 <= j < r.value ==> !matches(xs[j])
    ensures r.None? <==> forall j :: 0 <= j < |xs| ==> !matches(xs[j])
  {
    if xs == [] then None
    else if matches(xs[0]) then Some(0)
    else
      match FirstIndex(xs[1..], matches)
      case None => None
      case Some(k) => Some(k + 1)
  }

  /**
    `if let i = xs.firstIndex(where: matches) { xs[i] = v }`: the first match
    is replaced by `v`; with no match the list is unchanged.
  */
  function ReplaceFirst<T>(xs: seq<T>, matches: T -> bool, v: T): (r: seq<T>)
    ensures |r| == |xs|
    ensures FirstIndex(xs, matches).None? ==> r == xs
    ensures FirstIndex(xs, matches).Some? ==>
      var k := FirstIndex(xs, matches).value;
      r[k] == v && forall j :: 0 <= j < |xs| && j != k ==> r[j] == xs[j]
  {
    match FirstIndex(xs, matches)
    case None => xs
    case Some(k) => xs[k := v]
  }

  /** Only the first match is replaced: every later match is still there. */
  lemma ReplaceFirstKeepsLaterMatches<T>(xs: seq<T>, matches: T -> bool, v: T, j: int)
    requires 0 <= j < |xs| && matches(xs[j])
    requires FirstIndex(xs, matches).Some? && j != FirstIndex(xs, matches).value
    ensures ReplaceFirst(xs, matches, v)[j] == xs[j] && FirstIndex(xs, matches).value < j
  {
  }

  /** `xs.remove(at: i)`. */
  function RemoveAt<T>(xs: seq<T>, i: nat): (r: seq<T>)
    requires i < |xs|
    ensures |r| == |xs| - 1
    ensures forall j :: 0 <= j < i ==> r[j] == xs[j]
    ensures forall j :: i <= j < |r| ==> r[j] == xs[j + 1]
  {
    xs[..i] + xs[i + 1..]
  }
}
