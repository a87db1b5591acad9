/** The array operations the pages and modals use: `filter`, which keeps
    an order-preserving sublist, and `find`, which returns the first
    element that satisfies a predicate. */
module Seqs {
  import opened Base

  /** `ys` is `xs` with some elements dropped and the others kept in their
      original order. */
  ghost predicate IsSubsequence<T>(ys: seq<T>, xs: seq<T>)
    decreases |xs|
  {
    if |ys| == 0 then true
    else if |xs| == 0 then false
    else if ys[0] == xs[0] then IsSubsequence(ys[1..], xs[1..])
    else IsSubsequence(ys, xs[1..])
  }

  /** JavaScript `xs.filter(keep)`. */
  function Filter<T>(xs: seq<T>, keep: T -> bool): (r: seq<T>)
    ensures |r| <= |xs|
    ensures forall i :: 0 <= i < |r| ==> keep(r[i])
  {
    if |xs| == 0 then []
    else (if keep(xs[0]) then [xs[0]] else []) + Filter(xs[1..], keep)
  }

  /** The filtered list keeps the order of the original list. */
  lemma {:induction false} FilterIsSubsequence<T>(xs: seq<T>, keep: T -> bool)
    ensures IsSubsequence(Filter(xs, keep), xs)
  {
    if |xs| > 0 {
      FilterIsSubsequence(xs[1..], keep);
      var rest := Filter(xs[1..], keep);
      if keep(xs[0]) {
        assert Filter(xs, keep) == [xs[0]] + rest;
        assert ([xs[0]] + rest)[1..] == rest;
      } else {
        assert Filter(xs, keep) == rest;
        SubsequenceOfTail(rest, xs);
      }
    }
  }

  /** A subsequence of the tail is a subsequence of the whole list. */
  lemma {:induction false} SubsequenceOfTail<T>(ys: seq<T>, xs: seq<T>)
    requires |xs| > 0
    requires IsSubsequence(ys, xs[1..])
    ensures IsSubsequence(ys, xs)
    decreases |xs|, 0
  {
    if |ys| > 0 && ys[0] == xs[0] {
      SubsequenceDropHead(ys, xs[1..]);
    }
  }

  /** Dropping the first element of a subsequence keeps it a subsequence. */
  lemma {:induction false} SubsequenceDropHead<T>(ys: seq<T>, xs: seq<T>)
    requires |ys| > 0
    requires IsSubsequence(ys, xs)
    ensures IsSubsequence(ys[1..], xs)
    decreases |xs|, 1
  {
    if ys[0] != xs[0] {
      SubsequenceDropHead(ys, xs[1..]);
    }
    if |ys[1..]| > 0 {
      SubsequenceOfTail(ys[1..], xs);
    }
  }

  /** An element is in the filtered list exactly when it is in the
      original list and passes the predicate. */
  lemma {:induction false} FilterMembership<T>(xs: seq<T>, keep: T -> bool, x: T)
    ensures x in Filter(xs, keep) <==> x in xs && keep(x)
  {
    if |xs| > 0 {
      FilterMembership(xs[1..], keep, x);
      assert xs == [xs[0]] + xs[1..];
    }
  }

  /** `FilterMembership` for every element at once. */
  lemma FilterMembershipAll<T>(xs: seq<T>, keep: T -> bool)
    ensures forall x :: x in Filter(xs, keep) <==> x in xs && keep(x)
  {
    forall x {
      FilterMembership(xs, keep, x);
    }
  }

  /** `FilterMembership` by position: every kept element comes from the
      list, and an element of the list is kept exactly when it passes. */
  lemma FilterMembershipIndexed<T>(xs: seq<T>, keep: T -> bool)
    ensures forall i :: 0 <= i < |Filter(xs, keep)| ==> Filter(xs, keep)[i] in xs
    ensures forall i :: 0 <= i < |xs| ==> (xs[i] in Filter(xs, keep) <==> keep(xs[i]))
  {
    var r := Filter(xs, keep);
    forall i | 0 <= i < |r| ensures r[i] in xs {
      FilterMembership(xs, keep, r[i]);
    }
    forall i | 0 <= i < |xs| ensures xs[i] in r <==> keep(xs[i]) {
      FilterMembership(xs, keep, xs[i]);
    }
  }

  /** Filtering keeps every copy of an element that passes and none of
      one that does not. */
  lemma {:induction false} FilterCount<T>(xs: seq<T>, keep: T -> bool, x: T)
    ensures multiset(Filter(xs, keep))[x] == if keep(x) then multiset(xs)[x] else 0
  {
    if |xs| > 0 {
      FilterCount(xs[1..], keep, x);
      assert xs == [xs[0]] + xs[1..];
    }
  }

  /** When no element passes, the filtered list is empty. */
  lemma {:induction false} FilterNone<T>(xs: seq<T>, keep: T -> bool)
    requires forall i :: 0 <= i < |xs| ==> !keep(xs[i])
    ensures Filter(xs, keep) == []
  {
    if |xs| > 0 {
      FilterNone(xs[1..], keep);
    }
  }

  /** When exactly the element at `j` passes, it alone is kept. */
  lemma {:induction false} FilterSingle<T>(xs: seq<T>, keep: T -> bool, j: nat)
    requires j < |xs| && keep(xs[j])
    requires forall k :: 0 <= k < |xs| && k != j ==> !keep(xs[k])
    ensures Filter(xs, keep) == [xs[j]]
  {
    if j == 0 {
      FilterNone(xs[1..], keep);
    } else {
      FilterSingle(xs[1..], keep, j - 1);
    }
  }

  /** When every element passes, filtering returns the list unchanged. */
  lemma {:induction false} FilterAllKept<T>(xs: seq<T>, keep: T -> bool)
    requires forall i :: 0 <= i < |xs| ==> keep(xs[i])
    ensures Filter(xs, keep) == xs
  {
    if |xs| > 0 {
      FilterAllKept(xs[1..], keep);
      assert [xs[0]] + xs[1..] == xs;
    }
  }

  /** Filtering with two predicates that agree on every element gives the
      same list. */
  lemma {:induction false} FilterCongruent<T>(xs: seq<T>, keep: T -> bool, keep2: T -> bool)
    requires forall i :: 0 <= i < |xs| ==> keep(xs[i]) == keep2(xs[i])
    ensures Filter(xs, keep) == Filter(xs, keep2)
  {
    if |xs| > 0 {
      FilterCongruent(xs[1..], keep, keep2);
    }
  }

  /** The index of the first element satisfying `p`, if any. */
  function FirstIndex<T>(xs: seq<T>, p: T -> bool): (r: Option<nat>)
    ensures r.Some? ==> r.value < |xs| && p(xs[r.value])
    ensures r.Some? ==> forall j :: 0 <= j < r.value ==> !p(xs[j])
    ensures r.None? ==> forall j :: 0 <= j < |xs| ==> !p(xs[j])
  {
    if |xs| == 0 then None
    else if p(xs[0]) then Some(0)
    else match FirstIndex(xs[1..], p)
      case None => None
      case Some(i) => Some(i + 1)
  }

  /** JavaScript `xs.find(p)`: the first element satisfying `p`, or
      `undefined` when none does. */
  function Find<T>(xs: seq<T>, p: T -> bool): Option<T> {
    match FirstIndex(xs, p)
    case None => None
    case Some(i) => Some(xs[i])
  }
}
