/** Sequence helpers shared by the pages: the array `filter` of JavaScript and
    the subsequence relation that states what a filter may return. */
module Sequences {

  /** `xs` occurs in `ys` with its elements in the same order, possibly with
      other elements of `ys` in between. */
  predicate IsSubsequence<T(==)>(xs: seq<T>, ys: seq<T>)
    decreases |ys|
  {
    xs == [] ||
    (ys != [] &&
     ((xs[0] == ys[0] && IsSubsequence(xs[1..], ys[1..])) || IsSubsequence(xs, ys[1..])))
  }

  /** `Array.prototype.filter`: the elements that satisfy `p`, in their order. */
  function Filter<T(!new)>(p: T -> bool, xs: seq<T>): (r: seq<T>)
    ensures |r| <= |xs|
    ensures forall i :: 0 <= i < |r| ==> p(r[i])
    ensures forall x :: multiset(r)[x] == if p(x) then multiset(xs)[x] else 0
  {
    if xs == [] then []
    else
      var rest := Filter(p, xs[1..]);
      assert xs == [xs[0]] + xs[1..];
      if p(xs[0]) then [xs[0]] + rest else rest
  }

  /** What `filter` keeps lies in the input, in the input's order. */
  lemma {:induction false} FilterIsSubsequence<T(!new)>(p: T -> bool, xs: seq<T>)
    ensures IsSubsequence(Filter(p, xs), xs)
  {
    if xs != [] {
      FilterIsSubsequence(p, xs[1..]);
      var r := Filter(p, xs);
      if p(xs[0]) {
        assert r[0] == xs[0] && r[1..] == Filter(p, xs[1..]);
      }
    }
  }

  /** Filtering text that already passed the filter changes nothing. */
  lemma {:induction false} FilterOfAllKept<T(!new)>(p: T -> bool, xs: seq<T>)
    requires forall i :: 0 <= i < |xs| ==> p(xs[i])
    ensures Filter(p, xs) == xs
  {
    if xs != [] {
      FilterOfAllKept(p, xs[1..]);
      assert [xs[0]] + xs[1..] == xs;
    }
  }

  /** Filtering twice with the same predicate is filtering once. */
  lemma FilterIdempotent<T(!new)>(p: T -> bool, xs: seq<T>)
    ensures Filter(p, Filter(p, xs)) == Filter(p, xs)
  {
    FilterOfAllKept(p, Filter(p, xs));
  }

  /** `filter` works element by element, so it distributes over concatenation. */
  lemma {:induction false} FilterConcat<T(!new)>(p: T -> bool, xs: seq<T>, ys: seq<T>)
    ensures Filter(p, xs + ys) == Filter(p, xs) + Filter(p, ys)
  {
    if xs == [] {
      assert xs + ys == ys;
    } else {
      assert (xs + ys)[1..] == xs[1..] + ys;
      FilterConcat(p, xs[1..], ys);
    }
  }

  /** Filtering by `q` and then by `p` keeps what satisfies both. */
  lemma {:induction false} FilterFilter<T(!new)>(p: T -> bool, q: T -> bool, both: T -> bool, xs: seq<T>)
    requires forall i :: 0 <= i < |xs| ==> both(xs[i]) == (q(xs[i]) && p(xs[i]))
    ensures Filter(p, Filter(q, xs)) == Filter(both, xs)
  {
    if xs != [] {
      FilterFilter(p, q, both, xs[1..]);
      if q(xs[0]) {
        assert Filter(q, xs) == [xs[0]] + Filter(q, xs[1..]);
        assert ([xs[0]] + Filter(q, xs[1..]))[1..] == Filter(q, xs[1..]);
      }
    }
  }
}
