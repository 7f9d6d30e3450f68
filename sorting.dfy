/**
 * `sortedWith`, `sortedBy` and `sortedByDescending` are stable sorts. They
 * are modelled by one reference definition, a stable insertion sort taking
 * the comparator as a strict "comes before" relation, and proved sorted, a
 * permutation of the input, and stable: elements that compare equal keep
 * their input order.
 */
module Sorting {
  import opened Seqs

  /** `before` is a strict weak order: asymmetric, and "not before" is transitive. */
  ghost predicate StrictWeakOrder<T(!new)>(before: (T, T) -> bool) {
    && (forall a, b :: before(a, b) ==> !before(b, a))
    && (forall a, b, c :: before(a, c) ==> before(a, b) || before(b, c))
  }

  /** No element comes strictly before an element to its left. */
  predicate SortedBy<T>(xs: seq<T>, before: (T, T) -> bool) {
    forall i, j :: 0 <= i < j < |xs| ==> !before(xs[j], xs[i])
  }

  /** Inserts `x` in front of the first element that does not come strictly before it. */
  function Insert<T>(x: T, ys: seq<T>, before: (T, T) -> bool): seq<T> {
    if ys == [] || !before(ys[0], x) then [x] + ys
    else [ys[0]] + Insert(x, ys[1..], before)
  }

  function SortBy<T>(xs: seq<T>, before: (T, T) -> bool): seq<T> {
    if xs == [] then [] else Insert(xs[0], SortBy(xs[1..], before), before)
  }

  /** The elements that compare equal to `k`. */
  function SameRank<T>(before: (T, T) -> bool, k: T): T -> bool {
    y => !before(y, k) && !before(k, y)
  }

  lemma {:induction false} InsertPermutation<T>(x: T, ys: seq<T>, before: (T, T) -> bool)
    ensures multiset(Insert(x, ys, before)) == multiset(ys) + multiset{x}
  {
    if ys != [] && before(ys[0], x) {
      var r := Insert(x, ys[1..], before);
      InsertPermutation(x, ys[1..], before);
      assert ys == [ys[0]] + ys[1..];
      calc {
        multiset(Insert(x, ys, before));
        multiset([ys[0]] + r);
        multiset{ys[0]} + multiset(r);
        multiset{ys[0]} + multiset(ys[1..]) + multiset{x};
        multiset(ys) + multiset{x};
      }
    } else {
      assert multiset([x] + ys) == multiset{x} + multiset(ys);
    }
  }

  /** Sorting rearranges the input and neither adds nor drops an element. */
  lemma {:induction false} SortPermutation<T>(xs: seq<T>, before: (T, T) -> bool)
    ensures multiset(SortBy(xs, before)) == multiset(xs)
    ensures |SortBy(xs, before)| == |xs|
  {
    if xs != [] {
      SortPermutation(xs[1..], before);
      InsertPermutation(xs[0], SortBy(xs[1..], before), before);
      assert xs == [xs[0]] + xs[1..];
    }
    assert |multiset(SortBy(xs, before))| == |multiset(xs)|;
  }

  lemma {:induction false} InsertSorted<T(!new)>(x: T, ys: seq<T>, before: (T, T) -> bool)
    requires StrictWeakOrder(before) && SortedBy(ys, before)
    ensures SortedBy(Insert(x, ys, before), before)
  {
    if ys == [] || !before(ys[0], x) {
      InsertInFront(x, ys, before);
    } else {
      InsertSorted(x, ys[1..], before);
      InsertPermutation(x, ys[1..], before);
      InsertBehind(ys[0], x, ys[1..], Insert(x, ys[1..], before), before);
    }
  }

  /** `x` goes in front of a sorted list whose head does not come before it. */
  lemma InsertInFront<T(!new)>(x: T, ys: seq<T>, before: (T, T) -> bool)
    requires StrictWeakOrder(before) && SortedBy(ys, before)
    requires ys == [] || !before(ys[0], x)
    ensures SortedBy([x] + ys, before)
  {
    var r := [x] + ys;
    forall i, j | 0 <= i < j < |r| ensures !before(r[j], r[i]) {
      if i == 0 && j > 1 {
        assert r[j] == ys[j - 1];
        assert !before(ys[j - 1], ys[0]);
      }
    }
  }

  /** `y`, which comes before `x` and is not preceded by any of `rest`, heads the sorted insertion of `x` into `rest`. */
  lemma InsertBehind<T(!new)>(y: T, x: T, rest: seq<T>, tail: seq<T>, before: (T, T) -> bool)
    requires StrictWeakOrder(before) && SortedBy([y] + rest, before) && SortedBy(tail, before)
    requires before(y, x) && multiset(tail) == multiset(rest) + multiset{x}
    ensures SortedBy([y] + tail, before)
  {
    var r := [y] + tail;
    forall j | 0 < j < |r| ensures !before(r[j], y) {
      assert r[j] == tail[j - 1];
      assert r[j] in multiset(tail);
      if r[j] != x {
        assert r[j] in multiset(rest);
        var k :| 0 <= k < |rest| && rest[k] == r[j];
        assert ([y] + rest)[k + 1] == r[j] && ([y] + rest)[0] == y;
      }
    }
    forall i, j | 0 <= i < j < |r| ensures !before(r[j], r[i]) {
      if i > 0 {
        assert r[i] == tail[i - 1] && r[j] == tail[j - 1];
      }
    }
  }

  /** The result of sorting is sorted. */
  lemma {:induction false} SortSorted<T(!new)>(xs: seq<T>, before: (T, T) -> bool)
    requires StrictWeakOrder(before)
    ensures SortedBy(SortBy(xs, before), before)
  {
    if xs != [] {
      SortSorted(xs[1..], before);
      InsertSorted(xs[0], SortBy(xs[1..], before), before);
    }
  }

  lemma {:induction false} InsertKeepsRank<T(!new)>(x: T, ys: seq<T>, before: (T, T) -> bool, k: T)
    requires StrictWeakOrder(before)
    ensures Filter(Insert(x, ys, before), SameRank(before, k))
         == (if SameRank(before, k)(x) then [x] else []) + Filter(ys, SameRank(before, k))
  {
    var p := SameRank(before, k);
    if ys == [] || !before(ys[0], x) {
      assert Insert(x, ys, before) == [x] + ys;
      FilterAppend([x], ys, p);
    } else {
      InsertKeepsRank(x, ys[1..], before, k);
      var r := Insert(x, ys, before);
      assert r == [ys[0]] + Insert(x, ys[1..], before);
      FilterAppend([ys[0]], Insert(x, ys[1..], before), p);
      FilterAppend([ys[0]], ys[1..], p);
      assert ys == [ys[0]] + ys[1..];
      if p(x) {
        // ys[0] comes strictly before x, so it cannot rank with k as x does
        assert !p(ys[0]);
      }
    }
  }

  /** Stability: the elements ranking equal to any `k` appear in their input order. */
  lemma {:induction false} SortStable<T(!new)>(xs: seq<T>, before: (T, T) -> bool, k: T)
    requires StrictWeakOrder(before)
    ensures Filter(SortBy(xs, before), SameRank(before, k)) == Filter(xs, SameRank(before, k))
  {
    if xs != [] {
      SortStable(xs[1..], before, k);
      InsertKeepsRank(xs[0], SortBy(xs[1..], before), before, k);
    }
  }

  /**
   * Taking a prefix of a sorted permutation: the first `n` in order, drawn from
   * the input, and nothing left out comes strictly before anything kept.
   */
  lemma TakeSorted<T(!new)>(xs: seq<T>, before: (T, T) -> bool, n: nat)
    requires StrictWeakOrder(before)
    ensures var r := Take(SortBy(xs, before), n);
      && |r| == (if n < |xs| then n else |xs|)
      && SortedBy(r, before)
      && multiset(r) <= multiset(xs)
      && forall y, i :: y in multiset(xs) - multiset(r) && 0 <= i < |r| ==> !before(y, r[i])
  {
    var s := SortBy(xs, before);
    SortPermutation(xs, before);
    SortSorted(xs, before);
    TakePrefix(s, n, before);
  }

  /** A prefix of a sorted list: sorted, and nothing after it comes strictly before anything in it. */
  lemma TakePrefix<T>(s: seq<T>, n: nat, before: (T, T) -> bool)
    requires SortedBy(s, before)
    ensures var r := Take(s, n);
      && SortedBy(r, before)
      && multiset(r) <= multiset(s)
      && forall y, i :: y in multiset(s) - multiset(r) && 0 <= i < |r| ==> !before(y, r[i])
  {
    var r := Take(s, n);
    var rest := s[|r|..];
    assert s == r + rest;
    assert multiset(s) == multiset(r) + multiset(rest);
    assert multiset(s) - multiset(r) == multiset(rest);
    forall y, i | y in multiset(rest) && 0 <= i < |r| ensures !before(y, r[i]) {
      var j :| 0 <= j < |rest| && rest[j] == y;
      assert s[|r| + j] == y;
    }
  }
}
