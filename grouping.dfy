/**
 * Kotlin's `groupBy`: a `LinkedHashMap` from each key to the list of the
 * elements with that key, keys in order of first occurrence, each list in
 * input order. Modelled as the fold that `groupBy` performs, one element at
 * a time.
 */
module Grouping {
  import opened Seqs

  datatype Group<K, T> = Group(key: K, members: seq<T>)

  /** `getOrPut(key) { ArrayList() }.add(x)`. */
  function AddTo<K(==), T>(gs: seq<Group<K, T>>, k: K, x: T): seq<Group<K, T>> {
    if gs == [] then [Group(k, [x])]
    else if gs[0].key == k then [gs[0].(members := gs[0].members + [x])] + gs[1..]
    else [gs[0]] + AddTo(gs[1..], k, x)
  }

  function GroupBy<T, K(==)>(xs: seq<T>, key: T -> K): seq<Group<K, T>> {
    if xs == [] then [] else AddTo(GroupBy(xs[..|xs| - 1], key), key(xs[|xs| - 1]), xs[|xs| - 1])
  }

  function HasKey<T, K(==)>(key: T -> K, k: K): T -> bool {
    x => key(x) == k
  }

  function Keys<K, T>(gs: seq<Group<K, T>>): (ks: seq<K>)
    ensures |ks| == |gs| && forall i :: 0 <= i < |gs| ==> ks[i] == gs[i].key
  {
    if gs == [] then [] else [gs[0].key] + Keys(gs[1..])
  }

  function TotalSize<K, T>(gs: seq<Group<K, T>>): nat {
    if gs == [] then 0 else |gs[0].members| + TotalSize(gs[1..])
  }

  predicate DistinctKeys<K(==), T>(gs: seq<Group<K, T>>) {
    forall i, j :: 0 <= i < j < |gs| ==> gs[i].key != gs[j].key
  }

  /** What `groupBy` produces from `xs`, stated without the fold. */
  ghost predicate IsGrouping<T, K>(gs: seq<Group<K, T>>, xs: seq<T>, key: T -> K) {
    && DistinctKeys(gs)
    && (forall i :: 0 <= i < |gs| ==> gs[i].members == Filter(xs, HasKey(key, gs[i].key)))
    && (forall i :: 0 <= i < |gs| ==> gs[i].members != [])
    && (forall x :: x in xs ==> key(x) in Keys(gs))
    && TotalSize(gs) == |xs|
  }

  /** Adding under a key that already has a group appends to that group only. */
  lemma {:induction false} AddToExisting<K, T>(gs: seq<Group<K, T>>, k: K, x: T, j: int)
    requires DistinctKeys(gs) && 0 <= j < |gs| && gs[j].key == k
    ensures AddTo(gs, k, x) == gs[j := gs[j].(members := gs[j].members + [x])]
  {
    if j > 0 {
      assert gs[0].key != k;
      AddToExisting(gs[1..], k, x, j - 1);
      assert gs[1..][j - 1 := gs[j].(members := gs[j].members + [x])]
          == gs[j := gs[j].(members := gs[j].members + [x])][1..];
    }
  }

  /** Adding under a new key opens a group at the end. */
  lemma {:induction false} AddToNew<K, T>(gs: seq<Group<K, T>>, k: K, x: T)
    requires k !in Keys(gs)
    ensures AddTo(gs, k, x) == gs + [Group(k, [x])]
  {
    if gs != [] {
      assert Keys(gs) == [gs[0].key] + Keys(gs[1..]);
      AddToNew(gs[1..], k, x);
    }
  }

  lemma {:induction false} TotalSizeAppend<K, T>(gs: seq<Group<K, T>>, g: Group<K, T>)
    ensures TotalSize(gs + [g]) == TotalSize(gs) + |g.members|
  {
    if gs != [] {
      assert (gs + [g])[1..] == gs[1..] + [g];
      TotalSizeAppend(gs[1..], g);
    }
  }

  lemma {:induction false} TotalSizeUpdate<K, T>(gs: seq<Group<K, T>>, j: int, g: Group<K, T>)
    requires 0 <= j < |gs|
    ensures TotalSize(gs[j := g]) == TotalSize(gs) - |gs[j].members| + |g.members|
  {
    if j > 0 {
      assert gs[j := g][1..] == gs[1..][j - 1 := g];
      TotalSizeUpdate(gs[1..], j - 1, g);
    }
  }

  /** When no element has key `k`, nothing is filtered in under `k`. */
  lemma {:induction false} NoGroupNoMember<T, K>(xs: seq<T>, key: T -> K, k: K)
    requires forall x :: x in xs ==> key(x) != k
    ensures Filter(xs, HasKey(key, k)) == []
  {
    if xs != [] {
      assert xs[0] in xs;
      forall x | x in xs[1..] ensures key(x) != k {
        assert x in xs;
      }
      NoGroupNoMember(xs[1..], key, k);
    }
  }

  lemma {:induction false} GroupByIsGrouping<T, K>(xs: seq<T>, key: T -> K)
    ensures IsGrouping(GroupBy(xs, key), xs, key)
  {
    if xs != [] {
      var init, last := xs[..|xs| - 1], xs[|xs| - 1];
      GroupByIsGrouping(init, key);
      assert xs == init + [last];
      var gs := GroupBy(init, key);
      if key(last) in Keys(gs) {
        var j :| 0 <= j < |gs| && gs[j].key == key(last);
        GroupIntoExisting(init, last, key, gs, j);
      } else {
        GroupIntoNew(init, last, key, gs);
      }
    }
  }

  lemma GroupIntoExisting<T, K>(init: seq<T>, last: T, key: T -> K, gs: seq<Group<K, T>>, j: int)
    requires IsGrouping(gs, init, key)
    requires 0 <= j < |gs| && gs[j].key == key(last)
    ensures IsGrouping(AddTo(gs, key(last), last), init + [last], key)
  {
    var g := gs[j].(members := gs[j].members + [last]);
    AddToExisting(gs, key(last), last, j);
    ExtendedGroupIsGrouping(init, last, key, gs, j, g);
  }

  lemma ExtendedGroupIsGrouping<T, K>(init: seq<T>, last: T, key: T -> K, gs: seq<Group<K, T>>, j: int, g: Group<K, T>)
    requires IsGrouping(gs, init, key)
    requires 0 <= j < |gs| && gs[j].key == key(last)
    requires g == gs[j].(members := gs[j].members + [last])
    ensures IsGrouping(gs[j := g], init + [last], key)
  {
    ExtendedKeepsKeys(init, last, key, gs, j, g);
    ExtendedMembers(init, last, key, gs, j, g);
    ExtendedCovers(init, last, key, gs, j, g);
    TotalSizeUpdate(gs, j, g);
  }

  lemma ExtendedKeepsKeys<T, K>(init: seq<T>, last: T, key: T -> K, gs: seq<Group<K, T>>, j: int, g: Group<K, T>)
    requires IsGrouping(gs, init, key)
    requires 0 <= j < |gs| && gs[j].key == key(last)
    requires g == gs[j].(members := gs[j].members + [last])
    ensures DistinctKeys(gs[j := g])
    ensures var r := gs[j := g]; forall i :: 0 <= i < |r| ==> r[i].members != []
  {
    var r := gs[j := g];
    assert forall i :: 0 <= i < |r| ==> r[i].key == gs[i].key;
  }

  lemma ExtendedMembers<T, K>(init: seq<T>, last: T, key: T -> K, gs: seq<Group<K, T>>, j: int, g: Group<K, T>)
    requires IsGrouping(gs, init, key)
    requires 0 <= j < |gs| && gs[j].key == key(last)
    requires g == gs[j].(members := gs[j].members + [last])
    ensures var r := gs[j := g]; forall i :: 0 <= i < |r| ==> r[i].members == Filter(init + [last], HasKey(key, r[i].key))
  {
    var r := gs[j := g];
    forall i | 0 <= i < |r| ensures r[i].members == Filter(init + [last], HasKey(key, r[i].key)) {
      FilterAppend(init, [last], HasKey(key, r[i].key));
    }
  }

  lemma ExtendedCovers<T, K>(init: seq<T>, last: T, key: T -> K, gs: seq<Group<K, T>>, j: int, g: Group<K, T>)
    requires IsGrouping(gs, init, key)
    requires 0 <= j < |gs| && gs[j].key == key(last)
    requires g == gs[j].(members := gs[j].members + [last])
    ensures forall x :: x in init + [last] ==> key(x) in Keys(gs[j := g])
  {
    var r := gs[j := g];
    assert Keys(r) == Keys(gs);
    forall x | x in init + [last] ensures key(x) in Keys(r) {
      if x != last {
        assert x in init;
      }
    }
  }

  lemma GroupIntoNew<T, K>(init: seq<T>, last: T, key: T -> K, gs: seq<Group<K, T>>)
    requires IsGrouping(gs, init, key)
    requires key(last) !in Keys(gs)
    ensures IsGrouping(AddTo(gs, key(last), last), init + [last], key)
  {
    AddToNew(gs, key(last), last);
    NewGroupIsGrouping(init, last, key, gs);
  }

  lemma NewGroupIsGrouping<T, K>(init: seq<T>, last: T, key: T -> K, gs: seq<Group<K, T>>)
    requires IsGrouping(gs, init, key)
    requires key(last) !in Keys(gs)
    ensures IsGrouping(gs + [Group(key(last), [last])], init + [last], key)
  {
    var g := Group(key(last), [last]);
    TotalSizeAppend(gs, g);
    NewGroupMembers(init, last, key, gs);
    NewGroupKeys(init, last, key, gs);
  }

  lemma NewGroupMembers<T, K>(init: seq<T>, last: T, key: T -> K, gs: seq<Group<K, T>>)
    requires IsGrouping(gs, init, key)
    requires key(last) !in Keys(gs)
    ensures var r := gs + [Group(key(last), [last])];
      forall i :: 0 <= i < |r| ==> r[i].members == Filter(init + [last], HasKey(key, r[i].key))
  {
    var r := gs + [Group(key(last), [last])];
    forall i | 0 <= i < |r| ensures r[i].members == Filter(init + [last], HasKey(key, r[i].key)) {
      FilterAppend(init, [last], HasKey(key, r[i].key));
      if i == |gs| {
        forall x | x in init ensures key(x) != key(last) {
        }
        NoGroupNoMember(init, key, key(last));
      }
    }
  }

  lemma NewGroupKeys<T, K>(init: seq<T>, last: T, key: T -> K, gs: seq<Group<K, T>>)
    requires IsGrouping(gs, init, key)
    requires key(last) !in Keys(gs)
    ensures DistinctKeys(gs + [Group(key(last), [last])])
    ensures forall x :: x in init + [last] ==> key(x) in Keys(gs + [Group(key(last), [last])])
  {
    var r := gs + [Group(key(last), [last])];
    forall i, i' | 0 <= i < i' < |r| ensures r[i].key != r[i'].key {
      if i' == |gs| {
        assert Keys(gs)[i] == gs[i].key;
      }
    }
    assert Keys(r) == Keys(gs) + [key(last)];
    forall x | x in init + [last] ensures key(x) in Keys(r) {
      if x != last {
        assert x in init;
      }
    }
  }

  // ---------------------------------------------------------------- key order

  /** The position of the first element of `xs` with key `k`; `|xs|` when there is none. */
  function FirstWithKey<T, K(==)>(xs: seq<T>, key: T -> K, k: K): (n: nat)
    ensures n <= |xs|
    ensures n < |xs| ==> key(xs[n]) == k
    ensures forall i :: 0 <= i < n ==> key(xs[i]) != k
  {
    if xs == [] then 0 else if key(xs[0]) == k then 0 else 1 + FirstWithKey(xs[1..], key, k)
  }

  /** The groups' keys come in the order of their first occurrence in `xs`. */
  predicate KeysInOrder<T, K(==)>(gs: seq<Group<K, T>>, xs: seq<T>, key: T -> K) {
    forall i, j :: 0 <= i < j < |gs| ==> FirstWithKey(xs, key, gs[i].key) < FirstWithKey(xs, key, gs[j].key)
  }

  /** `groupBy` keeps its keys in the order in which they first occur in the input. */
  lemma {:induction false} GroupByFirstOccurrence<T, K>(xs: seq<T>, key: T -> K)
    ensures KeysInOrder(GroupBy(xs, key), xs, key)
  {
    if xs != [] {
      var init, last := xs[..|xs| - 1], xs[|xs| - 1];
      assert xs == init + [last];
      GroupByFirstOccurrence(init, key);
      GroupByIsGrouping(init, key);
      var gs := GroupBy(init, key);
      forall i | 0 <= i < |gs| ensures FirstWithKey(init, key, gs[i].key) < |init| {
        KeyOccurs(init, key, gs, i);
      }
      forall i | 0 <= i < |gs|
        ensures FirstWithKey(init + [last], key, gs[i].key) == FirstWithKey(init, key, gs[i].key)
      {
        FirstWithKeyAppend(init, last, key, gs[i].key);
      }
      if key(last) in Keys(gs) {
        var j :| 0 <= j < |gs| && gs[j].key == key(last);
        AddToExisting(gs, key(last), last, j);
        OrderAfterExisting(init, last, key, gs, j);
      } else {
        AddToNew(gs, key(last), last);
        forall p | 0 <= p < |init| ensures key(init[p]) != key(last) {
          assert init[p] in init;
        }
        FirstWithKeyAppend(init, last, key, key(last));
        OrderCarriesOver(init, init + [last], key, gs);
        OrderAfterNew(init + [last], |init|, key, gs, Group(key(last), [last]));
      }
    }
  }

  lemma OrderAfterExisting<T, K>(init: seq<T>, last: T, key: T -> K, gs: seq<Group<K, T>>, j: int)
    requires KeysInOrder(gs, init, key)
    requires 0 <= j < |gs|
    requires forall i :: 0 <= i < |gs| ==>
      FirstWithKey(init + [last], key, gs[i].key) == FirstWithKey(init, key, gs[i].key)
    ensures KeysInOrder(gs[j := gs[j].(members := gs[j].members + [last])], init + [last], key)
  {
    var r := gs[j := gs[j].(members := gs[j].members + [last])];
    forall i, i' | 0 <= i < i' < |r|
      ensures FirstWithKey(init + [last], key, r[i].key) < FirstWithKey(init + [last], key, r[i'].key)
    {
      assert r[i].key == gs[i].key && r[i'].key == gs[i'].key;
    }
  }

  lemma OrderAfterNew<T, K>(xs: seq<T>, n: nat, key: T -> K, gs: seq<Group<K, T>>, g: Group<K, T>)
    requires KeysInOrder(gs, xs, key)
    requires forall i :: 0 <= i < |gs| ==> FirstWithKey(xs, key, gs[i].key) < n
    requires FirstWithKey(xs, key, g.key) == n
    ensures KeysInOrder(gs + [g], xs, key)
  {
    var r := gs + [g];
    forall i, i' | 0 <= i < i' < |r|
      ensures FirstWithKey(xs, key, r[i].key) < FirstWithKey(xs, key, r[i'].key)
    {
      assert r[i] == gs[i];
      if i' < |gs| {
        assert r[i'] == gs[i'];
      }
    }
  }

  /** Positions that do not move keep the groups' order. */
  lemma OrderCarriesOver<T, K>(init: seq<T>, xs: seq<T>, key: T -> K, gs: seq<Group<K, T>>)
    requires KeysInOrder(gs, init, key)
    requires forall i :: 0 <= i < |gs| ==> FirstWithKey(xs, key, gs[i].key) == FirstWithKey(init, key, gs[i].key)
    ensures KeysInOrder(gs, xs, key)
  {
  }

  /** Where the first `k` of `xs + [x]` is, from where it is in `xs`. */
  function FirstWithKeyAfter<T, K(==)>(xs: seq<T>, x: T, key: T -> K, k: K): nat {
    if FirstWithKey(xs, key, k) < |xs| then FirstWithKey(xs, key, k)
    else if key(x) == k then |xs| else |xs| + 1
  }

  lemma {:induction false} FirstWithKeyAppend<T, K>(xs: seq<T>, x: T, key: T -> K, k: K)
    ensures FirstWithKey(xs + [x], key, k) == FirstWithKeyAfter(xs, x, key, k)
  {
    if xs != [] {
      assert (xs + [x])[1..] == xs[1..] + [x];
      FirstWithKeyAppend(xs[1..], x, key, k);
    }
  }

  /** The key of every group occurs in the input. */
  lemma KeyOccurs<T, K>(xs: seq<T>, key: T -> K, gs: seq<Group<K, T>>, i: int)
    requires IsGrouping(gs, xs, key) && 0 <= i < |gs|
    ensures FirstWithKey(xs, key, gs[i].key) < |xs|
  {
    var x := gs[i].members[0];
    FilterMultiplicity(xs, HasKey(key, gs[i].key), x);
    assert x in multiset(gs[i].members);
    assert x in xs;
    var p :| 0 <= p < |xs| && xs[p] == x;
  }
}
