/**
 * Sequence helpers shared by the model: `Array.prototype.filter`, grouping by a key,
 * and the de-duplication performed by `[...new Set(xs)]`.
 * Folds are defined on the prefix of a sequence, in the order a left-to-right
 * `forEach` visits it.
 */
module Seqs {

  predicate Distinct<T(==)>(s: seq<T>)
  {
    forall i, j :: 0 <= i < j < |s| ==> s[i] != s[j]
  }

  /** The elements of `s` that satisfy `f`, in their original order. */
  function Filter<T(!new)>(f: T -> bool, s: seq<T>): (r: seq<T>)
    ensures |r| <= |s|
    ensures forall x :: x in r <==> x in s && f(x)
  {
    if s == [] then []
    else
      var init := Filter(f, s[..|s| - 1]);
      assert s == s[..|s| - 1] + [s[|s| - 1]];
      if f(s[|s| - 1]) then init + [s[|s| - 1]] else init
  }

  /** Filtering distributes over concatenation: the relative order of kept elements is preserved. */
  lemma {:induction false} FilterAppend<T(!new)>(f: T -> bool, a: seq<T>, b: seq<T>)
    ensures Filter(f, a + b) == Filter(f, a) + Filter(f, b)
  {
    if b == [] {
      assert a + b == a;
    } else {
      var b' := b[..|b| - 1];
      assert (a + b)[..|a + b| - 1] == a + b';
      FilterAppend(f, a, b');
    }
  }

  lemma FilterSingle<T(!new)>(f: T -> bool, x: T)
    ensures Filter(f, [x]) == if f(x) then [x] else []
  {
    assert [x][..0] == [];
  }

  /** Two tests that agree on every element filter alike. */
  lemma {:induction false} FilterSameTest<T(!new)>(f: T -> bool, g: T -> bool, s: seq<T>)
    requires forall x :: x in s ==> f(x) == g(x)
    ensures Filter(f, s) == Filter(g, s)
  {
    if s != [] {
      FilterSameTest(f, g, s[..|s| - 1]);
      assert s[|s| - 1] in s;
    }
  }

  /** A filter that no element passes returns nothing. */
  lemma {:induction false} FilterNone<T(!new)>(f: T -> bool, s: seq<T>)
    requires forall x :: x in s ==> !f(x)
    ensures Filter(f, s) == []
  {
    if s != [] {
      FilterNone(f, s[..|s| - 1]);
      assert s[|s| - 1] in s;
    }
  }

  /** A filter that every element passes returns its input unchanged. */
  lemma {:induction false} FilterKeepsAll<T(!new)>(f: T -> bool, s: seq<T>)
    requires forall x :: x in s ==> f(x)
    ensures Filter(f, s) == s
  {
    if s != [] {
      FilterKeepsAll(f, s[..|s| - 1]);
      assert s == s[..|s| - 1] + [s[|s| - 1]];
    }
  }

  /** Filtering a sequence of distinct elements leaves them distinct. */
  lemma {:induction false} FilterDistinct<T(!new)>(f: T -> bool, s: seq<T>)
    requires Distinct(s)
    ensures Distinct(Filter(f, s))
  {
    if s != [] {
      var init := s[..|s| - 1];
      FilterDistinct(f, init);
      assert s[|s| - 1] !in init;
    }
  }

  /** The elements of `s` whose key is `k` (one group of a group-by). */
  function Select<T(!new), K(==)>(s: seq<T>, key: T -> K, k: K): (r: seq<T>)
    ensures forall x :: x in r <==> x in s && key(x) == k
  {
    Filter(x => key(x) == k, s)
  }

  /** Appending one element grows its own group by one and leaves the others alone. */
  lemma SelectSnoc<T(!new), K>(s: seq<T>, x: T, key: T -> K, k: K)
    ensures Select(s + [x], key, k) == Select(s, key, k) + (if key(x) == k then [x] else [])
  {
    FilterAppend(y => key(y) == k, s, [x]);
    FilterSingle(y => key(y) == k, x);
  }

  /** A key that no element carries has an empty group. */
  lemma SelectNone<T(!new), K>(s: seq<T>, key: T -> K, k: K)
    requires forall x :: x in s ==> key(x) != k
    ensures Select(s, key, k) == []
  {
    FilterNone(x => key(x) == k, s);
  }

  /** The elements of `s` whose key is not `k` (`s.filter(x => x.key !== k)`). */
  function Reject<T(!new), K(==)>(s: seq<T>, key: T -> K, k: K): (r: seq<T>)
    ensures forall x :: x in r <==> x in s && key(x) != k
  {
    Filter(x => key(x) != k, s)
  }

  /** With distinct keys, removing one present key shortens the sequence by exactly one. */
  lemma {:induction false} RejectDistinctKeys<T(!new), K>(s: seq<T>, key: T -> K, k: K)
    requires Distinct(Map(key, s))
    ensures |Reject(s, key, k)| == if k in Map(key, s) then |s| - 1 else |s|
  {
    if s != [] {
      var init := s[..|s| - 1];
      assert Map(key, init) == Map(key, s)[..|s| - 1];
      assert Distinct(Map(key, init));
      RejectDistinctKeys(init, key, k);
      assert Map(key, s) == Map(key, init) + [key(s[|s| - 1])];
      if key(s[|s| - 1]) == k {
        assert k !in Map(key, init);
      }
    }
  }

  function Map<T, U>(f: T -> U, s: seq<T>): (r: seq<U>)
    ensures |r| == |s|
    ensures forall i :: 0 <= i < |s| ==> r[i] == f(s[i])
  {
    seq(|s|, i requires 0 <= i < |s| => f(s[i]))
  }

  lemma MapAppend<T, U>(f: T -> U, a: seq<T>, b: seq<T>)
    ensures Map(f, a + b) == Map(f, a) + Map(f, b)
  {
    assert forall i :: 0 <= i < |a + b| ==> Map(f, a + b)[i] == (Map(f, a) + Map(f, b))[i];
  }

  /** The sum, over the keys `ks`, of the sizes of the groups of `s` with those keys. */
  function SumOfGroupSizes<T(!new), K(==)>(s: seq<T>, key: T -> K, ks: seq<K>): nat
  {
    if ks == [] then 0 else |Select(s, key, ks[0])| + SumOfGroupSizes(s, key, ks[1..])
  }

  lemma {:induction false} SumOfGroupSizesSnoc<T(!new), K>(s: seq<T>, x: T, key: T -> K, ks: seq<K>)
    requires Distinct(ks)
    ensures SumOfGroupSizes(s + [x], key, ks) == SumOfGroupSizes(s, key, ks) + (if key(x) in ks then 1 else 0)
  {
    if ks != [] {
      FilterAppend(y => key(y) == ks[0], s, [x]);
      FilterSingle(y => key(y) == ks[0], x);
      assert Distinct(ks[1..]);
      SumOfGroupSizesSnoc(s, x, key, ks[1..]);
      assert key(x) in ks <==> key(x) == ks[0] || key(x) in ks[1..];
      assert key(x) == ks[0] ==> key(x) !in ks[1..];
    }
  }

  /**
   * Grouping partitions: when the keys are distinct and cover every element's key,
   * the group sizes add up to the length of the sequence.
   */
  lemma {:induction false} GroupSizesPartition<T(!new), K>(s: seq<T>, key: T -> K, ks: seq<K>)
    requires Distinct(ks)
    requires forall x :: x in s ==> key(x) in ks
    ensures SumOfGroupSizes(s, key, ks) == |s|
  {
    if s == [] {
      EmptyGroups(key, ks);
    } else {
      var init := s[..|s| - 1];
      assert s == init + [s[|s| - 1]];
      GroupSizesPartition(init, key, ks);
      SumOfGroupSizesSnoc(init, s[|s| - 1], key, ks);
    }
  }

  lemma {:induction false} EmptyGroups<T(!new), K>(key: T -> K, ks: seq<K>)
    ensures SumOfGroupSizes([], key, ks) == 0
  {
    if ks != [] {
      EmptyGroups(key, ks[1..]);
    }
  }

  /** `[...new Set(s)]`: the first occurrence of every element, in order of first appearance. */
  function Dedupe<T(==,!new)>(s: seq<T>): (r: seq<T>)
    ensures Distinct(r)
    ensures forall x :: x in r <==> x in s
    ensures |r| <= |s|
  {
    if s == [] then []
    else
      var init := s[..|s| - 1];
      var d := Dedupe(init);
      assert s == init + [s[|s| - 1]];
      if s[|s| - 1] in init then d else d + [s[|s| - 1]]
  }

  /** A sequence that already has no duplicates is its own de-duplication. */
  lemma {:induction false} DedupeDistinct<T(!new)>(s: seq<T>)
    requires Distinct(s)
    ensures Dedupe(s) == s
  {
    if s != [] {
      var init := s[..|s| - 1];
      DedupeDistinct(init);
      assert s[|s| - 1] !in init;
      assert s == init + [s[|s| - 1]];
    }
  }

  /** The position of the first occurrence of `x`. */
  function IndexOf<T(==)>(s: seq<T>, x: T): (i: nat)
    requires x in s
    ensures i < |s| && s[i] == x
    ensures forall j :: 0 <= j < i ==> s[j] != x
  {
    if s[0] == x then 0 else 1 + IndexOf(s[1..], x)
  }

  /** Slicing facts for loops that walk a sequence by index. */
  lemma TakeAll<T>(s: seq<T>, i: nat)
    requires i == |s|
    ensures s[..i] == s
  {
  }

  lemma TakeSnoc<T>(s: seq<T>, i: nat)
    requires i < |s|
    ensures s[..i + 1] == s[..i] + [s[i]]
    ensures s[..i + 1][..i] == s[..i]
  {
  }

  lemma MapTakeSnoc<T, U>(f: T -> U, s: seq<T>, i: nat)
    requires i < |s|
    ensures Map(f, s[..i + 1]) == Map(f, s[..i]) + [f(s[i])]
  {
    MapAppend(f, s[..i], [s[i]]);
    TakeSnoc(s, i);
  }
}
