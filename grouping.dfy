/** The WHERE and GROUP BY part of the reporting queries.

    A GROUP BY over a key is modelled by the sequence of distinct keys that occur in the rows
    (in order of first appearance, an order no lemma relies on) and, per key, the aggregates
    `COUNT(...)` and `SUM(...)` over the rows carrying that key. */
module Grouping {

  /** WHERE (and JavaScript's `filter`): the rows satisfying `p`, in their original order. */
  function Filter<T(!new)>(s: seq<T>, p: T -> bool): (r: seq<T>)
    ensures |r| <= |s|
    ensures forall x :: x in r <==> x in s && p(x)
    ensures multiset(r) <= multiset(s)
  {
    if s == [] then []
    else
      assert s == [s[0]] + s[1..];
      if p(s[0]) then [s[0]] + Filter(s[1..], p) else Filter(s[1..], p)
  }

  predicate Distinct<K(==)>(s: seq<K>) {
    forall i, j :: 0 <= i < j < |s| ==> s[i] != s[j]
  }

  /** No two rows share a key. */
  predicate DistinctBy<T, K(==)>(s: seq<T>, key: T -> K) {
    forall i, j :: 0 <= i < j < |s| ==> key(s[i]) != key(s[j])
  }

  /** The GROUP BY keys: every key that occurs, once. */
  function GroupKeys<T(!new), K(==,!new)>(s: seq<T>, key: T -> K): (r: seq<K>)
    ensures Distinct(r)
    ensures forall k :: k in r <==> exists x :: x in s && key(x) == k
  {
    if s == [] then []
    else
      var init := s[..|s| - 1];
      var last := s[|s| - 1];
      assert s == init + [last];
      var rest := GroupKeys(init, key);
      if key(last) in rest then rest else rest + [key(last)]
  }

  /** The set of keys a sequence of keys lists. */
  function KeySet<K>(ks: seq<K>): set<K> {
    set k | k in ks
  }

  /** `COUNT(*)` over the rows whose key is in `ks`. */
  function CountWhere<T, K(==)>(s: seq<T>, key: T -> K, ks: set<K>): nat {
    if s == [] then 0
    else (if key(s[0]) in ks then 1 else 0) + CountWhere(s[1..], key, ks)
  }

  /** `SUM(f)` over the rows whose key is in `ks`. */
  function SumWhere<T, K(==)>(s: seq<T>, key: T -> K, ks: set<K>, f: T -> int): int {
    if s == [] then 0
    else (if key(s[0]) in ks then f(s[0]) else 0) + SumWhere(s[1..], key, ks, f)
  }

  /** `SUM(f)` over all rows. */
  function Total<T>(s: seq<T>, f: T -> int): int {
    if s == [] then 0 else f(s[0]) + Total(s[1..], f)
  }

  lemma {:induction false} CountSplit<T, K>(s: seq<T>, key: T -> K, a: set<K>, b: set<K>)
    requires a !! b
    ensures CountWhere(s, key, a + b) == CountWhere(s, key, a) + CountWhere(s, key, b)
  {
    if s != [] {
      CountSplit(s[1..], key, a, b);
    }
  }

  lemma {:induction false} SumSplit<T, K>(s: seq<T>, key: T -> K, a: set<K>, b: set<K>, f: T -> int)
    requires a !! b
    ensures SumWhere(s, key, a + b, f) == SumWhere(s, key, a, f) + SumWhere(s, key, b, f)
  {
    if s != [] {
      SumSplit(s[1..], key, a, b, f);
    }
  }

  /** When every row's key is among `ks`, the count is the number of rows and the sum the total. */
  lemma {:induction false} Covering<T, K>(s: seq<T>, key: T -> K, ks: set<K>, f: T -> int)
    requires forall x :: x in s ==> key(x) in ks
    ensures CountWhere(s, key, ks) == |s|
    ensures SumWhere(s, key, ks, f) == Total(s, f)
  {
    if s != [] {
      assert s[0] in s;
      forall x | x in s[1..] ensures key(x) in ks {
        assert x in s;
      }
      Covering(s[1..], key, ks, f);
    }
  }

  /** A count never exceeds the number of rows. */
  lemma {:induction false} CountAtMost<T, K>(s: seq<T>, key: T -> K, ks: set<K>)
    ensures CountWhere(s, key, ks) <= |s|
  {
    if s != [] {
      CountAtMost(s[1..], key, ks);
    }
  }

  /** The counts of three distinct keys add up to at most the number of rows, and to exactly
      that number when every row carries one of them. */
  lemma ThreeCounts<T, K>(s: seq<T>, key: T -> K, a: K, b: K, c: K)
    requires a != b && b != c && a != c
    ensures CountWhere(s, key, {a}) + CountWhere(s, key, {b}) + CountWhere(s, key, {c}) <= |s|
    ensures (forall x :: x in s ==> key(x) in {a, b, c}) ==>
      CountWhere(s, key, {a}) + CountWhere(s, key, {b}) + CountWhere(s, key, {c}) == |s|
  {
    CountSplit(s, key, {a}, {b});
    CountSplit(s, key, {a, b}, {c});
    assert {a} + {b} == {a, b};
    assert {a, b} + {c} == {a, b, c};
    CountAtMost(s, key, {a, b, c});
    if forall x :: x in s ==> key(x) in {a, b, c} {
      Covering(s, key, {a, b, c}, x => 0);
    }
  }

  /** A key occurs in the rows exactly when its count is positive. */
  lemma {:induction false} CountPositive<T, K>(s: seq<T>, key: T -> K, k: K)
    ensures CountWhere(s, key, {k}) > 0 <==> exists x :: x in s && key(x) == k
  {
    if s != [] {
      CountPositive(s[1..], key, k);
      assert forall x :: x in s <==> x == s[0] || x in s[1..];
    }
  }

  /** An aggregate of a per-key group: the key, `SUM(f)` and `COUNT(*)` of its rows. */
  datatype Bucket<K> = Bucket(key: K, sum: int, count: nat)

  /** The keys of a sequence of buckets, in order. */
  function BucketKeys<K>(bs: seq<Bucket<K>>): (r: seq<K>)
    ensures |r| == |bs|
    ensures forall i :: 0 <= i < |bs| ==> r[i] == bs[i].key
  {
    seq(|bs|, i requires 0 <= i < |bs| => bs[i].key)
  }

  /** GROUP BY key: one bucket per listed key. */
  function Buckets<T, K(==)>(s: seq<T>, key: T -> K, f: T -> int, ks: seq<K>): (r: seq<Bucket<K>>)
    ensures |r| == |ks|
    ensures forall i :: 0 <= i < |r| ==> r[i].key == ks[i]
    ensures forall i :: 0 <= i < |r| ==>
      r[i].sum == SumWhere(s, key, {ks[i]}, f) && r[i].count == CountWhere(s, key, {ks[i]})
    ensures BucketKeys(r) == ks
  {
    seq(|ks|, i requires 0 <= i < |ks| =>
      Bucket(ks[i], SumWhere(s, key, {ks[i]}, f), CountWhere(s, key, {ks[i]})))
  }

  function SumCounts<K>(bs: seq<Bucket<K>>): int {
    if bs == [] then 0 else SumCounts(bs[..|bs| - 1]) + bs[|bs| - 1].count
  }

  function SumSums<K>(bs: seq<Bucket<K>>): int {
    if bs == [] then 0 else SumSums(bs[..|bs| - 1]) + bs[|bs| - 1].sum
  }

  /** The buckets of distinct keys split the rows with those keys: their counts add up to the
      count over all the keys, and so do their sums. */
  lemma {:induction false} BucketsPartition<T, K>(s: seq<T>, key: T -> K, f: T -> int, ks: seq<K>)
    requires Distinct(ks)
    ensures SumCounts(Buckets(s, key, f, ks)) == CountWhere(s, key, KeySet(ks))
    ensures SumSums(Buckets(s, key, f, ks)) == SumWhere(s, key, KeySet(ks), f)
  {
    if ks == [] {
      assert KeySet(ks) == {};
      CountEmpty(s, key);
      SumEmpty(s, key, f);
    } else {
      var init := ks[..|ks| - 1];
      var last := ks[|ks| - 1];
      var bs := Buckets(s, key, f, ks);
      assert bs[..|bs| - 1] == Buckets(s, key, f, init);
      BucketsPartition(s, key, f, init);
      assert KeySet(ks) == KeySet(init) + {last} by {
        assert ks == init + [last];
      }
      assert last !in KeySet(init) by {
        assert forall i :: 0 <= i < |init| ==> init[i] == ks[i] && ks[i] != last;
      }
      CountSplit(s, key, KeySet(init), {last});
      SumSplit(s, key, KeySet(init), {last}, f);
    }
  }

  lemma {:induction false} CountEmpty<T, K>(s: seq<T>, key: T -> K)
    ensures CountWhere(s, key, {}) == 0
  {
    if s != [] {
      CountEmpty(s[1..], key);
    }
  }

  lemma {:induction false} SumEmpty<T, K>(s: seq<T>, key: T -> K, f: T -> int)
    ensures SumWhere(s, key, {}, f) == 0
  {
    if s != [] {
      SumEmpty(s[1..], key, f);
    }
  }

  /** Conservation for a complete GROUP BY: when the keys are distinct and every row's key is
      listed, the bucket counts add up to the number of rows and the sums to the grand total. */
  lemma GroupsConserve<T, K>(s: seq<T>, key: T -> K, f: T -> int, ks: seq<K>)
    requires Distinct(ks)
    requires forall x :: x in s ==> key(x) in ks
    ensures SumCounts(Buckets(s, key, f, ks)) == |s|
    ensures SumSums(Buckets(s, key, f, ks)) == Total(s, f)
  {
    BucketsPartition(s, key, f, ks);
    Covering(s, key, KeySet(ks), f);
  }

  // ---------------------------------------------------------------- count-only groups

  /** A group that reports only `COUNT(...)`: the key and the number of its rows. */
  datatype Tally<K> = Tally(key: K, count: nat)

  function TallyKeys<K>(ts: seq<Tally<K>>): (r: seq<K>)
    ensures |r| == |ts|
    ensures forall i :: 0 <= i < |ts| ==> r[i] == ts[i].key
  {
    seq(|ts|, i requires 0 <= i < |ts| => ts[i].key)
  }

  /** GROUP BY key with a count: one tally per listed key. */
  function Tallies<T, K(==)>(s: seq<T>, key: T -> K, ks: seq<K>): (r: seq<Tally<K>>)
    ensures |r| == |ks|
    ensures forall i :: 0 <= i < |r| ==> r[i].key == ks[i] && r[i].count == CountWhere(s, key, {ks[i]})
    ensures TallyKeys(r) == ks
  {
    seq(|ks|, i requires 0 <= i < |ks| => Tally(ks[i], CountWhere(s, key, {ks[i]})))
  }

  function SumTallies<K>(ts: seq<Tally<K>>): int {
    if ts == [] then 0 else SumTallies(ts[..|ts| - 1]) + ts[|ts| - 1].count
  }

  /** The tallies of distinct keys add up to the count over all of them. */
  lemma {:induction false} TalliesPartition<T, K>(s: seq<T>, key: T -> K, ks: seq<K>)
    requires Distinct(ks)
    ensures SumTallies(Tallies(s, key, ks)) == CountWhere(s, key, KeySet(ks))
  {
    if ks == [] {
      assert KeySet(ks) == {};
      CountEmpty(s, key);
    } else {
      var init := ks[..|ks| - 1];
      var last := ks[|ks| - 1];
      var ts := Tallies(s, key, ks);
      assert ts[..|ts| - 1] == Tallies(s, key, init);
      TalliesPartition(s, key, init);
      assert KeySet(ks) == KeySet(init) + {last} by {
        assert ks == init + [last];
      }
      assert last !in KeySet(init) by {
        assert forall i :: 0 <= i < |init| ==> init[i] == ks[i] && ks[i] != last;
      }
      CountSplit(s, key, KeySet(init), {last});
    }
  }

  /** A complete count-only GROUP BY accounts for every row once. */
  lemma TalliesConserve<T, K>(s: seq<T>, key: T -> K, ks: seq<K>)
    requires Distinct(ks)
    requires forall x :: x in s ==> key(x) in ks
    ensures SumTallies(Tallies(s, key, ks)) == |s|
  {
    TalliesPartition(s, key, ks);
    Covering(s, key, KeySet(ks), x => 0);
  }

  // ---------------------------------------------------------------- distinctness survives reordering

  /** In a sequence without repetitions every value occurs at most once. */
  lemma {:induction false} DistinctOnce<K>(a: seq<K>, x: K)
    requires Distinct(a)
    ensures multiset(a)[x] <= 1
  {
    if a != [] {
      var rest := a[1..];
      assert a == [a[0]] + rest;
      assert Distinct(rest) by {
        forall i, j | 0 <= i < j < |rest| ensures rest[i] != rest[j] {
          assert rest[i] == a[i + 1] && rest[j] == a[j + 1];
        }
      }
      DistinctOnce(rest, x);
      if x == a[0] {
        assert forall j :: 0 <= j < |rest| ==> rest[j] == a[j + 1] && rest[j] != x;
        assert x !in rest;
      }
    }
  }

  /** A sequence in which every value occurs at most once has no repetitions. */
  lemma {:induction false} OnceDistinct<K>(b: seq<K>)
    requires forall x :: multiset(b)[x] <= 1
    ensures Distinct(b)
  {
    if b != [] {
      var rest := b[1..];
      assert b == [b[0]] + rest;
      assert forall x :: multiset(b)[x] == multiset{b[0]}[x] + multiset(rest)[x];
      assert b[0] !in multiset(rest);
      OnceDistinct(rest);
      forall i, j | 0 <= i < j < |b| ensures b[i] != b[j] {
        assert b[j] == rest[j - 1];
        if i > 0 {
          assert b[i] == rest[i - 1];
        } else {
          assert b[j] in rest;
        }
      }
    }
  }

  /** Values taken from a sequence without repetitions (a reordering, a prefix of one) have none. */
  lemma DistinctSubMultiset<K>(a: seq<K>, b: seq<K>)
    requires multiset(b) <= multiset(a)
    requires Distinct(a)
    ensures Distinct(b)
  {
    forall x ensures multiset(b)[x] <= 1 {
      DistinctOnce(a, x);
    }
    OnceDistinct(b);
  }

  /** Rows taken from rows with distinct keys have distinct keys. */
  lemma DistinctBySubMultiset<T, K>(a: seq<T>, b: seq<T>, key: T -> K)
    requires multiset(b) <= multiset(a)
    requires DistinctBy(a, key)
    ensures DistinctBy(b, key)
  {
    DistinctSubMultiset(a, b);
    forall i, j | 0 <= i < j < |b| ensures key(b[i]) != key(b[j]) {
      assert b[i] in multiset(a) && b[j] in multiset(a);
      var p :| 0 <= p < |a| && a[p] == b[i];
      var q :| 0 <= q < |a| && a[q] == b[j];
      assert p != q;
    }
  }

  /** A filter every row passes keeps the rows as they are. */
  lemma {:induction false} FilterAll<T(!new)>(s: seq<T>, p: T -> bool)
    requires forall x :: x in s ==> p(x)
    ensures Filter(s, p) == s
  {
    if s != [] {
      assert s[0] in s;
      forall x | x in s[1..] ensures p(x) {
        assert x in s;
      }
      FilterAll(s[1..], p);
      assert s == [s[0]] + s[1..];
    }
  }

  /** SELECT of a column list: each row mapped to its projection, order kept. */
  function Project<T, U>(s: seq<T>, f: T -> U): (r: seq<U>)
    ensures |r| == |s|
    ensures forall i :: 0 <= i < |s| ==> r[i] == f(s[i])
  {
    if s == [] then [] else [f(s[0])] + Project(s[1..], f)
  }

  lemma {:induction false} ProjectAppend<T, U>(a: seq<T>, b: seq<T>, f: T -> U)
    ensures Project(a + b, f) == Project(a, f) + Project(b, f)
  {
  }

  /** Rows that are the same up to order project to columns that are the same up to order. */
  lemma {:induction false} ProjectMultiset<T, U>(s1: seq<T>, s2: seq<T>, f: T -> U)
    requires multiset(s1) == multiset(s2)
    ensures multiset(Project(s1, f)) == multiset(Project(s2, f))
    decreases |s1|
  {
    if s1 == [] {
      assert |s2| == |multiset(s2)| == 0;
    } else {
      var x := s1[0];
      assert x in multiset(s2);
      var j :| 0 <= j < |s2| && s2[j] == x;
      var rest := s2[..j] + s2[j + 1..];
      assert s2 == s2[..j] + [x] + s2[j + 1..];
      assert s1 == [x] + s1[1..];
      assert multiset(s2) == multiset(s2[..j]) + multiset{x} + multiset(s2[j + 1..]);
      assert multiset(s1) == multiset{x} + multiset(s1[1..]);
      assert multiset(s1[1..]) == multiset(s1) - multiset{x};
      assert multiset(rest) == multiset(s2) - multiset{x};
      ProjectMultiset(s1[1..], rest, f);
      ProjectAppend(s2[..j] + [x], s2[j + 1..], f);
      ProjectAppend(s2[..j], [x], f);
      ProjectAppend(s2[..j], s2[j + 1..], f);
      ProjectAppend([x], s1[1..], f);
    }
  }
}
