/** Orderings and the ORDER BY / LIMIT part of the reporting queries.

    Every `order: [[col, dir]]` of the routers is modelled as a sort by a total preorder on
    the row type.  The order between rows that compare equal is what the database happens to
    return; nothing here depends on it: a sort is specified only as "sorted and a
    permutation of its input", and a `limit` as "sorted, and no row left out precedes a row
    kept". */
module Sorting {
  import opened Options

  /** `le` compares any two values. */
  ghost predicate Comparable<T(!new)>(le: (T, T) -> bool) {
    forall x, y :: le(x, y) || le(y, x)
  }

  /** `le` compares any two values and chains: a total preorder. */
  ghost predicate TotalPreorder<T(!new)>(le: (T, T) -> bool) {
    && Comparable(le)
    && (forall x, y, z :: le(x, y) && le(y, z) ==> le(x, z))
  }

  /** Every earlier element is `le` every later one. */
  predicate SortedBy<T>(s: seq<T>, le: (T, T) -> bool) {
    forall i, j :: 0 <= i < j < |s| ==> le(s[i], s[j])
  }

  function Min(a: int, b: int): int { if a <= b then a else b }

  /** Places `x` in front of the first element it is `le` to. */
  function Insert<T(!new)>(x: T, s: seq<T>, le: (T, T) -> bool): (r: seq<T>)
    ensures multiset(r) == multiset(s) + multiset{x}
    ensures |r| == |s| + 1
  {
    if s == [] then [x]
    else if le(x, s[0]) then [x] + s
    else
      assert s == [s[0]] + s[1..];
      [s[0]] + Insert(x, s[1..], le)
  }

  /** Inserting adds `x` and nothing else. */
  lemma {:induction false} InsertMembers<T(!new)>(x: T, s: seq<T>, le: (T, T) -> bool, y: T)
    requires y in Insert(x, s, le)
    ensures y == x || y in s
  {
    if s != [] && !le(x, s[0]) && y != s[0] {
      InsertMembers(x, s[1..], le, y);
    }
  }

  /** An element `le` every element of a sorted sequence can go in front of it. */
  lemma ConsSorted<T>(a: T, t: seq<T>, le: (T, T) -> bool)
    requires SortedBy(t, le)
    requires forall j :: 0 <= j < |t| ==> le(a, t[j])
    ensures SortedBy([a] + t, le)
  {
    var r := [a] + t;
    forall i, j | 0 <= i < j < |r| ensures le(r[i], r[j]) {
      assert r[j] == t[j - 1];
      if i > 0 {
        assert r[i] == t[i - 1];
      }
    }
  }

  lemma {:induction false} InsertSorted<T(!new)>(x: T, s: seq<T>, le: (T, T) -> bool)
    requires TotalPreorder(le)
    requires SortedBy(s, le)
    ensures SortedBy(Insert(x, s, le), le)
  {
    if s == [] {
    } else if le(x, s[0]) {
      forall j | 0 <= j < |s| ensures le(x, s[j]) {
        if j > 0 {
          assert le(s[0], s[j]);
        }
      }
      ConsSorted(x, s, le);
    } else {
      var tail := Insert(x, s[1..], le);
      InsertSorted(x, s[1..], le);
      assert le(s[0], x);
      forall j | 0 <= j < |tail| ensures le(s[0], tail[j]) {
        InsertMembers(x, s[1..], le, tail[j]);
        if tail[j] != x {
          var m :| 0 <= m < |s| - 1 && s[1..][m] == tail[j];
          assert s[m + 1] == tail[j];
        }
      }
      ConsSorted(s[0], tail, le);
    }
  }

  /** ORDER BY: an insertion sort, so that the model is a function of the rows. */
  function SortBy<T(!new)>(s: seq<T>, le: (T, T) -> bool): (r: seq<T>)
    requires TotalPreorder(le)
    ensures multiset(r) == multiset(s)
    ensures |r| == |s|
    ensures SortedBy(r, le)
  {
    if s == [] then []
    else
      assert s == [s[0]] + s[1..];
      InsertSorted(s[0], SortBy(s[1..], le), le);
      Insert(s[0], SortBy(s[1..], le), le)
  }

  /** JavaScript's `s.slice(0, n)` and SQL's `LIMIT n` on an already ordered sequence. */
  function Prefix<T>(s: seq<T>, n: nat): (r: seq<T>)
    ensures |r| == Min(n, |s|)
    ensures forall i :: 0 <= i < |r| ==> r[i] == s[i]
  {
    s[..Min(n, |s|)]
  }

  /** ORDER BY followed by LIMIT n. */
  function TopN<T(!new)>(s: seq<T>, le: (T, T) -> bool, n: nat): (r: seq<T>)
    requires TotalPreorder(le)
  {
    Prefix(SortBy(s, le), n)
  }

  /** In a sorted sequence every element of a prefix precedes every element after it. */
  lemma PrefixPrecedesRest<T>(t: seq<T>, k: nat, le: (T, T) -> bool)
    requires SortedBy(t, le) && k <= |t|
    ensures forall x, y :: x in t[..k] && y in t[k..] ==> le(x, y)
  {
    forall x, y | x in t[..k] && y in t[k..] ensures le(x, y) {
      var i :| 0 <= i < k && t[..k][i] == x;
      var j :| 0 <= j < |t| - k && t[k..][j] == y;
      assert t[i] == x && t[k + j] == y;
    }
  }

  /** What a LIMIT after an ORDER BY promises: at most n rows, in order, taken from the input, as
      many as there are up to n, and every row that was cut is preceded by every row kept. */
  lemma {:induction false} TopNSpec<T(!new)>(s: seq<T>, le: (T, T) -> bool, n: nat)
    requires TotalPreorder(le)
    ensures |TopN(s, le, n)| == Min(n, |s|)
    ensures SortedBy(TopN(s, le, n), le)
    ensures multiset(TopN(s, le, n)) <= multiset(s)
    ensures forall x, y :: x in TopN(s, le, n) && y in multiset(s) - multiset(TopN(s, le, n)) ==> le(x, y)
  {
    var t := SortBy(s, le);
    var k := Min(n, |t|);
    var r := TopN(s, le, n);
    PrefixSorted(t, k, le);
    assert r == t[..k];
    assert t == r + t[k..];
    assert multiset(s) - multiset(r) == multiset(t[k..]);
    PrefixPrecedesRest(t, k, le);
    forall x, y | x in r && y in multiset(s) - multiset(r) ensures le(x, y) {
      assert y in t[k..];
    }
  }

  /** A prefix of a sorted sequence is sorted. */
  lemma PrefixSorted<T>(t: seq<T>, k: nat, le: (T, T) -> bool)
    requires SortedBy(t, le) && k <= |t|
    ensures SortedBy(t[..k], le)
  {
  }

  /** A LIMIT after an ORDER BY only keeps rows of the input. */
  lemma TopNSub<T(!new)>(s: seq<T>, le: (T, T) -> bool, n: nat)
    requires TotalPreorder(le)
    ensures multiset(TopN(s, le, n)) <= multiset(s)
  {
    var t := SortBy(s, le);
    var k := Min(n, |t|);
    assert t == TopN(s, le, n) + t[k..];
  }

  /** A sort keeps every row and adds none. */
  lemma SortKeepsMembers<T(!new)>(s: seq<T>, le: (T, T) -> bool, x: T)
    requires TotalPreorder(le)
    ensures x in SortBy(s, le) <==> x in s
  {
    assert x in multiset(SortBy(s, le)) <==> x in multiset(s);
  }

  // ---------------------------------------------------------------- orders on strings

  /** Lexicographic order on character codes: how `ORDER BY category ASC` compares two
      categories under a binary collation. */
  predicate StrLe(a: string, b: string)
    decreases |a|
  {
    if a == [] then true
    else if b == [] then false
    else if a[0] != b[0] then a[0] < b[0]
    else StrLe(a[1..], b[1..])
  }

  lemma {:induction false} StrLeTotal(a: string, b: string)
    ensures StrLe(a, b) || StrLe(b, a)
    decreases |a|
  {
    if a != [] && b != [] && a[0] == b[0] {
      StrLeTotal(a[1..], b[1..]);
    }
  }

  lemma {:induction false} StrLeTransitive(a: string, b: string, c: string)
    requires StrLe(a, b) && StrLe(b, c)
    ensures StrLe(a, c)
    decreases |a|
  {
    if a != [] && b != [] && c != [] && a[0] == b[0] && b[0] == c[0] {
      StrLeTransitive(a[1..], b[1..], c[1..]);
    }
  }

  /** How `ORDER BY col ASC` compares two values of a nullable string column: NULL sorts before
      every string, as MySQL orders it, and two strings compare by `StrLe`. */
  predicate NullsFirstLe(a: Option<string>, b: Option<string>) {
    match (a, b)
    case (None, _) => true
    case (Some(_), None) => false
    case (Some(x), Some(y)) => StrLe(x, y)
  }

  lemma NullsFirstTotal(a: Option<string>, b: Option<string>)
    ensures NullsFirstLe(a, b) || NullsFirstLe(b, a)
  {
    if a.Some? && b.Some? {
      StrLeTotal(a.value, b.value);
    }
  }

  lemma NullsFirstTransitive(a: Option<string>, b: Option<string>, c: Option<string>)
    requires NullsFirstLe(a, b) && NullsFirstLe(b, c)
    ensures NullsFirstLe(a, c)
  {
    if a.Some? && b.Some? && c.Some? {
      StrLeTransitive(a.value, b.value, c.value);
    }
  }

  /** Ordering rows by a nullable string column is a total preorder on the rows. */
  lemma ByNullableStringIsPreorder<T(!new)>(col: T -> Option<string>)
    ensures TotalPreorder(ByNullableString(col))
  {
    forall x: T, y: T ensures NullsFirstLe(col(x), col(y)) || NullsFirstLe(col(y), col(x)) {
      NullsFirstTotal(col(x), col(y));
    }
    forall x: T, y: T, z: T | NullsFirstLe(col(x), col(y)) && NullsFirstLe(col(y), col(z))
      ensures NullsFirstLe(col(x), col(z))
    {
      NullsFirstTransitive(col(x), col(y), col(z));
    }
  }

  // ---------------------------------------------------------------- orders on row columns

  /** `ORDER BY col ASC` on a nullable string column. */
  function ByNullableString<T>(col: T -> Option<string>): (T, T) -> bool {
    (x: T, y: T) => NullsFirstLe(col(x), col(y))
  }

  /** `ORDER BY col DESC` on an integer column. */
  function ByIntDesc<T>(col: T -> int): (T, T) -> bool {
    (x: T, y: T) => col(x) >= col(y)
  }

  lemma ByIntDescIsPreorder<T(!new)>(col: T -> int)
    ensures TotalPreorder(ByIntDesc(col))
  {
  }

  /** `ORDER BY col DESC LIMIT n` stated on the column: at most n rows, as many as there are up
      to n, the column descending, rows taken from the input, and no row cut has a larger value
      than a row kept. */
  lemma TopByIntDesc<T(!new)>(s: seq<T>, col: T -> int, n: nat)
    ensures TotalPreorder(ByIntDesc(col))
    ensures var r := TopN(s, ByIntDesc(col), n);
      && |r| == Min(n, |s|)
      && (forall i, j :: 0 <= i < j < |r| ==> col(r[i]) >= col(r[j]))
      && multiset(r) <= multiset(s)
      && (forall x, y :: x in r && y in multiset(s) - multiset(r) ==> col(x) >= col(y))
  {
    ByIntDescIsPreorder(col);
    TopNSpec(s, ByIntDesc(col), n);
  }

  /** A row of the input that did not make it into `ORDER BY col DESC LIMIT n` has a value no
      larger than any row that did. */
  lemma TopByIntDescCut<T(!new)>(s: seq<T>, col: T -> int, n: nat, y: T)
    requires TotalPreorder(ByIntDesc(col))
    requires y in s && y !in TopN(s, ByIntDesc(col), n)
    ensures forall x :: x in TopN(s, ByIntDesc(col), n) ==> col(x) >= col(y)
  {
    TopNSpec(s, ByIntDesc(col), n);
    var r := TopN(s, ByIntDesc(col), n);
    assert y in multiset(s) && y !in multiset(r);
    assert y in multiset(s) - multiset(r);
  }

  /** `ORDER BY col ASC` on a nullable string column, stated on the column. */
  lemma SortedByNullableString<T(!new)>(s: seq<T>, col: T -> Option<string>)
    ensures TotalPreorder(ByNullableString(col))
    ensures var r := SortBy(s, ByNullableString(col));
      forall i, j :: 0 <= i < j < |r| ==> NullsFirstLe(col(r[i]), col(r[j]))
  {
    ByNullableStringIsPreorder(col);
    var r := SortBy(s, ByNullableString(col));
    forall i, j | 0 <= i < j < |r| ensures NullsFirstLe(col(r[i]), col(r[j])) {
      assert ByNullableString(col)(r[i], r[j]);
    }
  }

  /** `ORDER BY col DESC` on an integer column, stated on the column. */
  lemma SortedByIntDesc<T(!new)>(s: seq<T>, col: T -> int)
    ensures TotalPreorder(ByIntDesc(col))
    ensures var r := SortBy(s, ByIntDesc(col));
      forall i, j :: 0 <= i < j < |r| ==> col(r[i]) >= col(r[j])
  {
    ByIntDescIsPreorder(col);
    var r := SortBy(s, ByIntDesc(col));
    forall i, j | 0 <= i < j < |r| ensures col(r[i]) >= col(r[j]) {
      assert ByIntDesc(col)(r[i], r[j]);
    }
  }
}
