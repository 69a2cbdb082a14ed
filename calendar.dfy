/** Calendar dates, timestamps and the `M/D/YYYY` label of the standalone server's trend chart.

    A DATETIME column is a `Timestamp`: a calendar date and the second within that day.  SQL's
    `DATE(col)` keeps the date.  Calendar validity beyond the ranges of month and day (30 February)
    and time zones are not modelled. */
module Calendar {
  import opened Options
  import Sorting

  type Month = m: int | 1 <= m <= 12 witness 1
  type DayOfMonth = d: int | 1 <= d <= 31 witness 1
  type SecondOfDay = t: int | 0 <= t < 86400

  datatype Date = Date(year: nat, month: Month, day: DayOfMonth)
  datatype Timestamp = Timestamp(date: Date, second: SecondOfDay)

  /** Chronological order of dates. */
  predicate DateLe(a: Date, b: Date) {
    || a.year < b.year
    || (a.year == b.year && (a.month < b.month || (a.month == b.month && a.day <= b.day)))
  }

  predicate DateLt(a: Date, b: Date) {
    DateLe(a, b) && a != b
  }

  /** Chronological order of timestamps. */
  predicate TimestampLe(a: Timestamp, b: Timestamp) {
    DateLt(a.date, b.date) || (a.date == b.date && a.second <= b.second)
  }

  lemma TimestampLeAntisymmetric(a: Timestamp, b: Timestamp)
    requires TimestampLe(a, b) && TimestampLe(b, a)
    ensures a == b
  {
  }

  /** Timestamps in chronological order. */
  predicate Ascending(a: seq<Timestamp>) {
    forall i, j :: 0 <= i < j < |a| ==> TimestampLe(a[i], a[j])
  }

  /** The first of an ascending sequence is no later than any of its members. */
  lemma AscendingFirst(a: seq<Timestamp>, x: Timestamp)
    requires Ascending(a) && x in a
    ensures TimestampLe(a[0], x)
  {
  }

  lemma AscendingTail(a: seq<Timestamp>)
    requires Ascending(a) && a != []
    ensures Ascending(a[1..])
  {
  }

  /** Two ascending arrangements of the same timestamps are the same sequence: a sort by time
      fixes the times row by row, whatever it does with ties. */
  lemma {:induction false} AscendingUnique(a: seq<Timestamp>, b: seq<Timestamp>)
    requires multiset(a) == multiset(b)
    requires Ascending(a) && Ascending(b)
    ensures a == b
    decreases |a|
  {
    assert |a| == |multiset(a)| == |multiset(b)| == |b|;
    if a != [] {
      assert a[0] in multiset(b) && b[0] in multiset(a);
      AscendingFirst(b, a[0]);
      AscendingFirst(a, b[0]);
      TimestampLeAntisymmetric(a[0], b[0]);
      assert a == [a[0]] + a[1..];
      assert b == [b[0]] + b[1..];
      assert multiset(a[1..]) == multiset(a) - multiset{a[0]};
      assert multiset(b[1..]) == multiset(b) - multiset{b[0]};
      AscendingTail(a);
      AscendingTail(b);
      AscendingUnique(a[1..], b[1..]);
    }
  }

  /** SQL's `DATE(t)`. */
  function CalendarDate(t: Timestamp): Date {
    t.date
  }

  lemma DateLeIsPreorder()
    ensures Sorting.TotalPreorder(DateLe)
  {
  }

  /** `DATE()` is monotonic: a later timestamp never falls on an earlier date. */
  lemma CalendarDateMonotonic(a: Timestamp, b: Timestamp)
    requires TimestampLe(a, b)
    ensures DateLe(CalendarDate(a), CalendarDate(b))
  {
  }

  /** `ORDER BY col DESC` on a DATETIME column: newest first. */
  function NewestFirst<T>(col: T -> Timestamp): (T, T) -> bool {
    (x: T, y: T) => TimestampLe(col(y), col(x))
  }

  /** `ORDER BY col ASC` on a DATETIME column: oldest first. */
  function OldestFirst<T>(col: T -> Timestamp): (T, T) -> bool {
    (x: T, y: T) => TimestampLe(col(x), col(y))
  }

  lemma NewestFirstIsPreorder<T(!new)>(col: T -> Timestamp)
    ensures Sorting.TotalPreorder(NewestFirst(col))
  {
  }

  lemma OldestFirstIsPreorder<T(!new)>(col: T -> Timestamp)
    ensures Sorting.TotalPreorder(OldestFirst(col))
  {
  }

  /** `ORDER BY col DESC` on a DATETIME column, stated on the column: every row, newest first. */
  lemma NewestSorted<T(!new)>(s: seq<T>, col: T -> Timestamp)
    ensures Sorting.TotalPreorder(NewestFirst(col))
    ensures var r := Sorting.SortBy(s, NewestFirst(col));
      && multiset(r) == multiset(s)
      && (forall i, j :: 0 <= i < j < |r| ==> TimestampLe(col(r[j]), col(r[i])))
  {
    NewestFirstIsPreorder(col);
  }

  /** `ORDER BY col ASC` on a DATETIME column, stated on the column: every row, oldest first. */
  lemma OldestSorted<T(!new)>(s: seq<T>, col: T -> Timestamp)
    ensures Sorting.TotalPreorder(OldestFirst(col))
    ensures var r := Sorting.SortBy(s, OldestFirst(col));
      && multiset(r) == multiset(s)
      && (forall i, j :: 0 <= i < j < |r| ==> TimestampLe(col(r[i]), col(r[j])))
      && (forall x :: x in r <==> x in s)
  {
    OldestFirstIsPreorder(col);
    forall x ensures x in Sorting.SortBy(s, OldestFirst(col)) <==> x in s {
      Sorting.SortKeepsMembers(s, OldestFirst(col), x);
    }
  }

  /** `ORDER BY col DESC LIMIT n` on a DATETIME column: as many rows as there are up to n,
      newest first, taken from the input, and no row cut is newer than a row kept. */
  lemma NewestTop<T(!new)>(s: seq<T>, col: T -> Timestamp, n: nat)
    ensures Sorting.TotalPreorder(NewestFirst(col))
    ensures var r := Sorting.TopN(s, NewestFirst(col), n);
      && |r| == Sorting.Min(n, |s|)
      && (forall i, j :: 0 <= i < j < |r| ==> TimestampLe(col(r[j]), col(r[i])))
      && multiset(r) <= multiset(s)
      && (forall x, y :: x in r && y in multiset(s) - multiset(r) ==> TimestampLe(col(y), col(x)))
  {
    NewestFirstIsPreorder(col);
    Sorting.TopNSpec(s, NewestFirst(col), n);
  }

  /** `ORDER BY col DESC` on a DATE column: latest first. */
  function LatestFirst<T>(col: T -> Date): (T, T) -> bool {
    (x: T, y: T) => DateLe(col(y), col(x))
  }

  lemma LatestFirstIsPreorder<T(!new)>(col: T -> Date)
    ensures Sorting.TotalPreorder(LatestFirst(col))
  {
  }

  /** `ORDER BY col DESC LIMIT n` on a DATE column: as many rows as there are up to n, latest
      first, taken from the input, and no row cut is later than a row kept. */
  lemma LatestTop<T(!new)>(s: seq<T>, col: T -> Date, n: nat)
    ensures Sorting.TotalPreorder(LatestFirst(col))
    ensures var r := Sorting.TopN(s, LatestFirst(col), n);
      && |r| == Sorting.Min(n, |s|)
      && (forall i, j :: 0 <= i < j < |r| ==> DateLe(col(r[j]), col(r[i])))
      && multiset(r) <= multiset(s)
      && (forall x, y :: x in r && y in multiset(s) - multiset(r) ==> DateLe(col(y), col(x)))
  {
    LatestFirstIsPreorder(col);
    Sorting.TopNSpec(s, LatestFirst(col), n);
  }

  // ---------------------------------------------------------------- decimal numerals

  function DigitChar(n: nat): (c: char)
    requires n < 10
    ensures '0' <= c <= '9'
  {
    (48 + n) as char
  }

  function DigitValue(c: char): int {
    c as int - 48
  }

  predicate IsDigits(s: string) {
    forall i :: 0 <= i < |s| ==> '0' <= s[i] <= '9'
  }

  /** A number written in decimal the way a JavaScript template literal prints it: no sign and
      no zero padding, so the first digit is `0` only for zero itself. */
  function Decimal(n: nat): (r: string)
    ensures |r| >= 1 && IsDigits(r)
    ensures r[0] == '0' ==> n == 0
    ensures '/' !in r
    decreases n
  {
    if n < 10 then [DigitChar(n)] else Decimal(n / 10) + [DigitChar(n % 10)]
  }

  /** The number a string of decimal digits denotes. */
  function DecimalValue(s: string): int {
    if s == [] then 0 else DecimalValue(s[..|s| - 1]) * 10 + DigitValue(s[|s| - 1])
  }

  lemma {:induction false} DecimalRoundTrip(n: nat)
    ensures DecimalValue(Decimal(n)) == n
    decreases n
  {
    if n >= 10 {
      var r := Decimal(n);
      assert r[..|r| - 1] == Decimal(n / 10);
      DecimalRoundTrip(n / 10);
    }
  }

  /** Reads a decimal numeral back; `None` unless the text is a non-empty string of digits. */
  function ParseDecimal(s: string): Option<nat> {
    if s == [] || !IsDigits(s) then None
    else
      var v := DecimalValue(s);
      if v >= 0 then Some(v) else None
  }

  // ---------------------------------------------------------------- M/D/YYYY

  /** JavaScript's `Date.prototype.getMonth`: the month counted from zero. */
  function JsMonth(d: Date): nat {
    d.month - 1
  }

  /** The trend label `${getMonth() + 1}/${getDate()}/${getFullYear()}`. */
  function SlashDate(d: Date): string {
    Decimal(JsMonth(d) + 1) + "/" + Decimal(d.day) + "/" + Decimal(d.year)
  }

  /** `s.split('/')`. */
  function SplitSlash(s: string): (r: seq<string>)
    ensures |r| >= 1
  {
    if s == [] then [""]
    else
      var rest := SplitSlash(s[1..]);
      if s[0] == '/' then [""] + rest else [[s[0]] + rest[0]] + rest[1..]
  }

  lemma {:induction false} SplitWithoutSlash(a: string)
    requires '/' !in a
    ensures SplitSlash(a) == [a]
  {
    if a != [] {
      SplitWithoutSlash(a[1..]);
      assert a == [a[0]] + a[1..];
    }
  }

  lemma {:induction false} SplitAtFirstSlash(a: string, b: string)
    requires '/' !in a
    ensures SplitSlash(a + "/" + b) == [a] + SplitSlash(b)
  {
    if a == [] {
      assert a + "/" + b == ['/'] + b;
      assert (a + "/" + b)[1..] == b;
    } else {
      assert (a + "/" + b)[1..] == a[1..] + "/" + b;
      SplitAtFirstSlash(a[1..], b);
      assert a == [a[0]] + a[1..];
    }
  }

  /** Reads a `M/D/YYYY` label back into a date. */
  function ParseSlashDate(s: string): Option<Date> {
    var parts := SplitSlash(s);
    if |parts| != 3 then None
    else
      match (ParseDecimal(parts[0]), ParseDecimal(parts[1]), ParseDecimal(parts[2]))
      case (Some(m), Some(d), Some(y)) =>
        if 1 <= m <= 12 && 1 <= d <= 31 then Some(Date(y, m, d)) else None
      case _ => None
  }

  lemma ParseDecimalOf(n: nat)
    ensures ParseDecimal(Decimal(n)) == Some(n)
  {
    DecimalRoundTrip(n);
  }

  /** The label names its date: month, day and year can be read back from it. */
  lemma SlashDateRoundTrip(d: Date)
    ensures ParseSlashDate(SlashDate(d)) == Some(d)
  {
    var m, dd, y := Decimal(JsMonth(d) + 1), Decimal(d.day), Decimal(d.year);
    assert SlashDate(d) == m + "/" + (dd + "/" + y);
    SplitAtFirstSlash(m, dd + "/" + y);
    SplitAtFirstSlash(dd, y);
    SplitWithoutSlash(y);
    assert SplitSlash(SlashDate(d)) == [m, dd, y];
    ParseDecimalOf(JsMonth(d) + 1);
    ParseDecimalOf(d.day);
    ParseDecimalOf(d.year);
  }

  /** The label's three fields are unpadded numerals and its month counts from one. */
  lemma SlashDateFields(d: Date)
    ensures SplitSlash(SlashDate(d)) == [Decimal(d.month), Decimal(d.day), Decimal(d.year)]
    ensures forall part :: part in SplitSlash(SlashDate(d)) ==> IsDigits(part) && (|part| > 1 ==> part[0] != '0')
  {
    var m, dd, y := Decimal(JsMonth(d) + 1), Decimal(d.day), Decimal(d.year);
    assert SlashDate(d) == m + "/" + (dd + "/" + y);
    SplitAtFirstSlash(m, dd + "/" + y);
    SplitAtFirstSlash(dd, y);
    SplitWithoutSlash(y);
  }
}
