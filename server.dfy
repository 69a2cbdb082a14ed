/** The standalone server `app.js`: `/api/deliveries/status`, `/api/sales/trends` and
    `/api/sales/recent`.  Each handler runs one `db.query` and answers
    `Http.ServerServe(query, f)`; the query is given by the rows of the tables it reads, and the
    SQL it sends is modelled by the functions below. */
module Server {
  import opened Options
  import opened Calendar
  import opened Schema
  import opened Sorting
  import opened Grouping
  import opened Http

  // ---------------------------------------------------------------- /api/deliveries/status

  const Pending := "Pending"
  const InTransit := "In Transit"
  const Delivered := "Delivered"

  /** The response `{ pending, inTransit, delivered }`: always exactly these three counts. */
  datatype DeliveryCounts = DeliveryCounts(pending: nat, inTransit: nat, delivered: nat)

  function RecordStatus(d: DeliveryRecord): string {
    d.deliveryStatus
  }

  /** The grouped query of the handler: one row per delivery status that occurs, with the number
      of records in that status. */
  function StatusRows(records: seq<DeliveryRecord>): (r: seq<Tally<string>>)
    ensures TallyKeys(r) == GroupKeys(records, RecordStatus)
    ensures forall i :: 0 <= i < |r| ==> r[i].count == CountWhere(records, RecordStatus, {r[i].key})
  {
    Tallies(records, RecordStatus, GroupKeys(records, RecordStatus))
  }

  /** What `statusMap[s]` holds once every row has been visited: the count of the last row
      carrying `s`, or the initial 0 of a canonical status no row carries. */
  function LastCount(rows: seq<Tally<string>>, s: string): (r: nat)
    ensures r == 0 || exists i :: 0 <= i < |rows| && rows[i].key == s && rows[i].count == r
  {
    if rows == [] then 0
    else if rows[|rows| - 1].key == s then rows[|rows| - 1].count
    else LastCount(rows[..|rows| - 1], s)
  }

  /** The three entries the response reads out of `statusMap`. */
  function Summary(rows: seq<Tally<string>>): (r: DeliveryCounts)
    ensures r.pending == 0 || exists i :: 0 <= i < |rows| && rows[i].key == Pending && rows[i].count == r.pending
    ensures r.inTransit == 0 || exists i :: 0 <= i < |rows| && rows[i].key == InTransit && rows[i].count == r.inTransit
    ensures r.delivered == 0 || exists i :: 0 <= i < |rows| && rows[i].key == Delivered && rows[i].count == r.delivered
  {
    DeliveryCounts(LastCount(rows, Pending), LastCount(rows, InTransit), LastCount(rows, Delivered))
  }

  /** `statusMap` starts with the three canonical statuses at 0 and every row overwrites the
      entry of its status. */
  method FoldStatuses(rows: seq<Tally<string>>) returns (counts: DeliveryCounts)
    ensures counts == Summary(rows)
  {
    var statusMap: map<string, nat> := map[Pending := 0, InTransit := 0, Delivered := 0];
    var i := 0;
    while i < |rows|
      invariant 0 <= i <= |rows|
      invariant Pending in statusMap && InTransit in statusMap && Delivered in statusMap
      invariant forall s :: s in statusMap ==> statusMap[s] == LastCount(rows[..i], s)
    {
      assert rows[..i + 1][..i] == rows[..i];
      statusMap := statusMap[rows[i].key := rows[i].count];
      i := i + 1;
    }
    assert rows[..i] == rows;
    counts := DeliveryCounts(statusMap[Pending], statusMap[InTransit], statusMap[Delivered]);
  }

  /** The counts the handler reports for a table of delivery records. */
  function DeliveryStatusOf(records: seq<DeliveryRecord>): (r: DeliveryCounts)
    ensures r.pending == CountWhere(records, RecordStatus, {Pending})
    ensures r.inTransit == CountWhere(records, RecordStatus, {InTransit})
    ensures r.delivered == CountWhere(records, RecordStatus, {Delivered})
  {
    GroupedLastCount(records, Pending);
    GroupedLastCount(records, InTransit);
    GroupedLastCount(records, Delivered);
    Summary(StatusRows(records))
  }

  /** `GET /api/deliveries/status`. */
  method DeliveryStatusRoute(q: Query<seq<DeliveryRecord>>) returns (r: Reply<DeliveryCounts>)
    ensures r == ServerServe(q, DeliveryStatusOf)
  {
    match q
    case Failed(m) =>
      r := ServerError(500, DatabaseError(DatabaseErrorText, m));
    case Rows(records) =>
      var counts := FoldStatuses(StatusRows(records));
      r := Ok(counts);
  }

  /** A status that no row carries is reported as 0. */
  lemma {:induction false} LastCountAbsent(rows: seq<Tally<string>>, s: string)
    requires forall i :: 0 <= i < |rows| ==> rows[i].key != s
    ensures LastCount(rows, s) == 0
  {
    if rows != [] {
      LastCountAbsent(rows[..|rows| - 1], s);
    }
  }

  /** `forEach` overwrites: the last row carrying a status decides its count. */
  lemma {:induction false} LastCountLastRow(rows: seq<Tally<string>>, s: string, i: int)
    requires 0 <= i < |rows| && rows[i].key == s
    requires forall j :: i < j < |rows| ==> rows[j].key != s
    ensures LastCount(rows, s) == rows[i].count
  {
    if i < |rows| - 1 {
      LastCountLastRow(rows[..|rows| - 1], s, i);
    }
  }

  /** A row of another status, wherever it stands, does not affect the count of `s`. */
  lemma {:induction false} LastCountSkip(a: seq<Tally<string>>, x: Tally<string>, b: seq<Tally<string>>, s: string)
    requires x.key != s
    ensures LastCount(a + [x] + b, s) == LastCount(a + b, s)
  {
    if b == [] {
      assert a + [x] + b == a + [x];
      assert (a + [x])[..|a|] == a;
      assert a + b == a;
    } else {
      var init := b[..|b| - 1];
      assert (a + [x] + b)[..|a + [x] + b| - 1] == a + [x] + init;
      assert (a + b)[..|a + b| - 1] == a + init;
      LastCountSkip(a, x, init, s);
    }
  }

  /** A row whose status is none of the three canonical ones changes none of the reported
      counts. */
  lemma UnrecognisedRowIgnored(a: seq<Tally<string>>, x: Tally<string>, b: seq<Tally<string>>)
    requires x.key != Pending && x.key != InTransit && x.key != Delivered
    ensures Summary(a + [x] + b) == Summary(a + b)
  {
    LastCountSkip(a, x, b, Pending);
    LastCountSkip(a, x, b, InTransit);
    LastCountSkip(a, x, b, Delivered);
  }

  /** Over a grouped result, the count read for a status is the number of records in it. */
  lemma GroupedLastCount(records: seq<DeliveryRecord>, s: string)
    ensures LastCount(StatusRows(records), s) == CountWhere(records, RecordStatus, {s})
  {
    var keys := GroupKeys(records, RecordStatus);
    var rows := StatusRows(records);
    if s in keys {
      var i :| 0 <= i < |keys| && keys[i] == s;
      assert forall j :: i < j < |rows| ==> rows[j].key == keys[j] && keys[j] != keys[i];
      LastCountLastRow(rows, s, i);
    } else {
      assert forall i :: 0 <= i < |rows| ==> rows[i].key == keys[i] && keys[i] != s;
      LastCountAbsent(rows, s);
      CountPositive(records, RecordStatus, s);
    }
  }

  /** The response counts the records of each canonical status; together they are at most the
      number of records, and exactly that many when every record has a canonical status. */
  lemma DeliveryStatusCounts(records: seq<DeliveryRecord>)
    ensures var c := DeliveryStatusOf(records);
      && c.pending == CountWhere(records, RecordStatus, {Pending})
      && c.inTransit == CountWhere(records, RecordStatus, {InTransit})
      && c.delivered == CountWhere(records, RecordStatus, {Delivered})
      && c.pending + c.inTransit + c.delivered <= |records|
      && ((forall d :: d in records ==> d.deliveryStatus in {Pending, InTransit, Delivered}) ==>
            c.pending + c.inTransit + c.delivered == |records|)
  {
    GroupedLastCount(records, Pending);
    GroupedLastCount(records, InTransit);
    GroupedLastCount(records, Delivered);
    ThreeCounts(records, RecordStatus, Pending, InTransit, Delivered);
  }

  // ---------------------------------------------------------------- /api/sales/trends

  function BucketDay(b: Bucket<Date>): Date {
    b.key
  }

  /** The grouped query of the trend handler: one row per calendar day with sales, carrying the
      day's revenue as its `sum`; the bucket's count is not read. */
  function DayTotals(sales: seq<Sale>): (r: seq<Bucket<Date>>)
    ensures BucketKeys(r) == GroupKeys(sales, SaleDay)
    ensures forall i :: 0 <= i < |r| ==> r[i].sum == SumWhere(sales, SaleDay, {r[i].key}, Amount)
  {
    Buckets(sales, SaleDay, Amount, GroupKeys(sales, SaleDay))
  }

  /** The query's ordering and limit: the seven latest days, latest first. */
  function LatestDays(sales: seq<Sale>): (r: seq<Bucket<Date>>)
    ensures |r| == Min(7, |GroupKeys(sales, SaleDay)|)
    ensures multiset(r) <= multiset(DayTotals(sales))
  {
    LatestFirstIsPreorder(BucketDay);
    TopNSub(DayTotals(sales), LatestFirst(BucketDay), 7);
    TopN(DayTotals(sales), LatestFirst(BucketDay), 7)
  }

  /** The sequence read back to front. */
  function Reversed<T>(s: seq<T>): (r: seq<T>)
    ensures |r| == |s|
    ensures forall i :: 0 <= i < |s| ==> r[i] == s[|s| - 1 - i]
  {
    if s == [] then [] else Reversed(s[1..]) + [s[0]]
  }

  /** `rows.reverse()`. */
  method ReverseInPlace<T>(a: array<T>)
    modifies a
    ensures a[..] == Reversed(old(a[..]))
  {
    var i, j := 0, a.Length - 1;
    while i < j
      invariant 0 <= i && j == a.Length - 1 - i && i <= j + 1
      invariant forall k :: 0 <= k < i ==> a[k] == old(a[a.Length - 1 - k]) && a[a.Length - 1 - k] == old(a[k])
      invariant forall k :: i <= k <= j ==> a[k] == old(a[k])
    {
      a[i], a[j] := a[j], a[i];
      i, j := i + 1, j - 1;
    }
  }

  /** The rows after the reversal: the latest seven days, now oldest first. */
  function LastWeek(sales: seq<Sale>): (r: seq<Bucket<Date>>)
    ensures multiset(r) == multiset(LatestDays(sales))
  {
    ReversedMultiset(LatestDays(sales));
    Reversed(LatestDays(sales))
  }

  /** Reversal only reorders. */
  lemma {:induction false} ReversedMultiset<T>(s: seq<T>)
    ensures multiset(Reversed(s)) == multiset(s)
  {
    if s != [] {
      ReversedMultiset(s[1..]);
      assert s == [s[0]] + s[1..];
    }
  }

  /** The response `{ labels, data }`. */
  datatype TrendChart = TrendChart(labels: seq<string>, data: seq<int>)

  /** `labels` is each row's date written `M/D/YYYY` (the unpadded form `Calendar.SlashDate`
      produces, which reads back as the date), `data` its total. */
  function TrendChartOf(sales: seq<Sale>): (r: TrendChart)
    ensures |r.labels| == |r.data| == |LastWeek(sales)|
    ensures forall i :: 0 <= i < |r.labels| ==>
      && r.labels[i] == SlashDate(LastWeek(sales)[i].key)
      && ParseSlashDate(r.labels[i]) == Some(LastWeek(sales)[i].key)
      && r.data[i] == LastWeek(sales)[i].sum
  {
    ChartOf(LastWeek(sales))
  }

  /** The chart of a list of date buckets, row by row. */
  function ChartOf(rows: seq<Bucket<Date>>): (r: TrendChart)
    ensures |r.labels| == |r.data| == |rows|
    ensures forall i :: 0 <= i < |rows| ==>
      && r.labels[i] == SlashDate(rows[i].key)
      && ParseSlashDate(r.labels[i]) == Some(rows[i].key)
      && r.data[i] == rows[i].sum
  {
    LabelsReadBack(rows);
    TrendChart(seq(|rows|, i requires 0 <= i < |rows| => SlashDate(rows[i].key)),
               seq(|rows|, i requires 0 <= i < |rows| => rows[i].sum))
  }

  /** Every label reads back as the date of its row. */
  lemma LabelsReadBack(rows: seq<Bucket<Date>>)
    ensures forall i :: 0 <= i < |rows| ==> ParseSlashDate(SlashDate(rows[i].key)) == Some(rows[i].key)
  {
    forall i | 0 <= i < |rows| ensures ParseSlashDate(SlashDate(rows[i].key)) == Some(rows[i].key) {
      SlashDateRoundTrip(rows[i].key);
    }
  }

  /** `GET /api/sales/trends`: the grouped rows are copied into an array, reversed in place and
      mapped to labels and totals. */
  method SalesTrendsRoute(q: Query<seq<Sale>>) returns (r: Reply<TrendChart>)
    ensures r == ServerServe(q, TrendChartOf)
  {
    match q
    case Failed(m) =>
      r := ServerError(500, DatabaseError(DatabaseErrorText, m));
    case Rows(sales) =>
      var rows := LatestDays(sales);
      var a := new Bucket<Date>[|rows|](i requires 0 <= i < |rows| => rows[i]);
      assert a[..] == rows;
      ReverseInPlace(a);
      var cells := a[..];
      assert cells == LastWeek(sales);
      r := Ok(ChartOf(cells));
  }

  /** The keys of the date buckets are the distinct days. */
  lemma DayTotalsDistinct(sales: seq<Sale>)
    ensures DistinctBy(DayTotals(sales), BucketDay)
  {
    var keys := GroupKeys(sales, SaleDay);
    var all := DayTotals(sales);
    assert forall i :: 0 <= i < |all| ==> BucketDay(all[i]) == keys[i];
  }

  /** The latest days before the reversal: as many as there are up to seven, one per day, in
      strictly descending order. */
  lemma LatestDaysOrdered(sales: seq<Sale>)
    ensures var d := LatestDays(sales);
      && |d| == Min(7, |GroupKeys(sales, SaleDay)|)
      && (forall i, j :: 0 <= i < j < |d| ==> DateLt(d[j].key, d[i].key))
  {
    var all := DayTotals(sales);
    LatestTop(all, BucketDay, 7);
    var d := LatestDays(sales);
    DayTotalsDistinct(sales);
    DistinctBySubMultiset(all, d, BucketDay);
    forall i, j | 0 <= i < j < |d| ensures DateLt(d[j].key, d[i].key) {
      assert BucketDay(d[i]) != BucketDay(d[j]);
    }
  }

  /** A day bucket left out of the seven kept is no later than any bucket kept. */
  lemma LatestDaysCut(sales: seq<Sale>, b: Bucket<Date>)
    requires b in DayTotals(sales) && b !in LatestDays(sales)
    ensures forall x :: x in LatestDays(sales) ==> DateLe(b.key, x.key)
  {
    var all := DayTotals(sales);
    LatestTop(all, BucketDay, 7);
    var d := LatestDays(sales);
    assert b in multiset(all) && b !in multiset(d);
    assert b in multiset(all) - multiset(d);
  }

  /** Read back to front, rows in strictly descending date order are in strictly ascending
      order. */
  lemma ReversedAscending(d: seq<Bucket<Date>>)
    requires forall i, j :: 0 <= i < j < |d| ==> DateLt(d[j].key, d[i].key)
    ensures var r := Reversed(d);
      forall i, j :: 0 <= i < j < |r| ==> DateLt(r[i].key, r[j].key)
  {
    var r := Reversed(d);
    forall i, j | 0 <= i < j < |r| ensures DateLt(r[i].key, r[j].key) {
      assert r[i] == d[|d| - 1 - i] && r[j] == d[|d| - 1 - j];
    }
  }

  /** At most seven rows, one per day in strictly ascending order; as many rows as days with
      sales, up to seven. */
  lemma LastWeekOrdered(sales: seq<Sale>)
    ensures var r := LastWeek(sales);
      && |r| == Min(7, |GroupKeys(sales, SaleDay)|)
      && (forall i, j :: 0 <= i < j < |r| ==> DateLt(r[i].key, r[j].key))
  {
    LatestDaysOrdered(sales);
    ReversedAscending(LatestDays(sales));
  }

  /** Each row carries its day's total, and each day charted had sales. */
  lemma LastWeekTotals(sales: seq<Sale>)
    ensures var r := LastWeek(sales);
      forall i :: 0 <= i < |r| ==>
        && r[i].sum == SumWhere(sales, SaleDay, {r[i].key}, Amount)
        && exists t :: t in sales && SaleDay(t) == r[i].key
  {
    var keys := GroupKeys(sales, SaleDay);
    var all := DayTotals(sales);
    var d := LatestDays(sales);
    var r := LastWeek(sales);
    LatestFirstIsPreorder(BucketDay);
    TopNSub(all, LatestFirst(BucketDay), 7);
    ReversedRows(d);
    forall i | 0 <= i < |r|
      ensures r[i].sum == SumWhere(sales, SaleDay, {r[i].key}, Amount)
      ensures exists t :: t in sales && SaleDay(t) == r[i].key
    {
      assert r[i] in d;
      assert r[i] in multiset(all);
      var k :| 0 <= k < |all| && all[k] == r[i];
      assert keys[k] in keys;
    }
  }

  /** Reversing keeps the rows: each row's date is still listed, and every row read back came
      from the input. */
  lemma ReversedRows(d: seq<Bucket<Date>>)
    ensures forall x :: x in d ==> x.key in BucketKeys(Reversed(d))
    ensures forall i :: 0 <= i < |Reversed(d)| ==> Reversed(d)[i] in d
  {
    var r := Reversed(d);
    forall x | x in d ensures x.key in BucketKeys(r) {
      var p :| 0 <= p < |d| && d[p] == x;
      assert r[|d| - 1 - p] == x;
    }
  }

  /** They are the latest days: a day with sales that is not charted lies before every charted
      day. */
  lemma LastWeekMostRecent(sales: seq<Sale>, t: Sale)
    requires t in sales
    requires SaleDay(t) !in BucketKeys(LastWeek(sales))
    ensures forall i :: 0 <= i < |LastWeek(sales)| ==> DateLt(SaleDay(t), LastWeek(sales)[i].key)
  {
    var keys := GroupKeys(sales, SaleDay);
    var all := DayTotals(sales);
    var d := LatestDays(sales);
    var r := LastWeek(sales);
    assert SaleDay(t) in keys;
    var k :| 0 <= k < |keys| && keys[k] == SaleDay(t);
    var b := all[k];
    assert b.key == SaleDay(t);
    ReversedRows(d);
    assert b !in d;
    LatestDaysCut(sales, b);
    forall i | 0 <= i < |r| ensures DateLt(SaleDay(t), r[i].key) {
      assert r[i] in d;
      assert r[i].key in BucketKeys(r);
    }
  }

  // ---------------------------------------------------------------- /api/sales/recent

  /** A row of `/api/sales/recent`: the sale's id, its product's name, quantity, amount and
      time. */
  datatype RecentSale = RecentSale(
    transactionId: int,
    productName: string,
    quantitySold: int,
    totalAmount: int,
    transactionDate: Timestamp)

  function SaleTime(t: Sale): Timestamp {
    t.transactionDate
  }

  function RecentColumns(t: Sale): RecentSale {
    RecentSale(t.transactionId, t.productName, t.quantitySold, t.totalAmount, t.transactionDate)
  }

  /** The query of `/api/sales/recent`: the ten newest sales, newest first. */
  function NewestSales(sales: seq<Sale>): (r: seq<Sale>)
    ensures |r| == Min(10, |sales|)
    ensures forall i, j :: 0 <= i < j < |r| ==> TimestampLe(r[j].transactionDate, r[i].transactionDate)
    ensures multiset(r) <= multiset(sales)
    ensures forall x, y :: x in r && y in multiset(sales) - multiset(r) ==>
      TimestampLe(y.transactionDate, x.transactionDate)
  {
    NewestTop(sales, SaleTime, 10);
    TopN(sales, NewestFirst(SaleTime), 10)
  }

  /** `/api/sales/recent`: the ten newest sales cut down to the selected columns. */
  function RecentSales(sales: seq<Sale>): (r: seq<RecentSale>)
    ensures |r| == Min(10, |sales|)
    ensures forall i, j :: 0 <= i < j < |r| ==> TimestampLe(r[j].transactionDate, r[i].transactionDate)
    ensures forall i :: 0 <= i < |r| ==> r[i] == RecentColumns(NewestSales(sales)[i])
  {
    var top := NewestSales(sales);
    seq(|top|, i requires 0 <= i < |top| => RecentColumns(top[i]))
  }
}
