/** The agricultural-data router (`dashboard.routes.js`): `/crop-trends`, `/price-trends`,
    `/crop-distribution`, `/location-production` and `/weather-impact`.  Each route answers
    `Http.RouterServe(query, f)` with `f` the function below of the same name.  `quantity` and
    `price` are FLOAT columns: they are carried through but their SUM and AVG are not modelled. */
module CropData {
  import opened Options
  import opened Calendar
  import opened Schema
  import opened Sorting
  import opened Grouping
  import opened Http

  // ---------------------------------------------------------------- the shared where clause

  /** The `whereClause` of `/crop-trends` and `/price-trends`: an optional `Op.between` range on
      `date` and an optional equality on `cropType`. */
  datatype CropWhere = CropWhere(date: Option<(Timestamp, Timestamp)>, cropType: Option<string>)

  /** A record passes a where clause: every condition present holds (`BETWEEN` includes both
      ends). */
  predicate Matches(w: CropWhere, a: AgriRecord) {
    && (match w.date
        case None => true
        case Some((lo, hi)) => TimestampLe(lo, a.date) && TimestampLe(a.date, hi))
    && (match w.cropType
        case None => true
        case Some(c) => a.cropType == c)
  }

  function MatchedBy(w: CropWhere): AgriRecord -> bool {
    (a: AgriRecord) => Matches(w, a)
  }

  /** Builds the where clause from the query string: the range only when both dates are given,
      the crop type only when it is given, and a record must satisfy both. */
  method BuildWhere(startDate: Option<DateParam>, endDate: Option<DateParam>, cropType: Option<string>)
    returns (w: CropWhere)
    ensures w.date.Some? <==> Given(startDate) && Given(endDate)
    ensures w.cropType.Some? <==> GivenText(cropType)
    ensures forall a :: Matches(w, a) <==>
      && (Given(startDate) && Given(endDate) ==>
            TimestampLe(startDate.value.instant, a.date) && TimestampLe(a.date, endDate.value.instant))
      && (GivenText(cropType) ==> a.cropType == cropType.value)
  {
    w := CropWhere(None, None);
    if Given(startDate) && Given(endDate) {
      w := w.(date := Some((startDate.value.instant, endDate.value.instant)));
    }
    if GivenText(cropType) {
      w := w.(cropType := Some(cropType.value));
    }
  }

  function RecordDate(a: AgriRecord): Timestamp {
    a.date
  }

  /** The records a where clause selects: all of them (no limit), oldest first. */
  function Selected(records: seq<AgriRecord>, w: CropWhere): (r: seq<AgriRecord>)
    ensures multiset(r) == multiset(Filter(records, MatchedBy(w)))
    ensures forall a :: a in r <==> a in records && Matches(w, a)
    ensures forall i, j :: 0 <= i < j < |r| ==> TimestampLe(r[i].date, r[j].date)
  {
    var kept := Filter(records, MatchedBy(w));
    OldestSorted(kept, RecordDate);
    SortBy(kept, OldestFirst(RecordDate))
  }

  /** A row of `/crop-trends`: the attributes `date`, `quantity` and `cropType`. */
  datatype CropPoint = CropPoint(date: Timestamp, quantity: real, cropType: string)

  /** A row of `/price-trends`: the attributes `date`, `price` and `cropType`. */
  datatype PricePoint = PricePoint(date: Timestamp, price: real, cropType: string)

  /** `/crop-trends`: the selected records, oldest first, cut down to three columns. */
  function CropTrends(records: seq<AgriRecord>, w: CropWhere): (r: seq<CropPoint>)
    ensures |r| == |Selected(records, w)|
    ensures forall i :: 0 <= i < |r| ==>
      var a := Selected(records, w)[i]; r[i] == CropPoint(a.date, a.quantity, a.cropType)
    ensures forall i, j :: 0 <= i < j < |r| ==> TimestampLe(r[i].date, r[j].date)
  {
    var s := Selected(records, w);
    seq(|s|, i requires 0 <= i < |s| => CropPoint(s[i].date, s[i].quantity, s[i].cropType))
  }

  /** `/price-trends`: the records `/crop-trends` selects, by date ascending, with `price` in
      place of `quantity` (how records sharing a date are ordered is left open). */
  function PriceTrends(records: seq<AgriRecord>, w: CropWhere): (r: seq<PricePoint>)
    ensures |r| == |Selected(records, w)|
    ensures forall i :: 0 <= i < |r| ==>
      var a := Selected(records, w)[i]; r[i] == PricePoint(a.date, a.price, a.cropType)
    ensures forall i, j :: 0 <= i < j < |r| ==> TimestampLe(r[i].date, r[j].date)
  {
    var s := Selected(records, w);
    seq(|s|, i requires 0 <= i < |s| => PricePoint(s[i].date, s[i].price, s[i].cropType))
  }

  /** Every record the where clause admits shows up in `/crop-trends`, and nothing else does. */
  lemma CropTrendsRows(records: seq<AgriRecord>, w: CropWhere)
    ensures forall a :: a in records && Matches(w, a) ==>
      CropPoint(a.date, a.quantity, a.cropType) in CropTrends(records, w)
    ensures forall p :: p in CropTrends(records, w) ==>
      exists a :: a in records && Matches(w, a) && p == CropPoint(a.date, a.quantity, a.cropType)
  {
    var s, r := Selected(records, w), CropTrends(records, w);
    forall a | a in records && Matches(w, a) ensures CropPoint(a.date, a.quantity, a.cropType) in r {
      assert a in s;
      var i :| 0 <= i < |s| && s[i] == a;
      assert r[i] == CropPoint(a.date, a.quantity, a.cropType);
    }
    forall p | p in r
      ensures exists a :: a in records && Matches(w, a) && p == CropPoint(a.date, a.quantity, a.cropType)
    {
      var i :| 0 <= i < |r| && r[i] == p;
      assert s[i] in s;
    }
  }

  /** The date and crop type of a trend row, the columns the two trend endpoints share. */
  function CropPair(p: CropPoint): (Timestamp, string) { (p.date, p.cropType) }

  function PricePair(p: PricePoint): (Timestamp, string) { (p.date, p.cropType) }

  function DateCrop(a: AgriRecord): (Timestamp, string) { (a.date, a.cropType) }

  /** The two trend endpoints have as many rows, the same date row by row, and the same
      (date, crop type) pairs up to the order of rows within one date. */
  lemma TrendsAgree(records: seq<AgriRecord>, w: CropWhere)
    ensures |CropTrends(records, w)| == |PriceTrends(records, w)|
    ensures forall i :: 0 <= i < |CropTrends(records, w)| ==>
      CropTrends(records, w)[i].date == PriceTrends(records, w)[i].date
    ensures multiset(Project(CropTrends(records, w), CropPair)) ==
      multiset(Project(PriceTrends(records, w), PricePair))
  {
    var c, p := Project(CropTrends(records, w), CropPair), Project(PriceTrends(records, w), PricePair);
    assert c == p;
  }

  /** The two trend queries are separate, and each is ordered by date alone, so records that
      share a date may come back in a different order from each. Whatever those orders, any two
      date-ascending arrangements of the matching records have the same date row by row and the
      same (date, crop type) pairs. */
  lemma TrendsAgreeAnyTieOrder(records: seq<AgriRecord>, w: CropWhere, s1: seq<AgriRecord>, s2: seq<AgriRecord>)
    requires multiset(s1) == multiset(Filter(records, MatchedBy(w)))
    requires multiset(s2) == multiset(Filter(records, MatchedBy(w)))
    requires forall i, j :: 0 <= i < j < |s1| ==> TimestampLe(s1[i].date, s1[j].date)
    requires forall i, j :: 0 <= i < j < |s2| ==> TimestampLe(s2[i].date, s2[j].date)
    ensures |s1| == |s2|
    ensures forall i :: 0 <= i < |s1| ==> s1[i].date == s2[i].date
    ensures multiset(Project(s1, DateCrop)) == multiset(Project(s2, DateCrop))
  {
    var d1, d2 := Project(s1, RecordDate), Project(s2, RecordDate);
    ProjectMultiset(s1, s2, RecordDate);
    assert Ascending(d1) by {
      forall i, j | 0 <= i < j < |d1| ensures TimestampLe(d1[i], d1[j]) {
        assert TimestampLe(s1[i].date, s1[j].date);
      }
    }
    assert Ascending(d2) by {
      forall i, j | 0 <= i < j < |d2| ensures TimestampLe(d2[i], d2[j]) {
        assert TimestampLe(s2[i].date, s2[j].date);
      }
    }
    AscendingUnique(d1, d2);
    forall i | 0 <= i < |s1| ensures s1[i].date == s2[i].date {
      assert d1[i] == d2[i];
    }
    ProjectMultiset(s1, s2, DateCrop);
  }

  /** Without conditions every record is returned: the selection holds each record exactly as
      often as the table does, and `/crop-trends` has one row per record. */
  lemma CropTrendsUnfiltered(records: seq<AgriRecord>)
    ensures multiset(Selected(records, CropWhere(None, None))) == multiset(records)
    ensures |CropTrends(records, CropWhere(None, None))| == |records|
  {
    var w := CropWhere(None, None);
    FilterAll(records, MatchedBy(w));
    assert |multiset(Selected(records, w))| == |multiset(records)|;
  }

  // ---------------------------------------------------------------- groupings

  function CropType(a: AgriRecord): string {
    a.cropType
  }

  function Location(a: AgriRecord): string {
    a.location
  }

  function Weather(a: AgriRecord): Option<string> {
    a.weatherCondition
  }

  /** The groups of `/crop-distribution`: one per crop type that occurs. */
  function CropDistribution(records: seq<AgriRecord>): (r: seq<string>)
    ensures Distinct(r)
    ensures forall c :: c in r <==> exists a :: a in records && a.cropType == c
  {
    GroupKeys(records, CropType)
  }

  /** The groups of `/location-production`: one per location that occurs. */
  function LocationProduction(records: seq<AgriRecord>): (r: seq<string>)
    ensures Distinct(r)
    ensures forall l :: l in r <==> exists a :: a in records && a.location == l
  {
    GroupKeys(records, Location)
  }

  /** `/weather-impact`: one row per weather condition, NULL (`None`) being a group of its own,
      with the number of its records as `count`. */
  function WeatherImpact(records: seq<AgriRecord>): (r: seq<Tally<Option<string>>>)
    ensures TallyKeys(r) == GroupKeys(records, Weather)
    ensures forall i :: 0 <= i < |r| ==> r[i].count == CountWhere(records, Weather, {r[i].key})
  {
    Tallies(records, Weather, GroupKeys(records, Weather))
  }

  /** One row per condition that occurs, NULL included, each counting its records; the counts
      add up to the number of records. */
  lemma WeatherImpactGroups(records: seq<AgriRecord>)
    ensures var r := WeatherImpact(records);
      && Distinct(TallyKeys(r))
      && (forall c :: c in TallyKeys(r) <==> exists a :: a in records && a.weatherCondition == c)
      && (forall i :: 0 <= i < |r| ==> r[i].count == CountWhere(records, Weather, {r[i].key}))
      && SumTallies(r) == |records|
  {
    TalliesConserve(records, Weather, GroupKeys(records, Weather));
  }

  /** A record without a weather condition is counted in the NULL row. */
  lemma NullWeatherCounted(records: seq<AgriRecord>, a: AgriRecord)
    requires a in records && a.weatherCondition.None?
    ensures exists i ::
      && 0 <= i < |WeatherImpact(records)|
      && WeatherImpact(records)[i].key == None
      && WeatherImpact(records)[i].count > 0
  {
    var r := WeatherImpact(records);
    assert None in TallyKeys(r);
    var i :| 0 <= i < |r| && TallyKeys(r)[i] == None;
    CountPositive(records, Weather, None);
  }
}
