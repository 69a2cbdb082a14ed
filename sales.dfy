/** The sales router: `/trends`, `/top-products` and `/category-sales`.  Each route answers
    `Http.RouterServe(query, f)` with `f` the function below of the same name. */
module Sales {
  import opened Options
  import opened Calendar
  import opened Schema
  import opened Sorting
  import opened Grouping
  import opened Http

  // ---------------------------------------------------------------- /trends

  /** The `whereClause` of `/trends`: no condition, or an `Op.between` range on
      `transactionDate`. */
  datatype SaleWhere = SaleWhere(transactionDate: Option<(Timestamp, Timestamp)>)

  /** A sale passes a where clause; `BETWEEN` includes both ends. */
  predicate Admits(w: SaleWhere, t: Sale) {
    match w.transactionDate
    case None => true
    case Some((lo, hi)) => TimestampLe(lo, t.transactionDate) && TimestampLe(t.transactionDate, hi)
  }

  function AdmittedBy(w: SaleWhere): Sale -> bool {
    (t: Sale) => Admits(w, t)
  }

  /** Builds the where clause: the range is added only when both dates are given. */
  method TrendsWhere(startDate: Option<DateParam>, endDate: Option<DateParam>) returns (w: SaleWhere)
    ensures Given(startDate) && Given(endDate) ==>
      forall t :: Admits(w, t) <==>
        TimestampLe(startDate.value.instant, t.transactionDate) && TimestampLe(t.transactionDate, endDate.value.instant)
    ensures !(Given(startDate) && Given(endDate)) ==> forall t :: Admits(w, t)
  {
    w := SaleWhere(None);
    if Given(startDate) && Given(endDate) {
      w := w.(transactionDate := Some((startDate.value.instant, endDate.value.instant)));
    }
  }

  function QuantitySold(t: Sale): int {
    t.quantitySold
  }

  /** `/trends`: one row per calendar day of the admitted sales, with the day's revenue as `sum`
      and its number of sales as `count`, days ascending. */
  function Trends(sales: seq<Sale>, w: SaleWhere): (r: seq<Bucket<Date>>)
    ensures |r| == |GroupKeys(Filter(sales, AdmittedBy(w)), SaleDay)|
    ensures forall i :: 0 <= i < |r| ==>
      && r[i].count == CountWhere(Filter(sales, AdmittedBy(w)), SaleDay, {r[i].key})
      && r[i].sum == SumWhere(Filter(sales, AdmittedBy(w)), SaleDay, {r[i].key}, Amount)
  {
    var counted := Filter(sales, AdmittedBy(w));
    DateLeIsPreorder();
    Buckets(counted, SaleDay, Amount, SortBy(GroupKeys(counted, SaleDay), DateLe))
  }

  /** One row per date, in strictly ascending order, and exactly the dates on which some
      admitted sale happened. */
  lemma TrendsOnePerDate(sales: seq<Sale>, w: SaleWhere)
    ensures var r := Trends(sales, w);
      && (forall i, j :: 0 <= i < j < |r| ==> DateLt(r[i].key, r[j].key))
      && (forall d :: d in BucketKeys(r) <==> exists t :: t in sales && Admits(w, t) && SaleDay(t) == d)
  {
    var counted := Filter(sales, AdmittedBy(w));
    DateLeIsPreorder();
    var keys := GroupKeys(counted, SaleDay);
    var days := SortBy(keys, DateLe);
    var r := Trends(sales, w);
    DistinctSubMultiset(keys, days);
    forall i, j | 0 <= i < j < |r| ensures DateLt(r[i].key, r[j].key) {
      assert r[i].key == days[i] && r[j].key == days[j];
    }
    forall d ensures d in days <==> d in keys {
      SortKeepsMembers(keys, DateLe, d);
    }
  }

  /** The trend rows account for every admitted sale exactly once: their counts add up to the
      number of admitted sales and their totals to the admitted revenue. */
  lemma TrendsConserve(sales: seq<Sale>, w: SaleWhere)
    ensures SumCounts(Trends(sales, w)) == |Filter(sales, AdmittedBy(w))|
    ensures SumSums(Trends(sales, w)) == Total(Filter(sales, AdmittedBy(w)), Amount)
  {
    var counted := Filter(sales, AdmittedBy(w));
    DateLeIsPreorder();
    var keys := GroupKeys(counted, SaleDay);
    var days := SortBy(keys, DateLe);
    DistinctSubMultiset(keys, days);
    forall t | t in counted ensures SaleDay(t) in days {
      SortKeepsMembers(keys, DateLe, SaleDay(t));
    }
    GroupsConserve(counted, SaleDay, Amount, days);
  }

  /** Under a date range every trend row's date lies between the dates of the two ends. */
  lemma TrendsWithinRange(sales: seq<Sale>, lo: Timestamp, hi: Timestamp)
    ensures var r := Trends(sales, SaleWhere(Some((lo, hi))));
      forall i :: 0 <= i < |r| ==> DateLe(lo.date, r[i].key) && DateLe(r[i].key, hi.date)
  {
    var w := SaleWhere(Some((lo, hi)));
    var r := Trends(sales, w);
    TrendsOnePerDate(sales, w);
    forall i | 0 <= i < |r| ensures DateLe(lo.date, r[i].key) && DateLe(r[i].key, hi.date) {
      assert r[i].key in BucketKeys(r);
      var t :| t in sales && Admits(w, t) && SaleDay(t) == r[i].key;
      CalendarDateMonotonic(lo, t.transactionDate);
      CalendarDateMonotonic(t.transactionDate, hi);
    }
  }

  /** Without a range every sale is counted. */
  lemma TrendsUnfiltered(sales: seq<Sale>)
    ensures SumCounts(Trends(sales, SaleWhere(None))) == |sales|
    ensures SumSums(Trends(sales, SaleWhere(None))) == Total(sales, Amount)
  {
    FilterAll(sales, AdmittedBy(SaleWhere(None)));
    TrendsConserve(sales, SaleWhere(None));
  }

  // ---------------------------------------------------------------- /top-products

  /** A row of `/top-products`: the product, its total quantity sold and its total revenue, with
      the product's name and category joined in. */
  datatype ProductRevenue = ProductRevenue(
    productId: int,
    productName: string,
    category: Option<string>,
    totalQuantity: int,
    totalRevenue: int)

  function SaleProduct(t: Sale): int {
    t.productId
  }

  function RevenueId(g: ProductRevenue): int {
    g.productId
  }

  function Revenue(g: ProductRevenue): int {
    g.totalRevenue
  }

  /** The joined product columns of a product: those of its first sale. */
  function JoinedProduct(sales: seq<Sale>, id: int): (string, Option<string>) {
    if sales == [] then ("", None)
    else if sales[0].productId == id then (sales[0].productName, sales[0].category)
    else JoinedProduct(sales[1..], id)
  }

  /** The grouping of `/top-products`: one row per product sold, with its quantity and revenue
      totals. */
  function ProductTotals(sales: seq<Sale>): (r: seq<ProductRevenue>)
    ensures |r| == |GroupKeys(sales, SaleProduct)|
    ensures forall i :: 0 <= i < |r| ==>
      && r[i].productId == GroupKeys(sales, SaleProduct)[i]
      && r[i].totalQuantity == SumWhere(sales, SaleProduct, {r[i].productId}, QuantitySold)
      && r[i].totalRevenue == SumWhere(sales, SaleProduct, {r[i].productId}, Amount)
  {
    var ids := GroupKeys(sales, SaleProduct);
    seq(|ids|, i requires 0 <= i < |ids| =>
      var joined := JoinedProduct(sales, ids[i]);
      ProductRevenue(ids[i], joined.0, joined.1,
        SumWhere(sales, SaleProduct, {ids[i]}, QuantitySold),
        SumWhere(sales, SaleProduct, {ids[i]}, Amount)))
  }

  /** What "the rows of a product" means for the totals: one row per product sold, carrying
      that product's sums. */
  predicate PerProductTotals(sales: seq<Sale>, r: seq<ProductRevenue>) {
    && DistinctBy(r, RevenueId)
    && (forall g :: g in r ==>
          && (exists t :: t in sales && t.productId == g.productId)
          && g.totalQuantity == SumWhere(sales, SaleProduct, {g.productId}, QuantitySold)
          && g.totalRevenue == SumWhere(sales, SaleProduct, {g.productId}, Amount))
  }

  lemma ProductTotalsPerProduct(sales: seq<Sale>)
    ensures PerProductTotals(sales, ProductTotals(sales))
    ensures forall t :: t in sales ==> exists g :: g in ProductTotals(sales) && g.productId == t.productId
  {
    var ids := GroupKeys(sales, SaleProduct);
    var r := ProductTotals(sales);
    forall g | g in r ensures exists t :: t in sales && t.productId == g.productId {
      var i :| 0 <= i < |r| && r[i] == g;
      assert ids[i] in ids;
    }
    forall t | t in sales ensures exists g :: g in r && g.productId == t.productId {
      assert SaleProduct(t) in ids;
      var i :| 0 <= i < |ids| && ids[i] == t.productId;
      assert r[i] in r;
    }
  }

  /** `/top-products`: the product totals by revenue descending, at most ten. */
  function TopProducts(sales: seq<Sale>): (r: seq<ProductRevenue>)
    ensures |r| <= 10
    ensures multiset(r) <= multiset(ProductTotals(sales))
  {
    ByIntDescIsPreorder(Revenue);
    TopNSub(ProductTotals(sales), ByIntDesc(Revenue), 10);
    TopN(ProductTotals(sales), ByIntDesc(Revenue), 10)
  }

  /** At most ten rows, revenue descending; as many rows as products sold, up to ten. */
  lemma TopProductsOrdered(sales: seq<Sale>)
    ensures var r := TopProducts(sales);
      && |r| == Min(10, |GroupKeys(sales, SaleProduct)|)
      && (forall i, j :: 0 <= i < j < |r| ==> r[i].totalRevenue >= r[j].totalRevenue)
  {
    TopByIntDesc(ProductTotals(sales), Revenue, 10);
  }

  /** Keeping only some of the rows keeps one row per product with that product's sums. */
  lemma PerProductTotalsSub(sales: seq<Sale>, all: seq<ProductRevenue>, r: seq<ProductRevenue>)
    requires PerProductTotals(sales, all)
    requires multiset(r) <= multiset(all)
    ensures PerProductTotals(sales, r)
  {
    DistinctBySubMultiset(all, r, RevenueId);
    forall g | g in r ensures g in all {
      assert g in multiset(r);
    }
  }

  /** One row per product, each with that product's sums. */
  lemma TopProductsPerProduct(sales: seq<Sale>)
    ensures PerProductTotals(sales, TopProducts(sales))
  {
    var all := ProductTotals(sales);
    ProductTotalsPerProduct(sales);
    ByIntDescIsPreorder(Revenue);
    TopNSub(all, ByIntDesc(Revenue), 10);
    PerProductTotalsSub(sales, all, TopProducts(sales));
  }

  /** They are the best sellers: a product sold but not listed earned no more than any listed
      product. */
  lemma TopProductsAreHighest(sales: seq<Sale>, t: Sale)
    requires t in sales
    requires forall g :: g in TopProducts(sales) ==> g.productId != t.productId
    ensures forall g :: g in TopProducts(sales) ==>
      g.totalRevenue >= SumWhere(sales, SaleProduct, {t.productId}, Amount)
  {
    var all := ProductTotals(sales);
    var ids := GroupKeys(sales, SaleProduct);
    assert SaleProduct(t) in ids;
    var i :| 0 <= i < |ids| && ids[i] == t.productId;
    var h := all[i];
    assert h.totalRevenue == SumWhere(sales, SaleProduct, {t.productId}, Amount);
    ByIntDescIsPreorder(Revenue);
    assert TopProducts(sales) == TopN(all, ByIntDesc(Revenue), 10);
    assert h !in TopProducts(sales);
    TopByIntDescCut(all, Revenue, 10, h);
  }

  // ---------------------------------------------------------------- /category-sales

  function SaleCategory(t: Sale): Option<string> {
    t.category
  }

  /** `/category-sales`: one row per product category, NULL being a category of its own, with the
      category's revenue as `sum` and its number of sales as `count` (in no promised order). */
  function CategorySales(sales: seq<Sale>): (r: seq<Bucket<Option<string>>>)
    ensures BucketKeys(r) == GroupKeys(sales, SaleCategory)
    ensures forall i :: 0 <= i < |r| ==>
      && r[i].count == CountWhere(sales, SaleCategory, {r[i].key})
      && r[i].sum == SumWhere(sales, SaleCategory, {r[i].key}, Amount)
  {
    Buckets(sales, SaleCategory, Amount, GroupKeys(sales, SaleCategory))
  }

  /** One row per category that occurs, and the rows split the sales: counts add up to the
      number of sales and sums to the revenue. */
  lemma CategorySalesPartition(sales: seq<Sale>)
    ensures var r := CategorySales(sales);
      && Distinct(BucketKeys(r))
      && (forall c :: c in BucketKeys(r) <==> exists t :: t in sales && t.category == c)
      && SumCounts(r) == |sales|
      && SumSums(r) == Total(sales, Amount)
  {
    var keys := GroupKeys(sales, SaleCategory);
    GroupsConserve(sales, SaleCategory, Amount, keys);
  }
}
