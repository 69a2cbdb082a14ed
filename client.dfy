/** The dashboard component (`Dashboard.js`): its state, the sequential `fetchData` chain and
    the pure builders that turn the state into chart and table data.  HTTP requests are
    outcomes given by a function of the URL; React's rendering, Chart.js and the markup are not
    modelled.  Locale date formatting (`toLocaleDateString`) is a parameter. */
module Client {
  import opened Options
  import opened Sorting
  import opened Grouping

  /** A JSON value as the component sees it, with JavaScript's `undefined` for a missing
      property. */
  datatype Json =
    | JNull
    | JBool(b: bool)
    | JNum(n: int)
    | JStr(s: string)
    | JArr(items: seq<Json>)
    | JObj(fields: map<string, Json>)
    | JUndefined

  /** `j.k`: the property if `j` is an object that has it, `undefined` otherwise. */
  function Field(j: Json, k: string): Json {
    if j.JObj? && k in j.fields then j.fields[k] else JUndefined
  }

  /** The settled promise of one `axios.get`. */
  datatype Outcome = Resolved(data: Json) | Rejected(reason: string)

  // ---------------------------------------------------------------- fetchData

  /** The requests of `fetchData`, in the order they are awaited. */
  const Urls: seq<string> := [
    "/api/sales/trends",
    "/api/inventory/levels",
    "/api/deliveries/status",
    "/api/sales/top-products",
    "/api/sales/by-category",
    "/api/inventory/logs",
    "/api/deliveries/routes",
    "/api/dashboard/stats"]

  /** The same chain with the category request aimed at the sales router's `/category-sales`. */
  const FixedUrls: seq<string> := Urls[4 := "/api/sales/category-sales"]

  /** The one message `fetchData` shows, whichever request failed. */
  const ErrorMessage := "Failed to load dashboard data. Please try again later."

  /** The position of the first request that is rejected, or the number of requests when none
      is. */
  function FirstRejected(urls: seq<string>, server: string -> Outcome): (r: nat)
    ensures r <= |urls|
    ensures forall k :: 0 <= k < r ==> server(urls[k]).Resolved?
    ensures r < |urls| ==> server(urls[r]).Rejected?
  {
    RejectedFrom(urls, server, 0)
  }

  function RejectedFrom(urls: seq<string>, server: string -> Outcome, from: nat): (r: nat)
    requires from <= |urls|
    ensures from <= r <= |urls|
    ensures forall k :: from <= k < r ==> server(urls[k]).Resolved?
    ensures r < |urls| ==> server(urls[r]).Rejected?
    decreases |urls| - from
  {
    if from == |urls| then from
    else if server(urls[from]).Rejected? then from
    else RejectedFrom(urls, server, from + 1)
  }

  /** The first rejection is where every earlier request resolved and this one did not. */
  lemma FirstRejectedAt(urls: seq<string>, server: string -> Outcome, i: nat)
    requires i <= |urls|
    requires forall k :: 0 <= k < i ==> server(urls[k]).Resolved?
    requires i < |urls| ==> server(urls[i]).Rejected?
    ensures FirstRejected(urls, server) == i
  {
    RejectedFromAt(urls, server, 0, i);
  }

  lemma {:induction false} RejectedFromAt(urls: seq<string>, server: string -> Outcome, from: nat, i: nat)
    requires from <= i <= |urls|
    requires forall k :: from <= k < i ==> server(urls[k]).Resolved?
    requires i < |urls| ==> server(urls[i]).Rejected?
    ensures RejectedFrom(urls, server, from) == i
    decreases i - from
  {
    if from < i {
      assert server(urls[from]).Resolved?;
      RejectedFromAt(urls, server, from + 1, i);
    }
  }

  /** The six state slots after the chain: the slot of every request before the first rejection
      holds that request's data, the others keep what they held. */
  function Settled(before: seq<Json>, urls: seq<string>, server: string -> Outcome): (r: seq<Json>)
    requires |before| == 6 && |urls| == 8
    ensures |r| == 6
    ensures forall k :: 0 <= k < 6 ==>
      r[k] == (if k < FirstRejected(urls, server) then server(urls[k]).data else before[k])
  {
    var stop := FirstRejected(urls, server);
    seq(6, k requires 0 <= k < 6 => if k < stop then server(urls[k]).data else before[k])
  }

  class Dashboard {
    var salesTrends: Json
    var inventoryLevels: Json
    var deliveryStatus: Json
    var topProducts: Json
    var categorySales: Json
    var inventoryLogs: Json
    var error: Option<string>

    /** The six data slots, in the order the requests fill them. */
    function Slots(): (r: seq<Json>)
      reads this
      ensures |r| == 6
    {
      [salesTrends, inventoryLevels, deliveryStatus, topProducts, categorySales, inventoryLogs]
    }

    /** `useState([])` six times and `useState(null)`. */
    constructor()
      ensures Slots() == [JArr([]), JArr([]), JArr([]), JArr([]), JArr([]), JArr([])]
      ensures error == None
    {
      salesTrends := JArr([]);
      inventoryLevels := JArr([]);
      deliveryStatus := JArr([]);
      topProducts := JArr([]);
      categorySales := JArr([]);
      inventoryLogs := JArr([]);
      error := None;
    }

    /** The setter called with the data of request `i`; the last two responses are dropped. */
    method Store(i: nat, data: Json)
      modifies this
      ensures i < 6 ==> Slots() == old(Slots())[i := data]
      ensures i >= 6 ==> Slots() == old(Slots())
      ensures error == old(error)
    {
      if i == 0 {
        salesTrends := data;
      } else if i == 1 {
        inventoryLevels := data;
      } else if i == 2 {
        deliveryStatus := data;
      } else if i == 3 {
        topProducts := data;
      } else if i == 4 {
        categorySales := data;
      } else if i == 5 {
        inventoryLogs := data;
      }
    }

    /** Awaits the requests one after the other inside one `try`: each resolved response is
        stored before the next request is issued, and the first rejection skips the rest and
        sets the error message.  Returns the URLs requested, in order. */
    method Fetch(urls: seq<string>, server: string -> Outcome) returns (issued: seq<string>)
      requires |urls| == 8
      modifies this
      ensures issued == urls[..Min(FirstRejected(urls, server) + 1, |urls|)]
      ensures Slots() == Settled(old(Slots()), urls, server)
      ensures error == (if FirstRejected(urls, server) < |urls| then Some(ErrorMessage) else old(error))
    {
      issued := [];
      var i := 0;
      while i < |urls|
        invariant 0 <= i <= |urls|
        invariant issued == urls[..i]
        invariant forall k :: 0 <= k < i ==> server(urls[k]).Resolved?
        invariant forall k :: 0 <= k < 6 ==>
          Slots()[k] == (if k < i then server(urls[k]).data else old(Slots())[k])
        invariant error == old(error)
      {
        var outcome := server(urls[i]);
        issued := issued + [urls[i]];
        assert issued == urls[..i + 1];
        if outcome.Rejected? {
          error := Some(ErrorMessage);
          FirstRejectedAt(urls, server, i);
          return;
        }
        Store(i, outcome.data);
        i := i + 1;
      }
      FirstRejectedAt(urls, server, i);
    }

    /** `fetchData` as written. */
    method FetchData(server: string -> Outcome) returns (issued: seq<string>)
      modifies this
      ensures issued == Urls[..Min(FirstRejected(Urls, server) + 1, 8)]
      ensures Slots() == Settled(old(Slots()), Urls, server)
      ensures error == (if FirstRejected(Urls, server) < 8 then Some(ErrorMessage) else old(error))
    {
      issued := Fetch(Urls, server);
    }

    /** `fetchData` with the category URL corrected. */
    method FetchDataFixed(server: string -> Outcome) returns (issued: seq<string>)
      modifies this
      ensures issued == FixedUrls[..Min(FirstRejected(FixedUrls, server) + 1, 8)]
      ensures Slots() == Settled(old(Slots()), FixedUrls, server)
      ensures error == (if FirstRejected(FixedUrls, server) < 8 then Some(ErrorMessage) else old(error))
    {
      issued := Fetch(FixedUrls, server);
    }
  }

  /** Requests strictly follow one another: the chain asks for a prefix of its URLs, stops right
      after the first rejection, and asks for nothing after it. */
  lemma ChainStopsAtFirstRejection(urls: seq<string>, server: string -> Outcome, k: nat)
    requires k < |urls| && server(urls[k]).Rejected?
    ensures FirstRejected(urls, server) <= k
    ensures |urls[..Min(FirstRejected(urls, server) + 1, |urls|)]| <= k + 1
  {
  }

  // ---------------------------------------------------------------- the test's mock server

  function Obj2(k1: string, v1: Json, k2: string, v2: Json): Json {
    JObj(map[k1 := v1, k2 := v2])
  }

  function Named(k: string, v: string): Json {
    JObj(map[k := JStr(v)])
  }

  const MockSalesTrends := JArr([
    Obj2("date", JStr("2024-01-01"), "totalSales", JNum(1000)),
    Obj2("date", JStr("2024-01-02"), "totalSales", JNum(1500))])
  const MockInventoryLevels := JArr([
    Obj2("productName", JStr("Rice"), "quantityInStock", JNum(100)),
    Obj2("productName", JStr("Corn"), "quantityInStock", JNum(200))])
  const MockDeliveryStatus := JArr([
    Named("deliveryStatus", "Pending"), Named("deliveryStatus", "In Transit"), Named("deliveryStatus", "Delivered")])
  const MockTopProducts := JArr([
    Obj2("Product", Named("productName", "Rice"), "totalRevenue", JNum(5000)),
    Obj2("Product", Named("productName", "Corn"), "totalRevenue", JNum(3000))])
  const MockCategorySales := JArr([
    Obj2("Product", Named("category", "Grains"), "totalSales", JNum(8000)),
    Obj2("Product", Named("category", "Vegetables"), "totalSales", JNum(5000))])
  const MockLog := JObj(map[
    "Product" := Named("productName", "Rice"),
    "actionType" := JStr("add"),
    "quantity" := JNum(50),
    "logDate" := JStr("2024-01-01")])
  const MockInventoryLogs := JArr([MockLog])

  /** The six endpoints the mock serves. */
  const MockUrls: set<string> := {"/api/sales/trends", "/api/inventory/levels", "/api/deliveries/status",
    "/api/sales/top-products", "/api/sales/category-sales", "/api/inventory/logs"}

  /** The component test's `axios.get` mock: six URLs resolve, every other one is rejected. */
  function MockServer(url: string): (r: Outcome)
    ensures r.Resolved? <==> url in MockUrls
    ensures r.Rejected? ==> r.reason == "Not found"
  {
    if url == "/api/sales/trends" then Resolved(MockSalesTrends)
    else if url == "/api/inventory/levels" then Resolved(MockInventoryLevels)
    else if url == "/api/deliveries/status" then Resolved(MockDeliveryStatus)
    else if url == "/api/sales/top-products" then Resolved(MockTopProducts)
    else if url == "/api/sales/category-sales" then Resolved(MockCategorySales)
    else if url == "/api/inventory/logs" then Resolved(MockInventoryLogs)
    else Rejected("Not found")
  }

  /** What the mock answers to each request of the two chains, up to the first rejection. */
  lemma MockAnswers()
    ensures MockServer(Urls[0]) == Resolved(MockSalesTrends)
    ensures MockServer(Urls[1]) == Resolved(MockInventoryLevels)
    ensures MockServer(Urls[2]) == Resolved(MockDeliveryStatus)
    ensures MockServer(Urls[3]) == Resolved(MockTopProducts)
    ensures MockServer(Urls[4]).Rejected?
    ensures MockServer(FixedUrls[4]) == Resolved(MockCategorySales)
    ensures MockServer(FixedUrls[5]) == Resolved(MockInventoryLogs)
    ensures MockServer(FixedUrls[6]).Rejected?
  {
    assert FixedUrls[..4] == Urls[..4] && FixedUrls[5..] == Urls[5..];
  }

  /** Under the mock the as-written chain stops at the category request: the category and
      log slots stay empty and the error is shown. */
  method MockedFetch() returns (d: Dashboard, issued: seq<string>)
    ensures issued == Urls[..5]
    ensures d.salesTrends == MockSalesTrends && d.inventoryLevels == MockInventoryLevels
    ensures d.deliveryStatus == MockDeliveryStatus && d.topProducts == MockTopProducts
    ensures d.categorySales == JArr([]) && d.inventoryLogs == JArr([])
    ensures d.error == Some(ErrorMessage)
  {
    MockAnswers();
    FirstRejectedAt(Urls, MockServer, 4);
    d := new Dashboard();
    ghost var before := d.Slots();
    issued := d.FetchData(MockServer);
    assert d.Slots() == Settled(before, Urls, MockServer);
  }

  /** With the corrected URL the mock fills all six slots, and the activity table shows the
      mocked log; the unmocked routes request still sets the error. */
  method MockedFetchFixed() returns (d: Dashboard, issued: seq<string>)
    ensures issued == FixedUrls[..7]
    ensures d.categorySales == MockCategorySales && d.inventoryLogs == MockInventoryLogs
    ensures d.error == Some(ErrorMessage)
  {
    MockAnswers();
    assert forall k :: 0 <= k < 4 ==> FixedUrls[k] == Urls[k];
    FirstRejectedAt(FixedUrls, MockServer, 6);
    d := new Dashboard();
    ghost var before := d.Slots();
    issued := d.FetchDataFixed(MockServer);
    assert d.Slots() == Settled(before, FixedUrls, MockServer);
    assert d.Slots()[4] == MockCategorySales && d.Slots()[5] == MockInventoryLogs;
  }

  /** The mocked log, once fetched, is the activity table's only row: product `Rice`, action
      `add`, quantity 50. */
  lemma MockActivity(format: Json -> Json)
    ensures ActivityTable(MockInventoryLogs.items, format) ==
      [ActivityRow(JStr("Rice"), JStr("add"), JNum(50), format(JStr("2024-01-01")))]
  {
    var t := ActivityTable(MockInventoryLogs.items, format);
    assert |t| == 1;
    assert Field(MockLog, "Product") == Named("productName", "Rice");
  }

  // ---------------------------------------------------------------- chart and table builders

  /** A chart's `labels` and its dataset's `data`. */
  datatype Chart = Chart(labels: seq<Json>, data: seq<Json>)

  /** `{ labels: items.map(labelOf), datasets: [{ data: items.map(valueOf) }] }`: both arrays as
      long as the items, entry i of each taken from item i. */
  function Columns(items: seq<Json>, labelOf: Json -> Json, valueOf: Json -> Json): (c: Chart)
    ensures |c.labels| == |items| && |c.data| == |items|
    ensures forall i :: 0 <= i < |items| ==> c.labels[i] == labelOf(items[i]) && c.data[i] == valueOf(items[i])
  {
    Chart(seq(|items|, i requires 0 <= i < |items| => labelOf(items[i])),
          seq(|items|, i requires 0 <= i < |items| => valueOf(items[i])))
  }

  /** `salesTrendsData`: each row's date, formatted, against its `totalSales`. */
  function SalesTrendsData(items: seq<Json>, format: Json -> Json): (c: Chart)
    ensures |c.labels| == |items| && |c.data| == |items|
    ensures forall i :: 0 <= i < |items| ==>
      c.labels[i] == format(Field(items[i], "date")) && c.data[i] == Field(items[i], "totalSales")
  {
    Columns(items, (item: Json) => format(Field(item, "date")), (item: Json) => Field(item, "totalSales"))
  }

  /** `inventoryLevelsData`: each product's name against its stock. */
  function InventoryLevelsData(items: seq<Json>): (c: Chart)
    ensures |c.labels| == |items| && |c.data| == |items|
    ensures forall i :: 0 <= i < |items| ==>
      c.labels[i] == Field(items[i], "productName") && c.data[i] == Field(items[i], "quantityInStock")
  {
    Columns(items, (item: Json) => Field(item, "productName"), (item: Json) => Field(item, "quantityInStock"))
  }

  /** `topProductsData`: each row's joined product name against its revenue. */
  function TopProductsData(items: seq<Json>): (c: Chart)
    ensures |c.labels| == |items| && |c.data| == |items|
    ensures forall i :: 0 <= i < |items| ==>
      c.labels[i] == Field(Field(items[i], "Product"), "productName") && c.data[i] == Field(items[i], "totalRevenue")
  {
    Columns(items, (item: Json) => Field(Field(item, "Product"), "productName"), (item: Json) => Field(item, "totalRevenue"))
  }

  /** `categorySalesData`: each row's joined category against its total. */
  function CategorySalesData(items: seq<Json>): (c: Chart)
    ensures |c.labels| == |items| && |c.data| == |items|
    ensures forall i :: 0 <= i < |items| ==>
      c.labels[i] == Field(Field(items[i], "Product"), "category") && c.data[i] == Field(items[i], "totalSales")
  {
    Columns(items, (item: Json) => Field(Field(item, "Product"), "category"), (item: Json) => Field(item, "totalSales"))
  }

  // ---------------------------------------------------------------- the delivery doughnut

  const DeliveryLabels: seq<string> := ["Pending", "In Transit", "Delivered"]

  /** The doughnut: three fixed labels and one count per label. */
  datatype DeliveryChart = DeliveryChart(labels: seq<string>, data: seq<nat>)

  function StatusOf(d: Json): Json {
    Field(d, "deliveryStatus")
  }

  /** `d => d.deliveryStatus === s`. */
  function StatusIs(s: string): Json -> bool {
    (d: Json) => StatusOf(d) == JStr(s)
  }

  /** `deliveryStatusData`: `deliveryStatus.filter(d => d.deliveryStatus === s).length` for the
      three labels, in order. */
  function DeliveryStatusData(items: seq<Json>): (c: DeliveryChart)
    ensures c.labels == DeliveryLabels && |c.data| == 3
  {
    DeliveryChart(DeliveryLabels,
      [|Filter(items, StatusIs("Pending"))|, |Filter(items, StatusIs("In Transit"))|, |Filter(items, StatusIs("Delivered"))|])
  }

  /** A filter's length is the number of rows carrying that exact status. */
  lemma {:induction false} FilterLengthCounts(items: seq<Json>, s: string)
    ensures |Filter(items, StatusIs(s))| == CountWhere(items, StatusOf, {JStr(s)})
  {
    if items != [] {
      FilterLengthCounts(items[1..], s);
    }
  }

  /** Each value of the doughnut is the number of rows whose status is its label. */
  lemma DeliveryDataCounts(items: seq<Json>)
    ensures forall k :: 0 <= k < 3 ==>
      DeliveryStatusData(items).data[k] == CountWhere(items, StatusOf, {JStr(DeliveryLabels[k])})
  {
    var d := DeliveryStatusData(items).data;
    forall k | 0 <= k < 3 ensures d[k] == CountWhere(items, StatusOf, {JStr(DeliveryLabels[k])}) {
      if k == 0 {
        FilterLengthCounts(items, "Pending");
      } else if k == 1 {
        FilterLengthCounts(items, "In Transit");
      } else {
        FilterLengthCounts(items, "Delivered");
      }
    }
  }

  /** The three values add up to at most the number of rows, and to exactly that number when
      every row has one of the three statuses. */
  lemma DeliveryDataBounded(items: seq<Json>)
    ensures var d := DeliveryStatusData(items).data;
      && d[0] + d[1] + d[2] <= |items|
      && ((forall x :: x in items ==> StatusOf(x) in {JStr("Pending"), JStr("In Transit"), JStr("Delivered")}) ==>
            d[0] + d[1] + d[2] == |items|)
  {
    DeliveryDataCounts(items);
    ThreeCounts(items, StatusOf, JStr("Pending"), JStr("In Transit"), JStr("Delivered"));
  }

  /** A row with any other status is counted nowhere. */
  lemma OtherStatusUncounted(x: Json, items: seq<Json>)
    requires StatusOf(x) != JStr("Pending") && StatusOf(x) != JStr("In Transit") && StatusOf(x) != JStr("Delivered")
    ensures DeliveryStatusData([x] + items) == DeliveryStatusData(items)
  {
    assert ([x] + items)[1..] == items;
  }

  // ---------------------------------------------------------------- the activity table

  /** A row of the activity table: product, action, quantity and formatted date. */
  datatype ActivityRow = ActivityRow(product: Json, action: Json, quantity: Json, date: Json)

  /** One table row: the log's product name, action, quantity and formatted date; a missing
      field shows as `undefined`. */
  function ActivityOf(log: Json, format: Json -> Json): ActivityRow {
    ActivityRow(Field(Field(log, "Product"), "productName"), Field(log, "actionType"),
      Field(log, "quantity"), format(Field(log, "logDate")))
  }

  /** The test's one log becomes the row `Rice | add | 50 | <formatted date>`. */
  lemma MockLogActivity(format: Json -> Json)
    ensures ActivityOf(MockLog, format) ==
      ActivityRow(JStr("Rice"), JStr("add"), JNum(50), format(JStr("2024-01-01")))
  {
  }

  /** `inventoryLogs.slice(0, 5).map(...)`: the first five logs at most, in fetched order. */
  function ActivityTable(logs: seq<Json>, format: Json -> Json): (r: seq<ActivityRow>)
    ensures |r| == Min(5, |logs|)
    ensures forall i :: 0 <= i < |r| ==> r[i] == ActivityOf(logs[i], format)
  {
    var shown := Prefix(logs, 5);
    seq(|shown|, i requires 0 <= i < |shown| => ActivityOf(shown[i], format))
  }
}
