/** The inventory router: `/levels`, `/logs` and `/alerts`.  Each route answers
    `Http.RouterServe(query, f)` with `f` the function below of the same name. */
module Inventory {
  import opened Options
  import opened Calendar
  import opened Schema
  import opened Sorting
  import opened Grouping

  function Category(p: Product): Option<string> {
    p.category
  }

  /** `/levels`: every product with its five columns, by category ascending; products without a
      category come first. */
  function Levels(products: seq<Product>): (r: seq<Product>)
    ensures multiset(r) == multiset(products)
    ensures forall i, j :: 0 <= i < j < |r| ==> NullsFirstLe(r[i].category, r[j].category)
  {
    SortedByNullableString(products, Category);
    SortBy(products, ByNullableString(Category))
  }

  function LogDate(l: InventoryLog): Timestamp {
    l.logDate
  }

  /** `/logs`: the fifty newest logs, newest first. */
  function Logs(logs: seq<InventoryLog>): (r: seq<InventoryLog>)
    ensures |r| == Min(50, |logs|)
    ensures forall i, j :: 0 <= i < j < |r| ==> TimestampLe(r[j].logDate, r[i].logDate)
    ensures multiset(r) <= multiset(logs)
    ensures forall x, y :: x in r && y in multiset(logs) - multiset(r) ==> TimestampLe(y.logDate, x.logDate)
  {
    NewestTop(logs, LogDate, 50);
    TopN(logs, NewestFirst(LogDate), 50)
  }

  /** The alert threshold of `/alerts`. */
  const LowStockThreshold := 10

  /** The SQL comparison `quantityInStock < 10`: a NULL stock compares as unknown, so the row is
      not selected. */
  predicate IsLowStock(p: Product) {
    p.quantityInStock.Some? && p.quantityInStock.value < LowStockThreshold
  }

  /** `/alerts`: the products whose stock is below the threshold, the same five columns, in table
      order. */
  function Alerts(products: seq<Product>): (r: seq<Product>)
    ensures forall p :: p in r <==> p in products && p.quantityInStock.Some? && p.quantityInStock.value < 10
    ensures multiset(r) <= multiset(products)
  {
    Filter(products, IsLowStock)
  }

  /** A product holding exactly the threshold is not an alert, one unit fewer is, and a product
      whose stock is NULL never is. */
  lemma AlertsBoundary(p: Product)
    ensures p.quantityInStock == Some(10) ==> Alerts([p]) == []
    ensures p.quantityInStock == Some(9) ==> Alerts([p]) == [p]
    ensures p.quantityInStock == None ==> Alerts([p]) == []
  {
    assert [p][1..] == [];
  }

  /** Alerts are rows of `/levels`: the same projection, and every alert product is listed there
      as often as it is alerted. */
  lemma AlertsAmongLevels(products: seq<Product>)
    ensures multiset(Alerts(products)) <= multiset(Levels(products))
    ensures forall p :: p in Alerts(products) ==> p in Levels(products)
  {
    var a, l := Alerts(products), Levels(products);
    forall p | p in a ensures p in l {
      assert p in multiset(a);
      assert p in multiset(l);
    }
  }
}
