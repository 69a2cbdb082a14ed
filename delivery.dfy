/** The delivery router: `/status`, `/routes` and `/stats`. */
module Delivery {
  import opened Calendar
  import opened Schema
  import opened Sorting
  import opened Grouping
  import opened Http

  function DeliveryDate(d: DeliveryRecord): Timestamp {
    d.deliveryDate
  }

  /** `/status`: every delivery record, newest `deliveryDate` first.  No filter, no limit and no
      counting: the records themselves are the response. */
  function Status(records: seq<DeliveryRecord>): (r: seq<DeliveryRecord>)
    ensures multiset(r) == multiset(records)
    ensures |r| == |records|
    ensures forall i, j :: 0 <= i < j < |r| ==> TimestampLe(r[j].deliveryDate, r[i].deliveryDate)
  {
    NewestSorted(records, DeliveryDate);
    SortBy(records, NewestFirst(DeliveryDate))
  }

  function RouteDelivery(r: DeliveryRoute): int {
    r.deliveryId
  }

  /** `/routes`: every route, the highest delivery id first. */
  function Routes(routes: seq<DeliveryRoute>): (r: seq<DeliveryRoute>)
    ensures multiset(r) == multiset(routes)
    ensures |r| == |routes|
    ensures forall i, j :: 0 <= i < j < |r| ==> r[i].deliveryId >= r[j].deliveryId
  {
    SortedByIntDesc(routes, RouteDelivery);
    SortBy(routes, ByIntDesc(RouteDelivery))
  }

  // ---------------------------------------------------------------- /stats

  /** The names bound at the top of `delivery.routes.js`: the two requires and the destructured
      models and operators.  `sequelize` is not among them. */
  const RouterScope: set<string> := {"express", "router", "DeliveryRecord", "SalesTransaction", "User", "DeliveryRoute", "Op"}

  /** The message of the `ReferenceError` raised by reading an unbound name. */
  function NotDefined(name: string): string {
    name + " is not defined"
  }

  function DeliveryStatus(d: DeliveryRecord): string {
    d.deliveryStatus
  }

  /** The grouping of `/stats`: one row per delivery status that occurs, with the number of
      deliveries in it. */
  function StatusCounts(records: seq<DeliveryRecord>): (r: seq<Tally<string>>)
    ensures TallyKeys(r) == GroupKeys(records, DeliveryStatus)
    ensures forall i :: 0 <= i < |r| ==> r[i].count == CountWhere(records, DeliveryStatus, {r[i].key})
  {
    Tallies(records, DeliveryStatus, GroupKeys(records, DeliveryStatus))
  }

  /** `/stats` evaluated with the given names in scope.  Building the `findAll` options reads
      `sequelize.fn` before any query is issued; when the name is unbound the `ReferenceError`
      is raised inside the `try` and becomes a 500 carrying its message. */
  function StatsIn(scope: set<string>, q: Query<seq<DeliveryRecord>>): (r: Reply<seq<Tally<string>>>)
    ensures "sequelize" !in scope ==> r == ServerError(500, Message(NotDefined("sequelize")))
    ensures "sequelize" in scope ==> (r.Ok? <==> q.Rows?)
    ensures "sequelize" in scope && q.Rows? ==> r.body == StatusCounts(q.rows)
    ensures "sequelize" in scope && q.Failed? ==> r == ServerError(500, Message(q.message))
  {
    if "sequelize" !in scope then ServerError(500, Message(NotDefined("sequelize")))
    else RouterServe(q, StatusCounts)
  }

  /** None of the router's bindings is named `sequelize`. */
  lemma SequelizeUnbound()
    ensures "sequelize" !in RouterScope
    ensures NotDefined("sequelize") == "sequelize is not defined"
  {
  }

  /** `/stats` as written: it answers 500 whatever the database holds. */
  function Stats(q: Query<seq<DeliveryRecord>>): (r: Reply<seq<Tally<string>>>)
    ensures r.ServerError? && r.status == 500
    ensures r.error == Message("sequelize is not defined")
  {
    SequelizeUnbound();
    StatsIn(RouterScope, q)
  }

  /** `/stats` with `const sequelize = require('../config/database')` added, as the inventory
      router has it. */
  function StatsWithImport(q: Query<seq<DeliveryRecord>>): (r: Reply<seq<Tally<string>>>)
    ensures q.Rows? ==> r == Ok(StatusCounts(q.rows))
    ensures q.Failed? ==> r == ServerError(500, Message(q.message))
  {
    StatsIn(RouterScope + {"sequelize"}, q)
  }

  /** With the import, `/stats` reports one row per status that occurs, each with the number of
      records in that status, and the counts add up to the number of records. */
  lemma StatsWithImportCounts(records: seq<DeliveryRecord>)
    ensures StatsWithImport(Rows(records)).Ok?
    ensures var r := StatsWithImport(Rows(records)).body;
      && Distinct(TallyKeys(r))
      && (forall s :: s in TallyKeys(r) <==> exists d :: d in records && d.deliveryStatus == s)
      && (forall i :: 0 <= i < |r| ==> r[i].count == CountWhere(records, DeliveryStatus, {r[i].key}))
      && SumTallies(r) == |records|
  {
    var keys := GroupKeys(records, DeliveryStatus);
    TalliesConserve(records, DeliveryStatus, keys);
  }
}
