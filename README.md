# Agricultural dashboard: a verified model of its reporting logic

The system is a small agricultural sales dashboard. It has three parts:

- an Express backend whose routers turn one SQL aggregation each into JSON (sales trends, top
  products, sales per category, inventory levels, logs and low-stock alerts, delivery records,
  routes and statistics, and crop/price/weather reports);
- a standalone server `app.js` that reshapes a few query results in process;
- a React component `Dashboard.js` that fetches the endpoints one after the other and turns the
  responses into chart and table data.

The model makes every query a pure function over sequences of row records:

- `WHERE` is a filter.
- `GROUP BY` is the sequence of distinct keys, with `COUNT` and `SUM` per key.
- `ORDER BY` is a sort by a total preorder, specified only as sorted and a permutation, so that
  no statement depends on how the database orders ties.
- `LIMIT` is a prefix of the sorted rows.

Code that changes state step by step is imperative Dafny:

- the where-clause builders are methods with conditional assignments;
- the `statusMap` fold of `app.js` is a loop over the rows that updates a map;
- `rows.reverse()` is an in-place reversal of an array;
- the component is a class whose fields are its React state, and `fetchData` is a loop over
  the requests.

The files are:

- `options.dfy`: the `Option` type.
- `sorting.dfy`: ORDER BY and LIMIT: insertion sort, prefix, the top-n specification, string
  order.
- `grouping.dfy`: WHERE and GROUP BY: filter, group keys, per-key counts and sums, grouping
  conservation.
- `calendar.dfy`: dates, timestamps and their orders, and the `M/D/YYYY` label with its round
  trip.
- `http.dfy`: query outcomes and the two error envelopes.
- `schema.dfy`: the row records.
- `sales.dfy`, `inventory.dfy`, `delivery.dfy`, `cropdata.dfy`: the four backend routers.
- `server.dfy`: `app.js`.
- `client.dfy`: `Dashboard.js`.

Dates and times are modelled as follows:

- A DATETIME value is a calendar date plus the second of the day.
- SQL `DATE()` keeps the date.
- Currency columns are integers (cents).
- `unitPrice` is bounded to the range of `DECIMAL(10, 2)`.

Three things the code does that a reader might not expect:

- `fetchData` awaits its requests strictly one after another inside a single `try`. It does not
  fetch concurrently with failures kept apart. The first rejection skips every later request.
- The `M/D/YYYY` label exists only in `app.js`. The component formats dates with
  `toLocaleDateString`, which the model takes as a parameter.
- The three delivery counts add up to the number of records only when every record has one of
  the three canonical statuses. Otherwise they add up to less.

## Model

| member | source | states |
|---|---|---|
| `Sorting.SortBy` | backend/src/routes/inventory.routes.js:18 | an ORDER BY returns a permutation of its rows, sorted by the order |
| `Sorting.TopNSpec` | backend/src/routes/inventory.routes.js:41-42 | ORDER BY then LIMIT n: min(n, rows) rows, sorted, taken from the input, and every row cut is preceded by every row kept |
| `Grouping.GroupKeys` | backend/src/routes/sales.routes.js:26 | the GROUP BY keys are distinct, and a key is listed exactly when some row carries it |
| `Grouping.BucketsPartition` | backend/src/routes/sales.routes.js:23-26 | over distinct keys, the per-key counts and sums add up to the count and sum over all those keys |
| `Grouping.GroupsConserve` | backend/src/routes/sales.routes.js:64-72 | a complete GROUP BY accounts for every row once: the counts add up to the number of rows and the sums to the grand total |
| `Grouping.TalliesConserve` | backend/src/routes/dashboard.routes.js:104-106 | the COUNT of a complete count-only GROUP BY adds up to the number of rows |
| `Http.RouterServe` | backend/src/routes/sales.routes.js:29-33 | a router answers 200 with the function of the rows exactly when the query succeeds; otherwise it answers 500 with `{ message }` holding the error's message |
| `Http.ServerServe` | app.js:54-56 | a handler of the standalone server answers 200 with the function of the rows exactly when the query succeeds; otherwise it answers 500 with `{ error: 'Database error', details }` |
| `Sales.Trends` | backend/src/routes/sales.routes.js:19-28 | as many rows as there are distinct days among the admitted sales, and each row's count and sum are the number and total amount of the admitted sales on its day |
| `Sales.TrendsWhere` | backend/src/routes/sales.routes.js:10-17 | when both dates are given (non-empty), a sale is admitted exactly when start ≤ its time ≤ end, both ends included; with either one missing, every sale is admitted |
| `Sales.TrendsOnePerDate` | backend/src/routes/sales.routes.js:22-27 | one trend row per date, dates strictly ascending, and a date is listed exactly when an admitted sale happened on it |
| `Sales.TrendsConserve` | backend/src/routes/sales.routes.js:23-26 | the row counts add up to the number of admitted sales and the row sums to their total amount |
| `Sales.TrendsWithinRange` | backend/src/routes/sales.routes.js:13-16 | under a range, every row's date lies between the dates of the two ends |
| `Sales.TrendsUnfiltered` | backend/src/routes/sales.routes.js:11-20 | without a range every sale is counted and summed |
| `Sales.ProductTotals` | backend/src/routes/sales.routes.js:40-49 | one row per product id sold, with that product's SUM of quantity and SUM of amount |
| `Sales.ProductTotalsPerProduct` | backend/src/routes/sales.routes.js:41-49 | product ids are distinct, each row belongs to a product that was sold and carries its sums, and every product sold has a row |
| `Sales.TopProducts` | backend/src/routes/sales.routes.js:39-52 | at most ten rows, all taken from the per-product total rows, no row more often than it occurs there |
| `Sales.TopProductsOrdered` | backend/src/routes/sales.routes.js:50-51 | min(10, products sold) rows, revenue descending |
| `Sales.TopProductsPerProduct` | backend/src/routes/sales.routes.js:42-49 | the top rows keep one row per product with that product's sums |
| `Sales.TopProductsAreHighest` | backend/src/routes/sales.routes.js:50-51 | a product sold but not listed earned no more revenue than any listed product |
| `Sales.CategorySales` | backend/src/routes/sales.routes.js:63-73 | the row keys are the distinct categories of the sales (NULL a category of its own), and each row's count and sum are the number and total amount of that category's sales |
| `Sales.CategorySalesPartition` | backend/src/routes/sales.routes.js:63-72 | one row per category that occurs, NULL included; counts add up to the number of sales and sums to the total amount |
| `Inventory.Levels` | backend/src/routes/inventory.routes.js:10-18 | every product exactly as often as in the table, sorted by category ascending, products with a NULL category first |
| `Inventory.Logs` | backend/src/routes/inventory.routes.js:30-42 | min(50, logs) logs, newest first, taken from the table, and no log left out is newer than a log kept |
| `Inventory.Alerts` | backend/src/routes/inventory.routes.js:54-59 | a product is an alert exactly when it is in the table with a stock that is not NULL and below 10 |
| `Inventory.AlertsBoundary` | backend/src/routes/inventory.routes.js:57 | stock 10 gives no alert, stock 9 does, and a NULL stock never does |
| `Inventory.AlertsAmongLevels` | backend/src/routes/inventory.routes.js:60-66 | the alerts are a sub-multiset of the levels rows, in the same projection |
| `Delivery.Status` | backend/src/routes/delivery.routes.js:9-28 | all delivery records, each as often as in the table, with no counting, newest delivery date first |
| `Delivery.Routes` | backend/src/routes/delivery.routes.js:37-45 | all routes, delivery id descending |
| `Delivery.StatsIn` | backend/src/routes/delivery.routes.js:55-68 | without `sequelize` in scope the handler answers 500 with "sequelize is not defined" whatever the query; with it, it answers the grouped counts when the query succeeds and 500 with the query's message when it fails |
| `Delivery.StatusCounts` | backend/src/routes/delivery.routes.js:57-63 | the row keys are the distinct statuses of the records, and each row's count is the number of records with that status |
| `Delivery.Stats` | backend/src/routes/delivery.routes.js:3-4 | as written, `/stats` answers 500 with "sequelize is not defined" whatever the query gives |
| `Delivery.StatsWithImport` | backend/src/routes/delivery.routes.js:55-68 | with the import, a successful query is answered with the status counts and a failed one with 500 and its message |
| `Delivery.StatsWithImportCounts` | backend/src/routes/delivery.routes.js:57-63 | with the import, one row per status that occurs, each row holding the number of records with that status, and the counts add up to the number of records |
| `CropData.BuildWhere` | backend/src/routes/dashboard.routes.js:10-21 | the range is present exactly when both dates are given and the crop type exactly when it is given; a record matches exactly when it satisfies both conditions |
| `CropData.Selected` | backend/src/routes/dashboard.routes.js:23-27 | exactly the matching records, each as often as in the table, no limit, date ascending |
| `CropData.CropTrends` | backend/src/routes/dashboard.routes.js:23-29 | row i is date, quantity and crop type of the i-th selected record; dates ascend |
| `CropData.PriceTrends` | backend/src/routes/dashboard.routes.js:68-74 | row i is date, price and crop type of the i-th selected record; dates ascend |
| `CropData.CropTrendsRows` | backend/src/routes/dashboard.routes.js:23-26 | every matching record appears in `/crop-trends`, and every row comes from a matching record |
| `CropData.TrendsAgree` | backend/src/routes/dashboard.routes.js:55-72 | the two trend endpoints return as many rows, the same date row by row, and the same (date, crop type) pairs up to order |
| `CropData.TrendsAgreeAnyTieOrder` | backend/src/routes/dashboard.routes.js:23-27 | the query here and its twin at line 70 are ordered by date alone; whatever order each gives records that share a date, the two date-ascending results agree on the date row by row and on their (date, crop type) pairs |
| `CropData.CropTrendsUnfiltered` | backend/src/routes/dashboard.routes.js:11-12 | with no condition, every record is selected, each as often as in the table, and every one gives a row |
| `CropData.CropDistribution` | backend/src/routes/dashboard.routes.js:38-44 | one group per crop type that occurs, none twice |
| `CropData.LocationProduction` | backend/src/routes/dashboard.routes.js:83-89 | one group per location that occurs, none twice |
| `CropData.WeatherImpact` | backend/src/routes/dashboard.routes.js:100-107 | the row keys are the distinct weather conditions, NULL included, and each row's count is the number of records with that condition |
| `CropData.WeatherImpactGroups` | backend/src/routes/dashboard.routes.js:100-107 | one row per weather condition that occurs, NULL included, each counting its records; the counts add up to the number of records |
| `CropData.NullWeatherCounted` | backend/src/models/AgriculturalData.js:34-37 | a record with a NULL condition is counted in a NULL row of positive count |
| `Server.StatusRows` | app.js:74-78 | the row keys are the distinct statuses of the records, and each row's count is the number of records with that status |
| `Server.LastCount` | app.js:79-80 | the count read for a status is 0 or the count of a row carrying that status |
| `Server.Summary` | app.js:79-85 | each of the three reported counts is 0 or the count of a row carrying its status |
| `Server.DeliveryStatusOf` | app.js:74-85 | the three reported counts are the numbers of records that are Pending, In Transit and Delivered |
| `Server.FoldStatuses` | app.js:79-80 | the fold leaves each canonical status at the count of the last row carrying it, or at 0 |
| `Server.DeliveryStatusRoute` | app.js:72-89 | the handler answers the three counts of the grouped rows, or 500 with `Database error` |
| `Server.LastCountAbsent` | app.js:79 | a status no row carries is reported as 0 |
| `Server.LastCountLastRow` | app.js:80 | the last row carrying a status decides its count |
| `Server.UnrecognisedRowIgnored` | app.js:80-85 | a row of a non-canonical status, wherever it stands, changes none of the three counts |
| `Server.GroupedLastCount` | app.js:74-80 | over the GROUP BY rows, the count read for a status is the number of records with that status |
| `Server.DeliveryStatusCounts` | app.js:74-85 | each reported count is the number of records with that status; they add up to at most the number of records, and exactly that many when every status is canonical |
| `Server.Reversed` | app.js:46 | the reversal has the same length, and entry i is entry n-1-i of the input |
| `Server.ReverseInPlace` | app.js:46 | reverses the array in place |
| `Server.TrendChartOf` | app.js:47-53 | labels and data are as long as the rows; label i is row i's date written by `Calendar.SlashDate` (unpadded month, day and year, the month 1-based) and reads back as that date; data i is the row's total |
| `Server.SalesTrendsRoute` | app.js:37-57 | the handler copies the rows into an array, reverses them in place and answers the chart, or 500 with `Database error` |
| `Server.DayTotals` | app.js:39-42 | the row keys are the distinct days with sales, and each row's total is the amount sold on its day |
| `Server.LatestDays` | app.js:39-45 | min(7, days with sales) rows, each one of the per-day rows |
| `Server.LastWeek` | app.js:39-46 | the reversed rows are the same rows, each as often |
| `Server.LastWeekOrdered` | app.js:39-46 | min(7, days with sales) rows with distinct dates in strictly ascending order |
| `Server.LastWeekTotals` | app.js:40-42 | each row's total is the SUM of the amounts of sales on its date, and each charted date had sales |
| `Server.LastWeekMostRecent` | app.js:43-44 | a day with sales that is not charted lies before every charted day |
| `Server.NewestSales` | app.js:102-108 | min(10, sales) sales, newest first, taken from the table; no sale left out is newer than one kept |
| `Server.RecentSales` | app.js:103-109 | those ten sales cut down to the selected columns, in the same order |
| `Calendar.SlashDateRoundTrip` | app.js:49-50 | the `M/D/YYYY` label parses back to the date it was made from |
| `Calendar.SlashDateFields` | app.js:50 | the label has three unpadded decimal fields: the 1-based month, the day and the year |
| `Client.Dashboard.constructor` | frontend/src/components/Dashboard.js:34-40 | all six data slots start as `[]` and the error as null |
| `Client.Dashboard.Store` | frontend/src/components/Dashboard.js:47-67 | the setter of request i replaces exactly slot i; the last two responses are dropped |
| `Client.Dashboard.Fetch` | frontend/src/components/Dashboard.js:43-80 | requests go out in order up to and including the first rejection; every slot before it holds its response, the later slots keep their value, and the error is set exactly when a request was rejected |
| `Client.Dashboard.FetchData` | frontend/src/components/Dashboard.js:44-79 | the same chain over the component's eight URLs as written |
| `Client.Dashboard.FetchDataFixed` | frontend/src/components/Dashboard.js:62 | the same chain with the category URL corrected |
| `Client.FirstRejected` | frontend/src/components/Dashboard.js:44-76 | the position of the first rejected request: every earlier request resolved and this one was rejected |
| `Client.Settled` | frontend/src/components/Dashboard.js:46-67 | slot k holds the data of request k when k lies before the first rejection, and its earlier value otherwise |
| `Client.ChainStopsAtFirstRejection` | frontend/src/components/Dashboard.js:76-79 | no request after a rejected one is issued |
| `Client.MockedFetch` | frontend/src/components/__tests__/Dashboard.test.js:45-62 | under the test's mock the chain stops at `/api/sales/by-category`: the first four slots hold the mock data, the category and log slots stay `[]`, and the error is set |
| `Client.MockedFetchFixed` | frontend/src/components/__tests__/Dashboard.test.js:55-58 | with the corrected URL the mock fills the category and log slots |
| `Client.MockServer` | frontend/src/components/__tests__/Dashboard.test.js:45-62 | a request resolves exactly when its URL is one of the six endpoints the test serves; any other is rejected with "Not found" |
| `Client.MockLogActivity` | frontend/src/components/Dashboard.js:225-230 | the test's log becomes the table row Rice / add / 50 with its formatted date |
| `Client.MockActivity` | frontend/src/components/__tests__/Dashboard.test.js:87-94 | the mocked log, once stored, renders as the row Rice / add / 50 |
| `Client.Columns` | frontend/src/components/Dashboard.js:121-130 | a chart's labels and data are both as long as the fetched array, and entry i of each comes from row i |
| `Client.SalesTrendsData` | frontend/src/components/Dashboard.js:109-119 | label i is the formatted date of row i and data i its `totalSales` |
| `Client.InventoryLevelsData` | frontend/src/components/Dashboard.js:121-126 | label i is product i's name and data i its stock |
| `Client.TopProductsData` | frontend/src/components/Dashboard.js:150-155 | label i is row i's `Product.productName` and data i its `totalRevenue` |
| `Client.CategorySalesData` | frontend/src/components/Dashboard.js:161-166 | label i is row i's `Product.category` and data i its `totalSales` |
| `Client.DeliveryStatusData` | frontend/src/components/Dashboard.js:132-139 | exactly three labels, Pending, In Transit and Delivered, and three values |
| `Client.FilterLengthCounts` | frontend/src/components/Dashboard.js:136 | the length of the status filter is the number of rows whose status is exactly that string |
| `Client.DeliveryDataCounts` | frontend/src/components/Dashboard.js:135-139 | value k is the number of rows whose `deliveryStatus` equals label k |
| `Client.DeliveryDataBounded` | frontend/src/components/Dashboard.js:136-138 | the three values add up to at most the number of rows, and to exactly that number when every status is one of the three |
| `Client.OtherStatusUncounted` | frontend/src/components/Dashboard.js:136-138 | a row of any other status changes none of the three values |
| `Client.ActivityTable` | frontend/src/components/Dashboard.js:224-230 | the first min(5, n) logs in fetched order, one table row each |

The routers other than the sales router use the same `Http.RouterServe` envelope:

- `backend/src/routes/inventory.routes.js:22-24`, `46-48` and `70-72`;
- `backend/src/routes/delivery.routes.js:29-31` and `49-51`;
- `backend/src/routes/dashboard.routes.js:30-32`, `47-49`, `75-77`, `92-94` and `110-112`.

The standalone server's other handlers use the `Http.ServerServe` envelope, at `app.js:86-88`
and `110-112`.

## Findings

| source | as written | input that shows it | evidently intended | confidence | as-written member | corrected member |
|---|---|---|---|---|---|---|
| backend/src/routes/delivery.routes.js:60 | `/stats` calls `sequelize.fn`, but the file binds no `sequelize` (lines 3-4); the `ReferenceError` is caught and answered as a 500 | any GET `/stats`, whatever the table holds | the import `const sequelize = require('../config/database')`, as in `inventory.routes.js:5`, so that one count per status is returned | not executed; high | `Delivery.Stats` | `Delivery.StatsWithImportCounts` |
| frontend/src/components/Dashboard.js:62 | the category request targets `/api/sales/by-category`, which the sales router (`sales.routes.js:61`) does not serve | the component test's `axios.get` mock (`Dashboard.test.js:45-62`), which answers `/api/sales/category-sales` and rejects everything else | `/api/sales/category-sales`; as written the chain stops there, so the inventory logs are never fetched and the activity table the test looks for (`Dashboard.test.js:87-94`) stays empty | not executed; medium | `Client.MockedFetch` | `Client.MockedFetchFixed` |

## Left out

- Express, the router mounting, `app.listen`, static files, the MySQL pool and the Sequelize
  configuration are not modelled. A query is given as its outcome, rows or an error message.
- The ORM and SQL engine are not modelled, and neither are joins. Joined columns (product name,
  category, user names) are fields of the row records. No sale is assumed to lack its product,
  so the inner join of `app.js:105` drops nothing.
- The SUM and AVG of the FLOAT columns `quantity` and `price` (`/crop-distribution`,
  `/location-production`, `/weather-impact`) are not computed. Those endpoints are modelled by
  their groups, and `/weather-impact` also by its COUNT.
- `CropData.CropDistribution`, `CropData.LocationProduction`: they state the groups only, not
  the FLOAT sums those groups carry, because floating-point addition is not modelled.
- Date parsing (`new Date(text)`), time zones and `toLocaleDateString` are not modelled.
  - A date query parameter carries the instant it denotes.
  - The component's date formatting is a parameter.
  - Calendar validity beyond the month and day ranges (30 February) is not checked.
- `Calendar.SlashDateRoundTrip`: `new Date(r.date)` on a DATE value is taken to give back the
  same calendar date, because the server's time zone is not modelled.
- String comparison is by character code, and string equality is exact. Database collations
  such as case-insensitive ones are not modelled. This covers the ORDER BY on `category`, the
  GROUP BY on `category`, `deliveryStatus`, `cropType`, `location` and `weatherCondition`, and
  the `cropType` condition of `dashboard.routes.js:20`.
- The nullable `unitPrice` of a product is carried in the row record but no contract speaks
  of it.
- Database integer widths are not modelled; counts and sums are unbounded integers.
- The hard-coded responses of `app.js:20-34` and `app.js:92-97` are not modelled, because they
  are constants.
- The listing `app.js:116-123` is not modelled. It runs a query and returns its rows unchanged.
- The listing `app.js:60-69` is not modelled. It runs a query, renames each row's columns to
  `name` and `quantity`, and wraps the rows as `{ products: [...] }`. That reshaping is left
  out with the handler.
- Rendering is not modelled: Chart.js registration and options, the JSX and the colour theme.
  - A state value that is not an array, or a row without the nested `Product` object, raises a
    `TypeError` at render time in the component. The builders instead take the array's items,
    and a missing property reads as `undefined`.
- Axios and the asynchronous timing of the requests are not modelled. Each request's outcome is
  a function of its URL, and `console.error` is left out.
- The results of the last two requests of `fetchData` (routes and stats) are discarded by the
  component, and the model drops them too.
- Which router is mounted under which path prefix is not modelled; the outcome of each URL is a
  parameter of the fetch. No router shown here serves `/api/dashboard/stats`, the last request
  of the chain, and when that request is rejected the error is set even though every slot has
  been filled.
