/** The rows the reporting queries read, one datatype per table.  Columns that a query takes
    from a joined table (the product name of a sale, the user name of an inventory log) are
    fields of the row itself: joins are not modelled.  Currency is an integer number of cents. */
module Schema {
  import opened Options
  import opened Calendar

  /** A value of a `DECIMAL(10, 2)` column, in hundredths: ten digits in all. */
  type Decimal10x2 = c: int | -9_999_999_999 <= c <= 9_999_999_999

  /** `products`: the five columns of the product model.  Only the name is declared NOT NULL;
      a NULL category, price or stock is `None`. */
  datatype Product = Product(
    productId: int,
    productName: string,
    category: Option<string>,
    unitPrice: Option<Decimal10x2>,
    quantityInStock: Option<int>)

  /** `sales_transactions`, with the product's name and (nullable) category joined in. */
  datatype Sale = Sale(
    transactionId: int,
    productId: int,
    productName: string,
    category: Option<string>,
    quantitySold: int,
    totalAmount: int,
    transactionDate: Timestamp)

  /** The calendar day of a sale: SQL's `DATE(transaction_date)`. */
  function SaleDay(t: Sale): Date {
    CalendarDate(t.transactionDate)
  }

  /** The amount a sale contributes to a revenue sum. */
  function Amount(t: Sale): int {
    t.totalAmount
  }

  /** `inventory_logs`, with the product name and the user's name joined in. */
  datatype InventoryLog = InventoryLog(
    logId: int,
    productId: int,
    productName: string,
    username: string,
    fullName: string,
    actionType: string,
    quantity: int,
    logDate: Timestamp)

  /** `delivery_records`, with the recorder and the delivery person joined in. */
  datatype DeliveryRecord = DeliveryRecord(
    deliveryId: int,
    transactionId: int,
    deliveryStatus: string,
    deliveryDate: Timestamp,
    recordedBy: string,
    deliveryPersonnel: string)

  /** `delivery_routes`, with the transaction date of its delivery joined in. */
  datatype DeliveryRoute = DeliveryRoute(
    routeId: int,
    deliveryId: int,
    route: string,
    transactionDate: Timestamp)

  /** `AgriculturalData`.  `quantity` and `price` are FLOAT columns: they are carried, never
      computed with. */
  datatype AgriRecord = AgriRecord(
    id: int,
    cropType: string,
    quantity: real,
    unit: string,
    date: Timestamp,
    location: string,
    price: real,
    weatherCondition: Option<string>,
    notes: Option<string>)
}
