/**
 * The rows of the relational store: suppliers, clients, rates, shipments,
 * expenses and the public order requests, with their enumerations.
 */
module Models {
  import opened Wrappers

  /** Primary keys. The source draws random UUIDs; the model uses naturals handed out by the store. */
  type Id = nat

  /** A calendar date as a day number. */
  type Date = int

  /** A point in time in seconds, in the time zone of the database session. */
  type Timestamp = int

  const SecondsPerDay: int := 86400

  /** The timestamp a date converts to when compared with one: midnight at the start of that day. */
  function DayStart(d: Date): Timestamp {
    d * SecondsPerDay
  }

  /** The calendar day a timestamp falls on. */
  function DayOf(t: Timestamp): Date {
    t / SecondsPerDay
  }

  /** The currency a rate or an expense gets when the request names none. */
  const DefaultCurrency: string := "USD"

  /** The length bound on the currency column of rates and expenses. */
  predicate ValidCurrency(c: string) {
    |c| <= 10
  }

  datatype ShipmentStatus = Planned | InTransit | Delivered

  datatype ExpenseType = Customs | Delivery | AgentFee | Warehouse

  datatype OrderStatus = New | InProgress | Completed | Cancelled

  datatype Route = UaeToRf | TurkeyToRf

  /** The string stored for an order status (the enum's value). */
  function OrderStatusValue(s: OrderStatus): string {
    match s
    case New => "new"
    case InProgress => "in_progress"
    case Completed => "completed"
    case Cancelled => "cancelled"
  }

  /** The string stored for a route (the enum's value). */
  function RouteValue(r: Route): string {
    match r
    case UaeToRf => "uae_to_rf"
    case TurkeyToRf => "turkey_to_rf"
  }

  datatype Supplier = Supplier(id: Id, name: string)

  /** A client, with the `client_number` column that the client-number migration adds. */
  datatype Client = Client(
    id: Id,
    name: string,
    companyName: Option<string>,
    clientNumber: Option<string>,
    createdAt: Timestamp)

  /** A buy/sell price pair per unit; `clientId` absent means a general rate. */
  datatype Rate = Rate(
    id: Id,
    cargoType: string,
    supplierId: Id,
    clientId: Option<Id>,
    buyRate: real,
    sellRate: real,
    currency: string,
    unit: string,
    validFrom: Option<Date>,
    validTo: Option<Date>)

  /**
   * A shipment row. The `status` column is nullable: a create always sets
   * it, but an update that sends `"status": null` stores NULL (`None`).
   */
  datatype Shipment = Shipment(
    id: Id,
    shipmentCode: string,
    supplierId: Id,
    clientId: Id,
    rateId: Id,
    cargoType: string,
    quantity: real,
    departureDate: Option<Date>,
    arrivalDate: Option<Date>,
    status: Option<ShipmentStatus>,
    createdAt: Timestamp)

  datatype Expense = Expense(
    id: Id,
    shipmentId: Id,
    expenseType: ExpenseType,
    amount: real,
    currency: string,
    comment: Option<string>,
    expenseDate: Date,
    createdAt: Timestamp)

  /** A public order request, as far as the admin page reads it. */
  datatype Order = Order(
    id: Id,
    route: Route,
    cargoWeight: Option<real>,
    cargoVolume: Option<real>,
    /** Nullable: the column has a default but no NOT NULL, and an update may send null. */
    status: Option<OrderStatus>)
}
