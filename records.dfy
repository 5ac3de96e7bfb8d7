/**
 * The tables the analyzer loads (one datatype per source file), the integrated
 * record (one row per order after all joins, with the derived root-cause
 * columns), and the set of optional columns a table actually has.
 */
module Records {
  import opened Wrappers
  import opened Calendar

  /** A row of orders.csv. `order_id` is the primary key and never null. */
  datatype OrderRow = OrderRow(
    orderId: string,
    clientId: Option<string>,
    city: Option<string>,
    warehouseId: Option<string>,
    orderDate: Option<DateTime>,
    promisedDeliveryDate: Option<DateTime>,
    actualDeliveryDate: Option<DateTime>,
    status: Option<string>,
    failureReason: Option<string>,
    amount: Option<int>)  // minor currency units

  /** A row of warehouses.csv. */
  datatype WarehouseRow = WarehouseRow(
    warehouseId: Option<string>,
    city: Option<string>,
    warehouseName: Option<string>,
    capacity: Option<int>,
    managerName: Option<string>)

  /** A row of clients.csv. */
  datatype ClientRow = ClientRow(
    clientId: Option<string>,
    clientName: Option<string>,
    contactPerson: Option<string>)

  /** A row of fleet_logs.csv (several per order). */
  datatype FleetLogRow = FleetLogRow(
    orderId: Option<string>,
    driverId: Option<string>,
    vehicleNumber: Option<string>,
    routeCode: Option<string>,
    gpsDelayNotes: Option<string>,
    departureTime: Option<string>,
    arrivalTime: Option<string>)

  /** A row of drivers.csv. */
  datatype DriverRow = DriverRow(
    driverId: Option<string>,
    driverName: Option<string>,
    partnerCompany: Option<string>,
    status: Option<string>)

  /** A row of warehouse_logs.csv (several per order). */
  datatype WarehouseLogRow = WarehouseLogRow(
    orderId: Option<string>,
    pickingStart: Option<string>,
    pickingEnd: Option<string>,
    dispatchTime: Option<string>,
    notes: Option<string>)

  /** A row of external_factors.csv (several per order). */
  datatype ExternalFactorRow = ExternalFactorRow(
    orderId: Option<string>,
    trafficCondition: Option<string>,
    weatherCondition: Option<string>,
    eventType: Option<string>)

  /** A row of feedback.csv (several per order). */
  datatype FeedbackRow = FeedbackRow(
    orderId: Option<string>,
    feedbackText: Option<string>,
    sentiment: Option<string>,
    rating: Option<int>)

  /** The loaded sources; `None` is a file that was not found. */
  datatype Sources = Sources(
    orders: Option<seq<OrderRow>>,
    warehouses: Option<seq<WarehouseRow>>,
    clients: Option<seq<ClientRow>>,
    fleetLogs: Option<seq<FleetLogRow>>,
    drivers: Option<seq<DriverRow>>,
    warehouseLogs: Option<seq<WarehouseLogRow>>,
    externalFactors: Option<seq<ExternalFactorRow>>,
    feedback: Option<seq<FeedbackRow>>)

  datatype Severity = Low | Medium | High | Critical

  /** The tier as the `severity` column spells it. */
  function SeverityName(s: Severity): string {
    match s
    case Low => "Low"
    case Medium => "Medium"
    case High => "High"
    case Critical => "Critical"
  }

  /**
   * One integrated record. Joined columns that a missing source never added
   * stay `None`; `Schema` says which columns exist. After the drivers merge the
   * order status lives in `statusX` (pandas' `status_x`), the driver status in
   * `driverStatus` (`status_y`), and `status` is no column until the feature
   * pass recreates it. The derived columns hold placeholders until that pass.
   */
  datatype Row = Row(
    // orders
    orderId: string,
    clientId: Option<string>,
    city: Option<string>,
    warehouseId: Option<string>,
    orderDate: Option<DateTime>,
    promisedDeliveryDate: Option<DateTime>,
    actualDeliveryDate: Option<DateTime>,
    status: Option<string>,
    failureReason: Option<string>,
    amount: Option<int>,
    // warehouses
    warehouseName: Option<string>,
    capacity: Option<int>,
    managerName: Option<string>,
    // clients
    clientName: Option<string>,
    contactPerson: Option<string>,
    // fleet log summary
    driverId: Option<string>,
    vehicleNumber: Option<string>,
    routeCode: Option<string>,
    gpsDelayNotes: Option<string>,
    departureTime: Option<string>,
    arrivalTime: Option<string>,
    // drivers
    driverName: Option<string>,
    partnerCompany: Option<string>,
    driverStatus: Option<string>,
    statusX: Option<string>,
    // warehouse log summary
    pickingStart: Option<string>,
    pickingEnd: Option<string>,
    dispatchTime: Option<string>,
    notes: Option<string>,
    // external factor summary
    trafficCondition: Option<string>,
    weatherCondition: Option<string>,
    eventType: Option<string>,
    // feedback summary
    feedbackText: Option<string>,
    sentiment: Option<string>,
    rating: Option<real>,
    // derived by the feature pass
    deliveryDelayDays: int,
    isDelayed: bool,
    primaryRootCause: string,
    severity: Severity,
    orderHour: Option<int>,
    orderDayOfWeek: Option<string>,
    orderMonth: Option<string>)

  /** Which optional column families a table has. */
  datatype Schema = Schema(
    hasWarehouses: bool,      // warehouse_name, capacity, manager_name
    hasClients: bool,         // client_name, contact_person
    hasFleet: bool,           // driver_id, vehicle_number, ...
    hasDrivers: bool,         // driver_name, partner_company, status_x, status_y
    hasWarehouseLogs: bool,   // picking_start, ..., notes
    hasExternalFactors: bool, // traffic_condition, weather_condition, event_type
    hasFeedback: bool,        // feedback_text, sentiment, rating
    hasStatus: bool)          // a column named `status`

  /** A table: its rows and its columns. */
  datatype Table = Table(rows: seq<Row>, schema: Schema)

  /** The row an order starts as, before any join. */
  function FromOrder(o: OrderRow): Row {
    Row(o.orderId, o.clientId, o.city, o.warehouseId, o.orderDate,
        o.promisedDeliveryDate, o.actualDeliveryDate, o.status, o.failureReason, o.amount,
        None, None, None,
        None, None,
        None, None, None, None, None, None,
        None, None, None, None,
        None, None, None, None,
        None, None, None,
        None, None, None,
        0, false, "", Low, None, None, None)
  }
}
