/**
 * The aggregations over a (filtered) integrated table: `explain_delivery_causes`
 * (root-cause breakdown of the problem orders plus day, city and warehouse
 * insights) and `compare_performance` (delay statistics per value of a column).
 * Means are exact; `amount` is an integer in minor units.
 */
module Analytics {
  import opened Wrappers
  import opened Grouping
  import opened Records

  // ------------------------------------------------------------ column sums

  /** pandas `sum` of `amount`: null amounts are skipped. */
  function SumAmount(rows: seq<Row>): int {
    if rows == [] then 0 else rows[0].amount.GetOr(0) + SumAmount(rows[1..])
  }

  function SumDelay(rows: seq<Row>): int {
    if rows == [] then 0 else rows[0].deliveryDelayDays + SumDelay(rows[1..])
  }

  /** pandas `mean` of `delivery_delay_days` (never null after the feature pass). */
  function MeanDelay(rows: seq<Row>): real {
    if rows == [] then 0.0 else SumDelay(rows) as real / |rows| as real
  }

  function RatedCount(rows: seq<Row>): (n: nat)
    ensures n <= |rows|
  {
    if rows == [] then 0 else (if rows[0].rating.Some? then 1 else 0) + RatedCount(rows[1..])
  }

  function RatingSum(rows: seq<Row>): real {
    if rows == [] then 0.0 else rows[0].rating.GetOr(0.0) + RatingSum(rows[1..])
  }

  /** pandas `mean` of `rating`: null ratings are skipped; null when none is left. */
  function MeanRating(rows: seq<Row>): (m: Option<real>)
    ensures m.None? <==> RatedCount(rows) == 0
  {
    if RatedCount(rows) == 0 then None else Some(RatingSum(rows) / RatedCount(rows) as real)
  }

  predicate IsCritical(r: Row) {
    r.severity == Critical
  }

  predicate IsDelayedRow(r: Row) {
    r.isDelayed
  }

  // ------------------------------------------------------------- group keys

  function CauseKey(r: Row): Option<string> { Some(r.primaryRootCause) }
  function DayKey(r: Row): Option<string> { r.orderDayOfWeek }
  function CityKey(r: Row): Option<string> { r.city }
  function WarehouseNameKey(r: Row): Option<string> { r.warehouseName }

  /** Every row has a root-cause label, so `groupby('primary_root_cause')` keeps every row. */
  lemma {:induction false} CauseKeyTotal(rows: seq<Row>)
    ensures CountKeyed(rows, CauseKey) == |rows|
  {
    if rows != [] { CauseKeyTotal(rows[1..]); }
  }

  // ------------------------------------------------------------ explanations

  /** A problem delivery: delayed, failed or returned. */
  predicate IsProblem(r: Row) {
    r.isDelayed || r.status == Some("Failed") || r.status == Some("Returned")
  }

  datatype CauseStats = CauseStats(cause: string, failureCount: nat, avgDelayDays: real,
                                   lostRevenue: int, avgRating: Option<real>, criticalCases: nat)

  datatype KeyCount = KeyCount(key: string, count: nat)

  datatype CityImpact = CityImpact(city: string, orders: nat, amount: int)

  datatype Insights = Insights(worstDays: seq<KeyCount>, mostAffectedCities: seq<CityImpact>,
                               problematicWarehouses: Option<seq<KeyCount>>)

  datatype Explanation =
    | NoIssues   // "No delivery issues found in the specified criteria"
    | Explained(rootCauses: seq<CauseStats>, totalAffectedOrders: nat, totalLostRevenue: int,
                averageDelay: real, insights: Insights)

  /** A KeyError raised by an aggregation over an absent column. */
  datatype AnalysisError = MissingColumn(name: string)

  /** The aggregate of one root-cause group. */
  function CauseStatsOf(cause: string, g: seq<Row>): CauseStats {
    CauseStats(cause, |g|, MeanDelay(g), SumAmount(g), MeanRating(g), CountWhere(g, IsCritical))
  }

  function CauseTable(rows: seq<Row>, ks: seq<string>): (t: seq<CauseStats>)
    ensures |t| == |ks|
    ensures forall i :: 0 <= i < |ks| ==> t[i] == CauseStatsOf(ks[i], Group(rows, CauseKey, ks[i]))
  {
    if ks == [] then [] else [CauseStatsOf(ks[0], Group(rows, CauseKey, ks[0]))] + CauseTable(rows, ks[1..])
  }

  function FailureCountOf(c: CauseStats): int { c.failureCount }

  /** The full breakdown: one entry per cause, most frequent first (before `head(limit)`). */
  function CauseBreakdown(problems: seq<Row>): seq<CauseStats> {
    SortDesc(CauseTable(problems, KeysOf(problems, CauseKey)), FailureCountOf)
  }

  function CountTable(rows: seq<Row>, key: Row -> Option<string>, ks: seq<string>): (t: seq<KeyCount>)
    ensures |t| == |ks|
    ensures forall i :: 0 <= i < |ks| ==> t[i] == KeyCount(ks[i], |Group(rows, key, ks[i])|)
  {
    if ks == [] then [] else [KeyCount(ks[0], |Group(rows, key, ks[0])|)] + CountTable(rows, key, ks[1..])
  }

  function CountOf(c: KeyCount): int { c.count }

  /** `groupby(key)['order_id'].count().sort_values(ascending=False).head(n)`. */
  function TopCounts(rows: seq<Row>, key: Row -> Option<string>, n: nat): seq<KeyCount> {
    Take(SortDesc(CountTable(rows, key, KeysOf(rows, key)), CountOf), n)
  }

  function CityTable(rows: seq<Row>, ks: seq<string>): (t: seq<CityImpact>)
    ensures |t| == |ks|
    ensures forall i :: 0 <= i < |ks| ==>
      t[i] == CityImpact(ks[i], |Group(rows, CityKey, ks[i])|, SumAmount(Group(rows, CityKey, ks[i])))
  {
    if ks == [] then []
    else [CityImpact(ks[0], |Group(rows, CityKey, ks[0])|, SumAmount(Group(rows, CityKey, ks[0])))] + CityTable(rows, ks[1..])
  }

  function CityOrdersOf(c: CityImpact): int { c.orders }

  /**
   * `explain_delivery_causes(df, limit)`. `rating` comes from the feedback
   * table and `warehouse_name` from the warehouses table.
   */
  function Explain(t: Table, limit: nat): Result<Explanation, AnalysisError> {
    var problems := Where(t.rows, IsProblem);
    if |problems| == 0 then Success(NoIssues)
    else if !t.schema.hasFeedback then Failure(MissingColumn("rating"))
    else
      var insights := Insights(
        TopCounts(problems, DayKey, 3),
        Take(SortDesc(CityTable(problems, KeysOf(problems, CityKey)), CityOrdersOf), 5),
        if t.schema.hasWarehouses then Some(TopCounts(problems, WarehouseNameKey, 5)) else None);
      Success(Explained(Take(CauseBreakdown(problems), limit), |problems|, SumAmount(problems),
                        MeanDelay(problems), insights))
  }

  /** The "no issues" message comes exactly when no row is a problem. */
  lemma ExplainNoIssuesIff(t: Table, limit: nat)
    ensures Explain(t, limit) == Success(NoIssues) <==> forall i :: 0 <= i < |t.rows| ==> !IsProblem(t.rows[i])
  {
    WhereEmptyIff(t.rows, IsProblem);
  }

  /** Every reported cause has at least as many failures as critical cases. */
  lemma CriticalWithinFailures(problems: seq<Row>)
    ensures var b := CauseBreakdown(problems);
      forall i :: 0 <= i < |b| ==> b[i].criticalCases <= b[i].failureCount
  {
    var table := CauseTable(problems, KeysOf(problems, CauseKey));
    var b := CauseBreakdown(problems);
    forall i | 0 <= i < |b| ensures b[i].criticalCases <= b[i].failureCount {
      SortDescFrom(table, FailureCountOf, i);
    }
  }

  /** The breakdown is truncated to `limit` and ordered by failure count. */
  lemma BreakdownShape(problems: seq<Row>, limit: nat)
    ensures var b := Take(CauseBreakdown(problems), limit);
      |b| <= limit && NonIncreasing(b, FailureCountOf)
      && forall i :: 0 <= i < |b| ==> b[i].criticalCases <= b[i].failureCount
  {
    TakeNonIncreasing(CauseBreakdown(problems), limit, FailureCountOf);
    CriticalWithinFailures(problems);
  }

  /** The insights keep at most 3 days, 5 cities and 5 warehouses, each most affected first. */
  lemma InsightsShape(problems: seq<Row>)
    ensures |TopCounts(problems, DayKey, 3)| <= 3 && NonIncreasing(TopCounts(problems, DayKey, 3), CountOf)
    ensures |TopCounts(problems, WarehouseNameKey, 5)| <= 5
    ensures NonIncreasing(TopCounts(problems, WarehouseNameKey, 5), CountOf)
    ensures var c := Take(SortDesc(CityTable(problems, KeysOf(problems, CityKey)), CityOrdersOf), 5);
      |c| <= 5 && NonIncreasing(c, CityOrdersOf)
  {
    TakeNonIncreasing(SortDesc(CountTable(problems, DayKey, KeysOf(problems, DayKey)), CountOf), 3, CountOf);
    TakeNonIncreasing(SortDesc(CountTable(problems, WarehouseNameKey, KeysOf(problems, WarehouseNameKey)), CountOf), 5, CountOf);
    TakeNonIncreasing(SortDesc(CityTable(problems, KeysOf(problems, CityKey)), CityOrdersOf), 5, CityOrdersOf);
  }

  /** Shape of an explanation: sorted, truncated breakdown and bounded insights. */
  lemma ExplainShape(t: Table, limit: nat)
    requires Explain(t, limit).Success? && Explain(t, limit).value.Explained?
    ensures var e := Explain(t, limit).value;
      && |e.rootCauses| <= limit
      && NonIncreasing(e.rootCauses, FailureCountOf)
      && (forall i :: 0 <= i < |e.rootCauses| ==> e.rootCauses[i].criticalCases <= e.rootCauses[i].failureCount)
      && |e.insights.worstDays| <= 3
      && NonIncreasing(e.insights.worstDays, CountOf)
      && |e.insights.mostAffectedCities| <= 5
      && NonIncreasing(e.insights.mostAffectedCities, CityOrdersOf)
      && (e.insights.problematicWarehouses.Some? <==> t.schema.hasWarehouses)
      && (e.insights.problematicWarehouses.Some? ==> |e.insights.problematicWarehouses.value| <= 5)
      && e.totalAffectedOrders == |Where(t.rows, IsProblem)|
      && SumBy(CauseBreakdown(Where(t.rows, IsProblem)), FailureCountOf) == e.totalAffectedOrders
  {
    var problems := Where(t.rows, IsProblem);
    ExplainParts(t, limit);
    BreakdownShape(problems, limit);
    InsightsShape(problems);
    BreakdownCountsTotal(problems);
  }

  lemma ExplainParts(t: Table, limit: nat)
    requires Explain(t, limit).Success? && Explain(t, limit).value.Explained?
    ensures var problems := Where(t.rows, IsProblem);
      var e := Explain(t, limit).value;
      && e.rootCauses == Take(CauseBreakdown(problems), limit)
      && e.totalAffectedOrders == |problems|
      && e.insights == Insights(
           TopCounts(problems, DayKey, 3),
           Take(SortDesc(CityTable(problems, KeysOf(problems, CityKey)), CityOrdersOf), 5),
           if t.schema.hasWarehouses then Some(TopCounts(problems, WarehouseNameKey, 5)) else None)
  {
  }

  /** Per-cause counts before truncation add up to the number of affected orders. */
  lemma BreakdownCountsTotal(problems: seq<Row>)
    ensures SumBy(CauseBreakdown(problems), FailureCountOf) == |problems|
  {
    var ks := KeysOf(problems, CauseKey);
    SumBySortDesc(CauseTable(problems, ks), FailureCountOf, FailureCountOf);
    CauseTableSizes(problems, ks);
    GroupSizesTotal(problems, CauseKey);
    CauseKeyTotal(problems);
  }

  lemma {:induction false} CauseTableSizes(rows: seq<Row>, ks: seq<string>)
    ensures SumBy(CauseTable(rows, ks), FailureCountOf) == GroupSizes(rows, CauseKey, ks)
  {
    if ks != [] {
      CauseTableSizes(rows, ks[1..]);
      var t := CauseTable(rows, ks);
      assert t[1..] == CauseTable(rows, ks[1..]);
    }
  }

  /** Once the feature pass has run, the problem rows are exactly the delayed rows. */
  lemma ProblemsAreDelayed(rows: seq<Row>)
    requires forall i :: 0 <= i < |rows| ==>
      (rows[i].status == Some("Failed") || rows[i].status == Some("Returned")) ==> rows[i].isDelayed
    ensures Where(rows, IsProblem) == Where(rows, IsDelayedRow)
  {
    if rows != [] {
      ProblemsAreDelayed(rows[1..]);
    }
  }

  // -------------------------------------------------------------- comparison

  /** The text-valued columns of the integrated table a comparison can group by. */
  datatype Dimension =
    | OrderId | ClientId | City | WarehouseId | Status | FailureReason | WarehouseName | ManagerName
    | ClientName | ContactPerson | DriverId | VehicleNumber | RouteCode | DriverName | PartnerCompany
    | GpsDelayNotes | DepartureTime | ArrivalTime | StatusX | DriverStatus | PickingStart | PickingEnd
    | DispatchTime | Notes | TrafficCondition | WeatherCondition | EventType | FeedbackText | Sentiment
    | PrimaryRootCause | SeverityTier | OrderDayOfWeek | OrderMonth

  /** What a comparison field names: a text column of the table, or nothing known. */
  datatype Field = Column(dim: Dimension) | Unknown(name: string)

  const Dimensions: seq<Dimension> := [
    OrderId, ClientId, City, WarehouseId, Status, FailureReason, WarehouseName, ManagerName,
    ClientName, ContactPerson, DriverId, VehicleNumber, RouteCode, DriverName, PartnerCompany,
    GpsDelayNotes, DepartureTime, ArrivalTime, StatusX, DriverStatus, PickingStart, PickingEnd,
    DispatchTime, Notes, TrafficCondition, WeatherCondition, EventType, FeedbackText, Sentiment,
    PrimaryRootCause, SeverityTier, OrderDayOfWeek, OrderMonth]

  lemma AllDimensions(d: Dimension)
    ensures d in Dimensions
  {
  }

  /** The first of `ds` whose column name is `name`. */
  function FindColumn(ds: seq<Dimension>, name: string): (f: Field)
    ensures f.Column? ==> f.dim in ds && DimensionName(f.dim) == name
    ensures f.Unknown? ==> f.name == name && forall i :: 0 <= i < |ds| ==> DimensionName(ds[i]) != name
  {
    if ds == [] then Unknown(name)
    else if DimensionName(ds[0]) == name then Column(ds[0])
    else FindColumn(ds[1..], name)
  }

  /** The column a field name refers to: the one of that name, if there is one. */
  function FieldOf(name: string): (f: Field)
    ensures f.Column? ==> DimensionName(f.dim) == name
    ensures f.Unknown? <==> forall d :: DimensionName(d) != name
    ensures f.Unknown? ==> f.name == name
  {
    var f := FindColumn(Dimensions, name);
    assert f.Unknown? ==> forall d :: DimensionName(d) != name by {
      if f.Unknown? {
        forall d ensures DimensionName(d) != name {
          AllDimensions(d);
          var i :| 0 <= i < |Dimensions| && Dimensions[i] == d;
        }
      }
    }
    f
  }

  /** The length of a column's name. */
  function NameLength(d: Dimension): nat {
    match d
    case OrderId => 8
    case ClientId => 9
    case City => 4
    case WarehouseId => 12
    case Status => 6
    case FailureReason => 14
    case WarehouseName => 14
    case ManagerName => 12
    case ClientName => 11
    case ContactPerson => 14
    case DriverId => 9
    case VehicleNumber => 14
    case RouteCode => 10
    case DriverName => 11
    case PartnerCompany => 15
    case GpsDelayNotes => 15
    case DepartureTime => 14
    case ArrivalTime => 12
    case StatusX => 8
    case DriverStatus => 8
    case PickingStart => 13
    case PickingEnd => 11
    case DispatchTime => 13
    case Notes => 5
    case TrafficCondition => 17
    case WeatherCondition => 17
    case EventType => 10
    case FeedbackText => 13
    case Sentiment => 9
    case PrimaryRootCause => 18
    case SeverityTier => 8
    case OrderDayOfWeek => 17
    case OrderMonth => 11
  }

  lemma NameLengths(d: Dimension)
    ensures |DimensionName(d)| == NameLength(d)
  {
  }

  /** Column names are distinct. */
  lemma DimensionNameInjective(d1: Dimension, d2: Dimension)
    ensures DimensionName(d1) == DimensionName(d2) ==> d1 == d2
  {
    NameLengths(d1);
    NameLengths(d2);
  }

  /** A column's own name refers to it. */
  lemma FieldOfName(d: Dimension)
    ensures FieldOf(DimensionName(d)) == Column(d)
  {
    DimensionNameInjective(FieldOf(DimensionName(d)).dim, d);
  }

  /** Whether the merges created the column. */
  predicate HasColumn(s: Schema, d: Dimension) {
    match d
    case WarehouseName | ManagerName => s.hasWarehouses
    case ClientName | ContactPerson => s.hasClients
    case DriverId | VehicleNumber | RouteCode | GpsDelayNotes | DepartureTime | ArrivalTime => s.hasFleet
    case DriverName | PartnerCompany | StatusX | DriverStatus => s.hasDrivers
    case PickingStart | PickingEnd | DispatchTime | Notes => s.hasWarehouseLogs
    case TrafficCondition | WeatherCondition | EventType => s.hasExternalFactors
    case FeedbackText | Sentiment => s.hasFeedback
    case _ => true
  }

  function DimensionValue(d: Dimension, r: Row): Option<string> {
    match d
    case OrderId => Some(r.orderId)
    case ClientId => r.clientId
    case City => r.city
    case WarehouseId => r.warehouseId
    case Status => r.status
    case FailureReason => r.failureReason
    case WarehouseName => r.warehouseName
    case ManagerName => r.managerName
    case ClientName => r.clientName
    case ContactPerson => r.contactPerson
    case DriverId => r.driverId
    case VehicleNumber => r.vehicleNumber
    case RouteCode => r.routeCode
    case DriverName => r.driverName
    case PartnerCompany => r.partnerCompany
    case GpsDelayNotes => r.gpsDelayNotes
    case DepartureTime => r.departureTime
    case ArrivalTime => r.arrivalTime
    case StatusX => r.statusX
    case DriverStatus => r.driverStatus
    case PickingStart => r.pickingStart
    case PickingEnd => r.pickingEnd
    case DispatchTime => r.dispatchTime
    case Notes => r.notes
    case TrafficCondition => r.trafficCondition
    case WeatherCondition => r.weatherCondition
    case EventType => r.eventType
    case FeedbackText => r.feedbackText
    case Sentiment => r.sentiment
    case PrimaryRootCause => Some(r.primaryRootCause)
    case SeverityTier => Some(SeverityName(r.severity))
    case OrderDayOfWeek => r.orderDayOfWeek
    case OrderMonth => r.orderMonth
  }

  /** The group key of a dimension. */
  function KeyOf(d: Dimension): Row -> Option<string> {
    r => DimensionValue(d, r)
  }

  /**
   * Python's `round(x, 2)` on a percentage, in hundredths: `n / d` rounded to
   * the nearest integer, ties to even.
   */
  function RoundHalfEven(n: int, d: int): (q: int)
    requires d > 0
    ensures -d <= 2 * (n - q * d) <= d
    ensures (2 * (n - q * d) == d || 2 * (n - q * d) == -d) ==> q % 2 == 0
  {
    var q := n / d;
    var rem := n % d;
    assert n - q * d == rem;
    assert n - (q + 1) * d == rem - d;
    if 2 * rem > d then q + 1
    else if 2 * rem < d then q
    else if q % 2 == 0 then q else q + 1
  }

  /** The delay rate in hundredths of a percent lies in [0, 10000] when 0 <= delayed <= total. */
  lemma RateBounds(delayed: int, total: int)
    requires 0 <= delayed <= total && total > 0
    ensures 0 <= RoundHalfEven(10000 * delayed, total) <= 10000
  {
    var q := RoundHalfEven(10000 * delayed, total);
    var n := 10000 * delayed;
    assert -total <= 2 * (n - q * total) <= total;
    assert (2 * q + 1) * total == 2 * (q * total) + total;
    assert (20001 - 2 * q) * total == 20001 * total - 2 * (q * total);
    PositiveFactor(2 * q + 1, total);
    PositiveFactor(20001 - 2 * q, total);
  }

  lemma PositiveFactor(a: int, d: int)
    requires d > 0 && a * d >= 0
    ensures a >= 0
  {
  }

  datatype GroupStats = GroupStats(key: string, totalOrders: nat, delayedOrders: nat, avgDelayDays: real,
                                   totalRevenue: int, avgRating: Option<real>, delayRate: int)

  function GroupStatsOf(key: string, g: seq<Row>): GroupStats {
    var delayed := CountWhere(g, IsDelayedRow);
    GroupStats(key, |g|, delayed, MeanDelay(g), SumAmount(g), MeanRating(g),
               if |g| == 0 then 0 else RoundHalfEven(10000 * delayed, |g|))
  }

  function StatsTable(rows: seq<Row>, d: Dimension, ks: seq<string>): (t: seq<GroupStats>)
    ensures |t| == |ks|
    ensures forall i :: 0 <= i < |ks| ==> t[i] == GroupStatsOf(ks[i], Group(rows, KeyOf(d), ks[i]))
  {
    if ks == [] then [] else [GroupStatsOf(ks[0], Group(rows, KeyOf(d), ks[0]))] + StatsTable(rows, d, ks[1..])
  }

  function RateOf(g: GroupStats): int { g.delayRate }

  datatype Comparison =
    | FieldNotFound(name: string)       // the `{"error": "Field '...' not found"}` result
    | Groups(stats: seq<GroupStats>)

  /**
   * `compare_performance(df, field)`: per-value statistics, highest delay rate
   * first; a name that is not a column of the table gives the not-found result.
   */
  function Compare(t: Table, field: string): Result<Comparison, AnalysisError> {
    match FieldOf(field)
    case Unknown(_) => Success(FieldNotFound(field))
    case Column(d) =>
      if !HasColumn(t.schema, d) then Success(FieldNotFound(field))
      else if !t.schema.hasFeedback then Failure(MissingColumn("rating"))
      else Success(Groups(SortDesc(StatsTable(t.rows, d, KeysOf(t.rows, KeyOf(d))), RateOf)))
  }

  /** The column name of a dimension, as the error message quotes it. */
  function DimensionName(d: Dimension): string {
    match d
    case OrderId => "order_id"
    case ClientId => "client_id"
    case City => "city"
    case WarehouseId => "warehouse_id"
    case Status => "status"
    case FailureReason => "failure_reason"
    case WarehouseName => "warehouse_name"
    case ManagerName => "manager_name"
    case ClientName => "client_name"
    case ContactPerson => "contact_person"
    case DriverId => "driver_id"
    case VehicleNumber => "vehicle_number"
    case RouteCode => "route_code"
    case DriverName => "driver_name"
    case PartnerCompany => "partner_company"
    case GpsDelayNotes => "gps_delay_notes"
    case DepartureTime => "departure_time"
    case ArrivalTime => "arrival_time"
    case StatusX => "status_x"
    case DriverStatus => "status_y"
    case PickingStart => "picking_start"
    case PickingEnd => "picking_end"
    case DispatchTime => "dispatch_time"
    case Notes => "notes"
    case TrafficCondition => "traffic_condition"
    case WeatherCondition => "weather_condition"
    case EventType => "event_type"
    case FeedbackText => "feedback_text"
    case Sentiment => "sentiment"
    case PrimaryRootCause => "primary_root_cause"
    case SeverityTier => "severity"
    case OrderDayOfWeek => "order_day_of_week"
    case OrderMonth => "order_month"
  }

  /** A column the table has. */
  predicate IsColumnOf(t: Table, name: string) {
    exists d :: DimensionName(d) == name && HasColumn(t.schema, d)
  }

  /** The not-found result comes exactly for a name that is not a column of the table. */
  lemma CompareNotFoundIff(t: Table, field: string)
    ensures Compare(t, field) == Success(FieldNotFound(field)) <==> !IsColumnOf(t, field)
  {
    var f := FieldOf(field);
    if f.Column? && HasColumn(t.schema, f.dim) {
      assert IsColumnOf(t, field);
    }
    if IsColumnOf(t, field) {
      var d :| DimensionName(d) == field && HasColumn(t.schema, d);
      FieldOfName(d);
    }
  }

  /** A column's name names a column of the table exactly when the merges created that column. */
  lemma ColumnOfName(t: Table, d: Dimension, name: string)
    requires DimensionName(d) == name
    ensures IsColumnOf(t, name) <==> HasColumn(t.schema, d)
  {
    if IsColumnOf(t, name) {
      var d' :| DimensionName(d') == name && HasColumn(t.schema, d');
      DimensionNameInjective(d', d);
    }
  }

  /** The feature pass always adds `severity`; the drivers merge adds `status_x`. */
  lemma SeverityColumn(t: Table)
    ensures IsColumnOf(t, DimensionName(SeverityTier))
    ensures IsColumnOf(t, DimensionName(StatusX)) <==> t.schema.hasDrivers
  {
    ColumnOfName(t, SeverityTier, DimensionName(SeverityTier));
    ColumnOfName(t, StatusX, DimensionName(StatusX));
  }

  /** The fleet summary adds `gps_delay_notes`, `departure_time` and `arrival_time`. */
  lemma FleetTextColumns(t: Table)
    ensures IsColumnOf(t, DimensionName(GpsDelayNotes)) <==> t.schema.hasFleet
    ensures IsColumnOf(t, DimensionName(DepartureTime)) <==> t.schema.hasFleet
    ensures IsColumnOf(t, DimensionName(ArrivalTime)) <==> t.schema.hasFleet
  {
    ColumnOfName(t, GpsDelayNotes, DimensionName(GpsDelayNotes));
    ColumnOfName(t, DepartureTime, DimensionName(DepartureTime));
    ColumnOfName(t, ArrivalTime, DimensionName(ArrivalTime));
  }

  /** The warehouse log summary adds `picking_start` and `picking_end`... */
  lemma PickingColumns(t: Table)
    ensures IsColumnOf(t, DimensionName(PickingStart)) <==> t.schema.hasWarehouseLogs
    ensures IsColumnOf(t, DimensionName(PickingEnd)) <==> t.schema.hasWarehouseLogs
  {
    ColumnOfName(t, PickingStart, DimensionName(PickingStart));
    ColumnOfName(t, PickingEnd, DimensionName(PickingEnd));
  }

  /** ... and `dispatch_time` and `notes`. */
  lemma DispatchColumns(t: Table)
    ensures IsColumnOf(t, DimensionName(DispatchTime)) <==> t.schema.hasWarehouseLogs
    ensures IsColumnOf(t, DimensionName(Notes)) <==> t.schema.hasWarehouseLogs
  {
    ColumnOfName(t, DispatchTime, DimensionName(DispatchTime));
    ColumnOfName(t, Notes, DimensionName(Notes));
  }

  /** The feedback summary adds `feedback_text`. */
  lemma FeedbackTextColumn(t: Table)
    ensures IsColumnOf(t, DimensionName(FeedbackText)) <==> t.schema.hasFeedback
  {
    ColumnOfName(t, FeedbackText, DimensionName(FeedbackText));
  }

  /** With ratings present, comparing by a column the table has groups by that column's values. */
  lemma CompareByColumn(t: Table, d: Dimension, field: string)
    requires DimensionName(d) == field
    requires t.schema.hasFeedback && HasColumn(t.schema, d)
    ensures Compare(t, field).Success? && Compare(t, field).value.Groups?
    ensures var gs := Compare(t, field).value.stats;
      forall i :: 0 <= i < |gs| ==> exists j :: 0 <= j < |t.rows| && DimensionValue(d, t.rows[j]) == Some(gs[i].key)
  {
    FieldOfName(d);
    CompareGroupKeys(t, field);
    var gs := Compare(t, field).value.stats;
    forall i | 0 <= i < |gs|
      ensures exists j :: 0 <= j < |t.rows| && DimensionValue(d, t.rows[j]) == Some(gs[i].key)
    {
      assert HasKey(t.rows, KeyOf(d), gs[i].key);
    }
  }

  /** Comparing by `severity` groups by the tier names the rows carry. */
  lemma CompareBySeverity(t: Table)
    requires t.schema.hasFeedback
    ensures Compare(t, "severity").Success? && Compare(t, "severity").value.Groups?
    ensures var gs := Compare(t, "severity").value.stats;
      forall i :: 0 <= i < |gs| ==> exists j :: 0 <= j < |t.rows| && gs[i].key == SeverityName(t.rows[j].severity)
  {
    CompareByColumn(t, SeverityTier, "severity");
  }

  /**
   * Per group, delayed orders never exceed total orders, so the rate lies in
   * [0, 100] percent; groups come highest rate first; and group totals add up
   * to the rows whose value in the compared column is not null.
   */
  lemma CompareProperties(t: Table, field: string)
    requires Compare(t, field).Success? && Compare(t, field).value.Groups?
    ensures FieldOf(field).Column?
    ensures var gs := Compare(t, field).value.stats;
      && NonIncreasing(gs, RateOf)
      && (forall i :: 0 <= i < |gs| ==>
            0 < gs[i].totalOrders && gs[i].delayedOrders <= gs[i].totalOrders && 0 <= gs[i].delayRate <= 10000)
      && SumBy(gs, TotalOf) == CountKeyed(t.rows, KeyOf(FieldOf(field).dim))
  {
    var d := FieldOf(field).dim;
    var ks := KeysOf(t.rows, KeyOf(d));
    var table := StatsTable(t.rows, d, ks);
    var gs := Compare(t, field).value.stats;
    forall i | 0 <= i < |gs| ensures 0 < gs[i].totalOrders && gs[i].delayedOrders <= gs[i].totalOrders
      && 0 <= gs[i].delayRate <= 10000
    {
      SortDescFrom(table, RateOf, i);
      StatsTableBounds(t.rows, d, ks, gs[i]);
    }
    SumBySortDesc(table, RateOf, TotalOf);
    StatsTableSizes(t.rows, d, ks);
    GroupSizesTotal(t.rows, KeyOf(d));
  }

  /** The group keys are exactly the non-null values of the compared column. */
  lemma CompareGroupKeys(t: Table, field: string)
    requires Compare(t, field).Success? && Compare(t, field).value.Groups?
    ensures FieldOf(field).Column?
    ensures var gs := Compare(t, field).value.stats;
      forall i :: 0 <= i < |gs| ==> HasKey(t.rows, KeyOf(FieldOf(field).dim), gs[i].key)
    ensures var gs := Compare(t, field).value.stats;
      forall k :: HasKey(t.rows, KeyOf(FieldOf(field).dim), k) ==> exists i :: 0 <= i < |gs| && gs[i].key == k
  {
    var d := FieldOf(field).dim;
    var ks := KeysOf(t.rows, KeyOf(d));
    CompareGroupsValue(t, field);
    StatsTableKeys(t.rows, d, ks);
    SortDescKeys(StatsTable(t.rows, d, ks), RateOf, StatsKey, ks);
  }

  lemma CompareGroupsValue(t: Table, field: string)
    requires Compare(t, field).Success? && Compare(t, field).value.Groups?
    ensures FieldOf(field).Column?
    ensures var d := FieldOf(field).dim;
      Compare(t, field).value.stats == SortDesc(StatsTable(t.rows, d, KeysOf(t.rows, KeyOf(d))), RateOf)
  {
  }

  function StatsKey(g: GroupStats): string { g.key }

  lemma StatsTableKeys(rows: seq<Row>, d: Dimension, ks: seq<string>)
    ensures |StatsTable(rows, d, ks)| == |ks|
    ensures forall j :: 0 <= j < |ks| ==> StatsKey(StatsTable(rows, d, ks)[j]) == ks[j]
  {
  }

  /** Each group of a reported key is non-empty and its delay rate is a percentage. */
  lemma StatsTableBounds(rows: seq<Row>, d: Dimension, ks: seq<string>, g: GroupStats)
    requires forall k :: k in ks ==> k in KeysOf(rows, KeyOf(d))
    requires g in StatsTable(rows, d, ks)
    ensures 0 < g.totalOrders && g.delayedOrders <= g.totalOrders && 0 <= g.delayRate <= 10000
  {
    var table := StatsTable(rows, d, ks);
    var j :| 0 <= j < |table| && table[j] == g;
    GroupNonEmpty(rows, KeyOf(d), ks[j]);
    var grp := Group(rows, KeyOf(d), ks[j]);
    RateBounds(CountWhere(grp, IsDelayedRow), |grp|);
  }

  function TotalOf(g: GroupStats): int { g.totalOrders }

  lemma {:induction false} StatsTableSizes(rows: seq<Row>, d: Dimension, ks: seq<string>)
    ensures SumBy(StatsTable(rows, d, ks), TotalOf) == GroupSizes(rows, KeyOf(d), ks)
  {
    if ks != [] {
      StatsTableSizes(rows, d, ks[1..]);
      var t := StatsTable(rows, d, ks);
      assert t[1..] == StatsTable(rows, d, ks[1..]);
    }
  }

  /** A key that `groupby` reports has at least one row. */
  lemma GroupNonEmpty(rows: seq<Row>, key: Row -> Option<string>, k: string)
    requires k in KeysOf(rows, key)
    ensures |Group(rows, key, k)| > 0
  {
    var i :| 0 <= i < |rows| && key(rows[i]) == Some(k);
    assert rows[i] in Group(rows, key, k);
  }
}
