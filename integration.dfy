/**
 * Dataset integration: the orders table, left-joined step by step with the
 * warehouse, client, fleet-log, driver, warehouse-log, external-factor and
 * feedback sources. One-to-many sources are first reduced to one row per
 * order id with per-column reducers (first non-null, note concatenation, mean).
 *
 * Join keys are nullable and follow pandas `merge`: a null key matches a null key.
 */
module Integration {
  import opened Wrappers
  import opened Text
  import opened Grouping
  import opened Records

  // ------------------------------------------------------------- reducers

  /** pandas `first` in a group-by: the first non-null value, or null. */
  function FirstValid<X>(vs: seq<Option<X>>): (r: Option<X>)
    ensures r.None? <==> forall i :: 0 <= i < |vs| ==> vs[i].None?
    ensures r.Some? ==> exists i :: 0 <= i < |vs| && vs[i] == r && forall j :: 0 <= j < i ==> vs[j].None?
  {
    if vs == [] then None
    else if vs[0].Some? then vs[0]
    else
      var r := FirstValid(vs[1..]);
      assert forall i :: 0 <= i < |vs[1..]| ==> vs[1..][i] == vs[i + 1];
      r
  }

  /** The non-null, non-empty strings among `vs`, in order. */
  function NonEmptyValues(vs: seq<Option<string>>): (r: seq<string>)
    ensures forall i :: 0 <= i < |r| ==> r[i] != "" && Some(r[i]) in vs
  {
    if vs == [] then []
    else (if vs[0].Some? && vs[0].value != "" then [vs[0].value] else []) + NonEmptyValues(vs[1..])
  }

  /**
   * The notes reducer: `', '.join` of the non-null, non-empty notes when some
   * note is non-null, otherwise null.
   */
  function JoinNotes(vs: seq<Option<string>>): Option<string> {
    if exists i :: 0 <= i < |vs| && vs[i].Some? then Some(Join(", ", NonEmptyValues(vs))) else None
  }

  /** The notes reducer is null exactly when every note of the group is null. */
  lemma JoinNotesNull(vs: seq<Option<string>>)
    ensures JoinNotes(vs).None? <==> forall i :: 0 <= i < |vs| ==> vs[i].None?
  {
  }

  /** A single non-empty note is kept as it is; empty and null ones vanish. */
  lemma {:induction false} JoinNotesSingle(vs: seq<Option<string>>, k: nat)
    requires k < |vs| && vs[k].Some? && vs[k].value != ""
    requires forall i :: 0 <= i < |vs| && i != k ==> vs[i].None? || vs[i] == Some("")
    ensures JoinNotes(vs) == vs[k]
  {
    NonEmptyOnly(vs, k);
  }

  lemma {:induction false} NonEmptyOnly(vs: seq<Option<string>>, k: nat)
    requires k < |vs| && vs[k].Some? && vs[k].value != ""
    requires forall i :: 0 <= i < |vs| && i != k ==> vs[i].None? || vs[i] == Some("")
    ensures NonEmptyValues(vs) == [vs[k].value]
  {
    if k == 0 {
      NoneNonEmpty(vs[1..]);
    } else {
      NonEmptyOnly(vs[1..], k - 1);
    }
  }

  lemma {:induction false} NoneNonEmpty(vs: seq<Option<string>>)
    requires forall i :: 0 <= i < |vs| ==> vs[i].None? || vs[i] == Some("")
    ensures NonEmptyValues(vs) == []
  {
    if vs != [] { NoneNonEmpty(vs[1..]); }
  }

  /** The non-null values among `vs`, in order. */
  function Present<X>(vs: seq<Option<X>>): (r: seq<X>)
    ensures |r| <= |vs|
  {
    if vs == [] then [] else (if vs[0].Some? then [vs[0].value] else []) + Present(vs[1..])
  }

  function Sum(xs: seq<int>): int {
    if xs == [] then 0 else xs[0] + Sum(xs[1..])
  }

  /** pandas `mean` (null values skipped; null when none is left). */
  function MeanOf(vs: seq<Option<int>>): (r: Option<real>)
    ensures r.Some? <==> Present(vs) != []
  {
    var xs := Present(vs);
    if xs == [] then None else Some(Sum(xs) as real / |xs| as real)
  }

  // ------------------------------------------------------ group reductions

  /** `groupby(key).agg(...)`: one entry per non-null key, in key order. */
  function Reduce<R(==), S>(rows: seq<R>, key: R -> Option<string>, summarize: (string, seq<R>) -> S): (r: seq<(string, S)>)
    ensures |r| == |KeysOf(rows, key)|
    ensures forall i :: 0 <= i < |r| ==>
      r[i] == (KeysOf(rows, key)[i], summarize(KeysOf(rows, key)[i], Group(rows, key, KeysOf(rows, key)[i])))
  {
    var ks := KeysOf(rows, key);
    seq(|ks|, i requires 0 <= i < |ks| => (ks[i], summarize(ks[i], Group(rows, key, ks[i]))))
  }

  /** The key of a reduced entry, as a join key. */
  function EntryKey<S>(e: (string, S)): Option<string> {
    Some(e.0)
  }

  // ------------------------------------------------------------ left join

  /** The rows of `right` whose key equals `k` (null matches null). */
  function Matches<R(==)>(right: seq<R>, rkey: R -> Option<string>, k: Option<string>): seq<R> {
    if right == [] then []
    else (if rkey(right[0]) == k then [right[0]] else []) + Matches(right[1..], rkey, k)
  }

  /** The first row of `right` with key `k`. */
  function Lookup<R>(right: seq<R>, rkey: R -> Option<string>, k: Option<string>): (r: Option<R>)
    ensures r.Some? ==> r.value in right && rkey(r.value) == k
  {
    if right == [] then None
    else if rkey(right[0]) == k then Some(right[0])
    else Lookup(right[1..], rkey, k)
  }

  /** The output rows pandas produces for one left row. */
  function JoinOne<R>(l: Row, ms: seq<R>, fill: (Row, Option<R>) -> Row): (out: seq<Row>)
    ensures |out| == if ms == [] then 1 else |ms|
  {
    if ms == [] then [fill(l, None)] else FillEach(l, ms, fill)
  }

  function FillEach<R>(l: Row, ms: seq<R>, fill: (Row, Option<R>) -> Row): (out: seq<Row>)
    ensures |out| == |ms|
    ensures forall i :: 0 <= i < |ms| ==> out[i] == fill(l, Some(ms[i]))
  {
    if ms == [] then [] else [fill(l, Some(ms[0]))] + FillEach(l, ms[1..], fill)
  }

  /**
   * `left.merge(right, how='left')`: each left row, in order, once per matching
   * right row, or once with the right columns null when nothing matches.
   */
  function LeftJoin<R(==)>(left: seq<Row>, right: seq<R>, lkey: Row -> Option<string>,
                           rkey: R -> Option<string>, fill: (Row, Option<R>) -> Row): (out: seq<Row>)
    ensures |out| >= |left|
  {
    if left == [] then []
    else JoinOne(left[0], Matches(right, rkey, lkey(left[0])), fill) + LeftJoin(left[1..], right, lkey, rkey, fill)
  }

  /** The order ids of rows, top to bottom. */
  function OrderIds(rows: seq<Row>): (ids: seq<string>)
    ensures |ids| == |rows| && forall i :: 0 <= i < |rows| ==> ids[i] == rows[i].orderId
  {
    seq(|rows|, i requires 0 <= i < |rows| => rows[i].orderId)
  }

  /** `fill` never changes the order id of the row it fills. */
  ghost predicate KeepsOrderId<R(!new)>(fill: (Row, Option<R>) -> Row) {
    forall r: Row, x: Option<R> :: fill(r, x).orderId == r.orderId
  }

  /** The rows one left row turns into all carry its order id, and there is at least one. */
  lemma JoinOneIds<R(!new)>(l: Row, ms: seq<R>, fill: (Row, Option<R>) -> Row)
    requires KeepsOrderId(fill)
    ensures OrderIds(JoinOne(l, ms, fill)) != []
    ensures OrderIds(JoinOne(l, ms, fill))[0] == l.orderId
  {
    if ms != [] {
      assert JoinOne(l, ms, fill)[0] == fill(l, Some(ms[0]));
    }
  }

  /**
   * Whatever the key multiplicities, a left join drops no left row: the
   * left order ids reappear, in their order, among the output's.
   */
  lemma {:induction false} LeftJoinKeepsIds<R(!new)>(left: seq<Row>, right: seq<R>, lkey: Row -> Option<string>,
                                               rkey: R -> Option<string>, fill: (Row, Option<R>) -> Row)
    requires KeepsOrderId(fill)
    ensures IsSubsequence(OrderIds(left), OrderIds(LeftJoin(left, right, lkey, rkey, fill)))
  {
    if left != [] {
      var head := JoinOne(left[0], Matches(right, rkey, lkey(left[0])), fill);
      var tail := LeftJoin(left[1..], right, lkey, rkey, fill);
      LeftJoinKeepsIds(left[1..], right, lkey, rkey, fill);
      JoinOneIds(left[0], Matches(right, rkey, lkey(left[0])), fill);
      OrderIdsAppend(head, tail);
      OrderIdsCons(left);
      SubsequenceCons(left[0].orderId, OrderIds(left[1..]), OrderIds(head), OrderIds(tail));
    }
  }

  lemma OrderIdsAppend(a: seq<Row>, b: seq<Row>)
    ensures OrderIds(a + b) == OrderIds(a) + OrderIds(b)
  {
  }

  lemma OrderIdsCons(rows: seq<Row>)
    requires rows != []
    ensures OrderIds(rows) == [rows[0].orderId] + OrderIds(rows[1..])
  {
  }

  /** No two rows of `right` share a key. */
  predicate UniqueKeys<R>(right: seq<R>, rkey: R -> Option<string>) {
    forall i, j :: 0 <= i < j < |right| ==> rkey(right[i]) != rkey(right[j])
  }

  lemma {:induction false} MatchesUnique<R>(right: seq<R>, rkey: R -> Option<string>, k: Option<string>)
    requires UniqueKeys(right, rkey)
    ensures Matches(right, rkey, k) == match Lookup(right, rkey, k) case None => [] case Some(x) => [x]
  {
    if right != [] {
      assert UniqueKeys(right[1..], rkey) by {
        forall i, j | 0 <= i < j < |right[1..]| ensures rkey(right[1..][i]) != rkey(right[1..][j]) {
          assert right[1..][i] == right[i + 1] && right[1..][j] == right[j + 1];
        }
      }
      MatchesUnique(right[1..], rkey, k);
      if rkey(right[0]) == k {
        NoMatchInTail(right, rkey, k);
      }
    }
  }

  lemma {:induction false} NoMatchInTail<R>(right: seq<R>, rkey: R -> Option<string>, k: Option<string>)
    requires UniqueKeys(right, rkey) && right != [] && rkey(right[0]) == k
    ensures Lookup(right[1..], rkey, k).None?
  {
    forall j | 0 <= j < |right[1..]| ensures rkey(right[1..][j]) != k {
      assert right[1..][j] == right[j + 1];
    }
    LookupNone(right[1..], rkey, k);
  }

  lemma {:induction false} LookupNone<R>(right: seq<R>, rkey: R -> Option<string>, k: Option<string>)
    requires forall j :: 0 <= j < |right| ==> rkey(right[j]) != k
    ensures Lookup(right, rkey, k).None?
  {
    if right != [] {
      assert forall j :: 0 <= j < |right[1..]| ==> right[1..][j] == right[j + 1];
      LookupNone(right[1..], rkey, k);
    }
  }

  /**
   * With unique right-hand keys a left join keeps the row count and the row
   * order, and row `i` is left row `i` filled from its one match.
   */
  lemma {:induction false} LeftJoinUnique<R>(left: seq<Row>, right: seq<R>, lkey: Row -> Option<string>,
                                             rkey: R -> Option<string>, fill: (Row, Option<R>) -> Row)
    requires UniqueKeys(right, rkey)
    ensures |LeftJoin(left, right, lkey, rkey, fill)| == |left|
    ensures forall i :: 0 <= i < |left| ==>
      LeftJoin(left, right, lkey, rkey, fill)[i] == fill(left[i], Lookup(right, rkey, lkey(left[i])))
  {
    if left != [] {
      MatchesUnique(right, rkey, lkey(left[0]));
      LeftJoinUnique(left[1..], right, lkey, rkey, fill);
      var out := LeftJoin(left, right, lkey, rkey, fill);
      var head := JoinOne(left[0], Matches(right, rkey, lkey(left[0])), fill);
      assert head == [fill(left[0], Lookup(right, rkey, lkey(left[0])))];
      assert out == head + LeftJoin(left[1..], right, lkey, rkey, fill);
      forall i | 0 < i < |left| ensures out[i] == fill(left[i], Lookup(right, rkey, lkey(left[i]))) {
        assert out[i] == LeftJoin(left[1..], right, lkey, rkey, fill)[i - 1];
        assert left[1..][i - 1] == left[i];
      }
    }
  }

  /** A reduced source has one entry per key, so joining it keeps rows. */
  lemma ReducedUnique<R, S>(rows: seq<R>, key: R -> Option<string>, summarize: (string, seq<R>) -> S)
    ensures UniqueKeys(Reduce(rows, key, summarize), EntryKey)
  {
    var ks := KeysOf(rows, key);
    SortedDistinct(ks);
  }

  /** Looking up a key in a reduced source is reducing that key's group. */
  lemma {:induction false} LookupReduce<R, S>(rows: seq<R>, key: R -> Option<string>,
                                              summarize: (string, seq<R>) -> S, k: string)
    ensures Lookup(Reduce(rows, key, summarize), EntryKey, Some(k)) ==
      if HasKey(rows, key, k) then Some((k, summarize(k, Group(rows, key, k)))) else None
  {
    var red := Reduce(rows, key, summarize);
    ReducedUnique(rows, key, summarize);
    var ks := KeysOf(rows, key);
    if HasKey(rows, key, k) {
      var i :| 0 <= i < |ks| && ks[i] == k;
      LookupAt(red, EntryKey, i);
    } else {
      forall j | 0 <= j < |red| ensures EntryKey(red[j]) != Some(k) {
        assert ks[j] in ks;
      }
      LookupNone(red, EntryKey, Some(k));
    }
  }

  lemma {:induction false} LookupAt<R>(right: seq<R>, rkey: R -> Option<string>, i: nat)
    requires UniqueKeys(right, rkey) && i < |right|
    ensures Lookup(right, rkey, rkey(right[i])) == Some(right[i])
  {
    if i > 0 {
      assert UniqueKeys(right[1..], rkey) by {
        forall a, b | 0 <= a < b < |right[1..]| ensures rkey(right[1..][a]) != rkey(right[1..][b]) {
          assert right[1..][a] == right[a + 1] && right[1..][b] == right[b + 1];
        }
      }
      LookupAt(right[1..], rkey, i - 1);
    }
  }

  // ---------------------------------------------------- the source summaries

  datatype FleetSummary = FleetSummary(driverId: Option<string>, vehicleNumber: Option<string>,
    routeCode: Option<string>, gpsDelayNotes: Option<string>, departureTime: Option<string>,
    arrivalTime: Option<string>)

  datatype WarehouseLogSummary = WarehouseLogSummary(pickingStart: Option<string>,
    pickingEnd: Option<string>, dispatchTime: Option<string>, notes: Option<string>)

  datatype ExternalSummary = ExternalSummary(trafficCondition: Option<string>,
    weatherCondition: Option<string>, eventType: Option<string>)

  datatype FeedbackSummary = FeedbackSummary(feedbackText: string, sentiment: Option<string>,
    rating: Option<real>)

  function FleetOrderKey(l: FleetLogRow): Option<string> { l.orderId }
  function WarehouseLogOrderKey(l: WarehouseLogRow): Option<string> { l.orderId }
  function ExternalOrderKey(l: ExternalFactorRow): Option<string> { l.orderId }
  function FeedbackOrderKey(l: FeedbackRow): Option<string> { l.orderId }

  /** Fleet logs: `first` for every column except `gps_delay_notes`, which is joined. */
  function SummarizeFleet(k: string, g: seq<FleetLogRow>): FleetSummary {
    FleetSummary(
      FirstValid(seq(|g|, i requires 0 <= i < |g| => g[i].driverId)),
      FirstValid(seq(|g|, i requires 0 <= i < |g| => g[i].vehicleNumber)),
      FirstValid(seq(|g|, i requires 0 <= i < |g| => g[i].routeCode)),
      JoinNotes(seq(|g|, i requires 0 <= i < |g| => g[i].gpsDelayNotes)),
      FirstValid(seq(|g|, i requires 0 <= i < |g| => g[i].departureTime)),
      FirstValid(seq(|g|, i requires 0 <= i < |g| => g[i].arrivalTime)))
  }

  /** Warehouse logs: `first` for the times, joined `notes`. */
  function SummarizeWarehouseLog(k: string, g: seq<WarehouseLogRow>): WarehouseLogSummary {
    WarehouseLogSummary(
      FirstValid(seq(|g|, i requires 0 <= i < |g| => g[i].pickingStart)),
      FirstValid(seq(|g|, i requires 0 <= i < |g| => g[i].pickingEnd)),
      FirstValid(seq(|g|, i requires 0 <= i < |g| => g[i].dispatchTime)),
      JoinNotes(seq(|g|, i requires 0 <= i < |g| => g[i].notes)))
  }

  /** External factors: `first` for the conditions, joined `event_type`. */
  function SummarizeExternal(k: string, g: seq<ExternalFactorRow>): ExternalSummary {
    ExternalSummary(
      FirstValid(seq(|g|, i requires 0 <= i < |g| => g[i].trafficCondition)),
      FirstValid(seq(|g|, i requires 0 <= i < |g| => g[i].weatherCondition)),
      JoinNotes(seq(|g|, i requires 0 <= i < |g| => g[i].eventType)))
  }

  /**
   * Feedback: `' | '.join` of every text, `first` sentiment, mean rating.
   * Only used once no keyed feedback row has a null text (the join would raise).
   */
  function SummarizeFeedback(k: string, g: seq<FeedbackRow>): FeedbackSummary {
    FeedbackSummary(
      Join(" | ", seq(|g|, i requires 0 <= i < |g| => g[i].feedbackText.GetOr(""))),
      FirstValid(seq(|g|, i requires 0 <= i < |g| => g[i].sentiment)),
      MeanOf(seq(|g|, i requires 0 <= i < |g| => g[i].rating)))
  }

  /** `' | '.join` meets a NaN (a float) and raises TypeError. */
  predicate FeedbackTextNull(fb: seq<FeedbackRow>) {
    exists i :: 0 <= i < |fb| && fb[i].orderId.Some? && fb[i].feedbackText.None?
  }

  // ------------------------------------------------------------ join stages

  function WarehouseCityKey(w: WarehouseRow): Option<string> { w.city }

  /** `groupby('city')['warehouse_id'].first()` for one city group. */
  function FirstWarehouseId(city: string, g: seq<WarehouseRow>): Option<string> {
    FirstValid(seq(|g|, i requires 0 <= i < |g| => g[i].warehouseId))
  }

  /** `df['city'].map(mapping)`: unmapped and null cities give null. */
  function MapCity(mapping: seq<(string, Option<string>)>, city: Option<string>): Option<string> {
    match city
    case None => None
    case Some(c) =>
      match Lookup(mapping, EntryKey, Some(c))
      case None => None
      case Some(e) => e.1
  }

  /** Overwrites every order's `warehouse_id` with the first warehouse of its city. */
  function AssignWarehouseIds(rows: seq<Row>, ws: seq<WarehouseRow>): (out: seq<Row>)
    ensures |out| == |rows|
    ensures forall i :: 0 <= i < |rows| ==>
      out[i] == rows[i].(warehouseId := MapCity(Reduce(ws, WarehouseCityKey, FirstWarehouseId), rows[i].city))
  {
    var mapping := Reduce(ws, WarehouseCityKey, FirstWarehouseId);
    seq(|rows|, i requires 0 <= i < |rows| => rows[i].(warehouseId := MapCity(mapping, rows[i].city)))
  }

  function RowWarehouseKey(r: Row): Option<string> { r.warehouseId }
  function WarehouseKey(w: WarehouseRow): Option<string> { w.warehouseId }
  function RowClientKey(r: Row): Option<string> { r.clientId }
  function ClientKey(c: ClientRow): Option<string> { c.clientId }
  function RowOrderKey(r: Row): Option<string> { Some(r.orderId) }
  function RowDriverKey(r: Row): Option<string> { r.driverId }
  function DriverKey(d: DriverRow): Option<string> { d.driverId }

  function WithWarehouse(r: Row, w: Option<WarehouseRow>): Row {
    match w
    case None => r.(warehouseName := None, capacity := None, managerName := None)
    case Some(x) => r.(warehouseName := x.warehouseName, capacity := x.capacity, managerName := x.managerName)
  }

  function WithClient(r: Row, c: Option<ClientRow>): Row {
    match c
    case None => r.(clientName := None, contactPerson := None)
    case Some(x) => r.(clientName := x.clientName, contactPerson := x.contactPerson)
  }

  function WithFleet(r: Row, e: Option<(string, FleetSummary)>): Row {
    match e
    case None => r.(driverId := None, vehicleNumber := None, routeCode := None,
                    gpsDelayNotes := None, departureTime := None, arrivalTime := None)
    case Some((_, f)) => r.(driverId := f.driverId, vehicleNumber := f.vehicleNumber, routeCode := f.routeCode,
                            gpsDelayNotes := f.gpsDelayNotes, departureTime := f.departureTime,
                            arrivalTime := f.arrivalTime)
  }

  /** The drivers merge; both sides have `status`, so it splits into `status_x` and `status_y`. */
  function WithDriver(r: Row, d: Option<DriverRow>): Row {
    match d
    case None => r.(driverName := None, partnerCompany := None, driverStatus := None,
                    statusX := r.status, status := None)
    case Some(x) => r.(driverName := x.driverName, partnerCompany := x.partnerCompany,
                       driverStatus := x.status, statusX := r.status, status := None)
  }

  function WithWarehouseLog(r: Row, e: Option<(string, WarehouseLogSummary)>): Row {
    match e
    case None => r.(pickingStart := None, pickingEnd := None, dispatchTime := None, notes := None)
    case Some((_, w)) => r.(pickingStart := w.pickingStart, pickingEnd := w.pickingEnd,
                            dispatchTime := w.dispatchTime, notes := w.notes)
  }

  function WithExternal(r: Row, e: Option<(string, ExternalSummary)>): Row {
    match e
    case None => r.(trafficCondition := None, weatherCondition := None, eventType := None)
    case Some((_, x)) => r.(trafficCondition := x.trafficCondition, weatherCondition := x.weatherCondition,
                            eventType := x.eventType)
  }

  function WithFeedback(r: Row, e: Option<(string, FeedbackSummary)>): Row {
    match e
    case None => r.(feedbackText := None, sentiment := None, rating := None)
    case Some((_, f)) => r.(feedbackText := Some(f.feedbackText), sentiment := f.sentiment, rating := f.rating)
  }

  // ------------------------------------------------------------- the stages

  function WarehouseStage(rows: seq<Row>, ws: seq<WarehouseRow>): seq<Row> {
    LeftJoin(AssignWarehouseIds(rows, ws), ws, RowWarehouseKey, WarehouseKey, WithWarehouse)
  }

  function ClientStage(rows: seq<Row>, cs: seq<ClientRow>): seq<Row> {
    LeftJoin(rows, cs, RowClientKey, ClientKey, WithClient)
  }

  function FleetStage(rows: seq<Row>, logs: seq<FleetLogRow>): seq<Row> {
    LeftJoin(rows, Reduce(logs, FleetOrderKey, SummarizeFleet), RowOrderKey, EntryKey, WithFleet)
  }

  function DriverStage(rows: seq<Row>, ds: seq<DriverRow>): seq<Row> {
    LeftJoin(rows, ds, RowDriverKey, DriverKey, WithDriver)
  }

  function WarehouseLogStage(rows: seq<Row>, logs: seq<WarehouseLogRow>): seq<Row> {
    LeftJoin(rows, Reduce(logs, WarehouseLogOrderKey, SummarizeWarehouseLog), RowOrderKey, EntryKey, WithWarehouseLog)
  }

  function ExternalStage(rows: seq<Row>, xs: seq<ExternalFactorRow>): seq<Row> {
    LeftJoin(rows, Reduce(xs, ExternalOrderKey, SummarizeExternal), RowOrderKey, EntryKey, WithExternal)
  }

  function FeedbackStage(rows: seq<Row>, fb: seq<FeedbackRow>): seq<Row> {
    LeftJoin(rows, Reduce(fb, FeedbackOrderKey, SummarizeFeedback), RowOrderKey, EntryKey, WithFeedback)
  }

  datatype IntegrationError =
    | OrdersMissing          // ValueError: orders are the primary dataset
    | FeedbackTextNotString  // TypeError raised by the feedback text join

  /** The columns the joined table has. */
  function JoinedSchema(src: Sources): (s: Schema)
    ensures s.hasStatus <==> !(src.drivers.Some? && src.fleetLogs.Some?)
  {
    var drivers := src.drivers.Some? && src.fleetLogs.Some?;
    Schema(src.warehouses.Some?, src.clients.Some?, src.fleetLogs.Some?, drivers,
           src.warehouseLogs.Some?, src.externalFactors.Some?, src.feedback.Some?, !drivers)
  }

  /** Whether integration raises, and with what. */
  function IntegrationFailure(src: Sources): Option<IntegrationError> {
    if src.orders.None? then Some(OrdersMissing)
    else if src.feedback.Some? && FeedbackTextNull(src.feedback.value) then Some(FeedbackTextNotString)
    else None
  }

  /** Every orders row, first of all. */
  function OrderRows(orders: seq<OrderRow>): (rows: seq<Row>)
    ensures |rows| == |orders| && forall i :: 0 <= i < |orders| ==> rows[i] == FromOrder(orders[i])
  {
    seq(|orders|, i requires 0 <= i < |orders| => FromOrder(orders[i]))
  }

  // Each merge stage of `create_integrated_dataset`, skipped when its source is missing.

  function WarehousesStage(src: Sources, rows: seq<Row>): seq<Row> {
    if src.warehouses.Some? then WarehouseStage(rows, src.warehouses.value) else rows
  }

  function ClientsStage(src: Sources, rows: seq<Row>): seq<Row> {
    if src.clients.Some? then ClientStage(rows, src.clients.value) else rows
  }

  function FleetLogsStage(src: Sources, rows: seq<Row>): seq<Row> {
    if src.fleetLogs.Some? then FleetStage(rows, src.fleetLogs.value) else rows
  }

  /** Drivers are merged on `driver_id`, which only the fleet logs bring. */
  function DriversStage(src: Sources, rows: seq<Row>): seq<Row> {
    if src.drivers.Some? && src.fleetLogs.Some? then DriverStage(rows, src.drivers.value) else rows
  }

  function WarehouseLogsStage(src: Sources, rows: seq<Row>): seq<Row> {
    if src.warehouseLogs.Some? then WarehouseLogStage(rows, src.warehouseLogs.value) else rows
  }

  function ExternalFactorsStage(src: Sources, rows: seq<Row>): seq<Row> {
    if src.externalFactors.Some? then ExternalStage(rows, src.externalFactors.value) else rows
  }

  function FeedbacksStage(src: Sources, rows: seq<Row>): seq<Row> {
    if src.feedback.Some? then FeedbackStage(rows, src.feedback.value) else rows
  }

  /** The table `create_integrated_dataset` hands to the feature pass: the merges in their order. */
  function JoinedRows(src: Sources): seq<Row>
    requires src.orders.Some?
  {
    FeedbacksStage(src, ExternalFactorsStage(src, WarehouseLogsStage(src, DriversStage(src,
      FleetLogsStage(src, ClientsStage(src, WarehousesStage(src, OrderRows(src.orders.value))))))))
  }

  // ---------------------------------------------- per-order reference record

  /** The warehouse id of a city: the first non-null id among that city's warehouses. */
  function WarehouseIdFor(ws: seq<WarehouseRow>, city: Option<string>): Option<string> {
    match city
    case None => None
    case Some(c) => FirstWarehouseId(c, Group(ws, WarehouseCityKey, c))
  }

  /** The reduced entry of one order in a one-to-many source, or null if it has none. */
  function EntryFor<R(==), S>(rows: seq<R>, key: R -> Option<string>, summarize: (string, seq<R>) -> S,
                              id: string): Option<(string, S)> {
    if HasKey(rows, key, id) then Some((id, summarize(id, Group(rows, key, id)))) else None
  }

  // One record's share of each stage: the row it meets in the other table.

  function WarehouseOf(src: Sources, r: Row): (out: Row)
    ensures out.orderId == r.orderId && out.status == r.status
  {
    if src.warehouses.Some? then
      var ws := src.warehouses.value;
      var id := WarehouseIdFor(ws, r.city);
      WithWarehouse(r.(warehouseId := id), Lookup(ws, WarehouseKey, id))
    else r
  }

  function ClientOf(src: Sources, r: Row): (out: Row)
    ensures out.orderId == r.orderId && out.status == r.status
  {
    if src.clients.Some? then WithClient(r, Lookup(src.clients.value, ClientKey, r.clientId)) else r
  }

  function FleetOf(src: Sources, r: Row): (out: Row)
    ensures out.orderId == r.orderId && out.status == r.status
  {
    if src.fleetLogs.Some? then WithFleet(r, EntryFor(src.fleetLogs.value, FleetOrderKey, SummarizeFleet, r.orderId))
    else r
  }

  function DriverOf(src: Sources, r: Row): (out: Row)
    ensures out.orderId == r.orderId
    ensures out.status == if src.drivers.Some? && src.fleetLogs.Some? then None else r.status
  {
    if src.drivers.Some? && src.fleetLogs.Some? then WithDriver(r, Lookup(src.drivers.value, DriverKey, r.driverId))
    else r
  }

  function WarehouseLogOf(src: Sources, r: Row): (out: Row)
    ensures out.orderId == r.orderId && out.status == r.status
  {
    if src.warehouseLogs.Some? then
      WithWarehouseLog(r, EntryFor(src.warehouseLogs.value, WarehouseLogOrderKey, SummarizeWarehouseLog, r.orderId))
    else r
  }

  function ExternalOf(src: Sources, r: Row): (out: Row)
    ensures out.orderId == r.orderId && out.status == r.status
  {
    if src.externalFactors.Some? then
      WithExternal(r, EntryFor(src.externalFactors.value, ExternalOrderKey, SummarizeExternal, r.orderId))
    else r
  }

  function FeedbackOf(src: Sources, r: Row): (out: Row)
    ensures out.orderId == r.orderId && out.status == r.status
  {
    if src.feedback.Some? then WithFeedback(r, EntryFor(src.feedback.value, FeedbackOrderKey, SummarizeFeedback, r.orderId))
    else r
  }

  /**
   * The integrated record of one order, computed from that order alone: its
   * city's warehouse, its client, the reduction of its own log rows, its
   * driver, its external factors and its feedback.
   */
  function IntegrateOrder(src: Sources, o: OrderRow): Row {
    FeedbackOf(src, ExternalOf(src, WarehouseLogOf(src, DriverOf(src,
      FleetOf(src, ClientOf(src, WarehouseOf(src, FromOrder(o))))))))
  }

  /** The keyed lookup tables (warehouses, clients, drivers) have unique keys. */
  predicate KeyedTablesUnique(src: Sources) {
    && (src.warehouses.Some? ==> UniqueKeys(src.warehouses.value, WarehouseKey))
    && (src.clients.Some? ==> UniqueKeys(src.clients.value, ClientKey))
    && (src.drivers.Some? ==> UniqueKeys(src.drivers.value, DriverKey))
  }

  /** The city map built by `groupby('city')` gives each city its first warehouse id. */
  lemma MapCityIsFirstWarehouse(ws: seq<WarehouseRow>, city: Option<string>)
    ensures MapCity(Reduce(ws, WarehouseCityKey, FirstWarehouseId), city) == WarehouseIdFor(ws, city)
  {
    if city.Some? {
      LookupReduce(ws, WarehouseCityKey, FirstWarehouseId, city.value);
      if !HasKey(ws, WarehouseCityKey, city.value) {
        GroupAbsent(ws, WarehouseCityKey, city.value);
      }
    }
  }

  /** Joining a reduced source is looking up the order's own group. */
  lemma {:induction false} ReducedStage<R, S>(rows: seq<Row>, logs: seq<R>, key: R -> Option<string>,
                                              summarize: (string, seq<R>) -> S, fill: (Row, Option<(string, S)>) -> Row)
    ensures |LeftJoin(rows, Reduce(logs, key, summarize), RowOrderKey, EntryKey, fill)| == |rows|
    ensures forall i :: 0 <= i < |rows| ==>
      LeftJoin(rows, Reduce(logs, key, summarize), RowOrderKey, EntryKey, fill)[i] ==
      fill(rows[i], EntryFor(logs, key, summarize, rows[i].orderId))
  {
    ReducedUnique(logs, key, summarize);
    LeftJoinUnique(rows, Reduce(logs, key, summarize), RowOrderKey, EntryKey, fill);
    forall i | 0 <= i < |rows| ensures
      Lookup(Reduce(logs, key, summarize), EntryKey, RowOrderKey(rows[i])) == EntryFor(logs, key, summarize, rows[i].orderId)
    {
      LookupReduce(logs, key, summarize, rows[i].orderId);
    }
  }

  /** The warehouse stage keeps the rows and fills each from its city's warehouse. */
  lemma WarehousesPointwise(src: Sources, rows: seq<Row>)
    requires KeyedTablesUnique(src)
    ensures |WarehousesStage(src, rows)| == |rows|
    ensures forall i :: 0 <= i < |rows| ==> WarehousesStage(src, rows)[i] == WarehouseOf(src, rows[i])
  {
    if src.warehouses.Some? {
      var ws := src.warehouses.value;
      var a := AssignWarehouseIds(rows, ws);
      LeftJoinUnique(a, ws, RowWarehouseKey, WarehouseKey, WithWarehouse);
      forall i | 0 <= i < |rows| ensures a[i] == rows[i].(warehouseId := WarehouseIdFor(ws, rows[i].city)) {
        MapCityIsFirstWarehouse(ws, rows[i].city);
      }
    }
  }

  lemma ClientsPointwise(src: Sources, rows: seq<Row>)
    requires KeyedTablesUnique(src)
    ensures |ClientsStage(src, rows)| == |rows|
    ensures forall i :: 0 <= i < |rows| ==> ClientsStage(src, rows)[i] == ClientOf(src, rows[i])
  {
    if src.clients.Some? {
      LeftJoinUnique(rows, src.clients.value, RowClientKey, ClientKey, WithClient);
    }
  }

  lemma FleetLogsPointwise(src: Sources, rows: seq<Row>)
    ensures |FleetLogsStage(src, rows)| == |rows|
    ensures forall i :: 0 <= i < |rows| ==> FleetLogsStage(src, rows)[i] == FleetOf(src, rows[i])
  {
    if src.fleetLogs.Some? {
      ReducedStage(rows, src.fleetLogs.value, FleetOrderKey, SummarizeFleet, WithFleet);
    }
  }

  lemma DriversPointwise(src: Sources, rows: seq<Row>)
    requires KeyedTablesUnique(src)
    ensures |DriversStage(src, rows)| == |rows|
    ensures forall i :: 0 <= i < |rows| ==> DriversStage(src, rows)[i] == DriverOf(src, rows[i])
  {
    if src.drivers.Some? && src.fleetLogs.Some? {
      LeftJoinUnique(rows, src.drivers.value, RowDriverKey, DriverKey, WithDriver);
    }
  }

  lemma WarehouseLogsPointwise(src: Sources, rows: seq<Row>)
    ensures |WarehouseLogsStage(src, rows)| == |rows|
    ensures forall i :: 0 <= i < |rows| ==> WarehouseLogsStage(src, rows)[i] == WarehouseLogOf(src, rows[i])
  {
    if src.warehouseLogs.Some? {
      ReducedStage(rows, src.warehouseLogs.value, WarehouseLogOrderKey, SummarizeWarehouseLog, WithWarehouseLog);
    }
  }

  lemma ExternalFactorsPointwise(src: Sources, rows: seq<Row>)
    ensures |ExternalFactorsStage(src, rows)| == |rows|
    ensures forall i :: 0 <= i < |rows| ==> ExternalFactorsStage(src, rows)[i] == ExternalOf(src, rows[i])
  {
    if src.externalFactors.Some? {
      ReducedStage(rows, src.externalFactors.value, ExternalOrderKey, SummarizeExternal, WithExternal);
    }
  }

  lemma FeedbacksPointwise(src: Sources, rows: seq<Row>)
    ensures |FeedbacksStage(src, rows)| == |rows|
    ensures forall i :: 0 <= i < |rows| ==> FeedbacksStage(src, rows)[i] == FeedbackOf(src, rows[i])
  {
    if src.feedback.Some? {
      ReducedStage(rows, src.feedback.value, FeedbackOrderKey, SummarizeFeedback, WithFeedback);
    }
  }

  /**
   * Row count and reduction: when warehouses, clients and drivers have unique
   * keys, the merge sequence yields exactly one record per order, in order,
   * and that record is the order's own integrated record.
   */
  lemma {:induction false} JoinedRowsPerOrder(src: Sources)
    requires src.orders.Some? && KeyedTablesUnique(src)
    ensures |JoinedRows(src)| == |src.orders.value|
    ensures forall i :: 0 <= i < |src.orders.value| ==>
      JoinedRows(src)[i] == IntegrateOrder(src, src.orders.value[i])
  {
    var os := src.orders.value;
    var r0 := OrderRows(os);
    var r1 := WarehousesStage(src, r0);
    WarehousesPointwise(src, r0);
    var r2 := ClientsStage(src, r1);
    ClientsPointwise(src, r1);
    var r3 := FleetLogsStage(src, r2);
    FleetLogsPointwise(src, r2);
    var r4 := DriversStage(src, r3);
    DriversPointwise(src, r3);
    var r5 := WarehouseLogsStage(src, r4);
    WarehouseLogsPointwise(src, r4);
    var r6 := ExternalFactorsStage(src, r5);
    ExternalFactorsPointwise(src, r5);
    var r7 := FeedbacksStage(src, r6);
    FeedbacksPointwise(src, r6);
    forall i | 0 <= i < |os| ensures r7[i] == IntegrateOrder(src, os[i]) {
      assert r1[i] == WarehouseOf(src, FromOrder(os[i]));
      assert r2[i] == ClientOf(src, r1[i]);
      assert r3[i] == FleetOf(src, r2[i]);
      assert r4[i] == DriverOf(src, r3[i]);
      assert r5[i] == WarehouseLogOf(src, r4[i]);
      assert r6[i] == ExternalOf(src, r5[i]);
    }
  }

  /** Every stage keeps the order id of the record it fills. */
  lemma IntegrateOrderKeepsId(src: Sources, o: OrderRow)
    ensures IntegrateOrder(src, o).orderId == o.orderId
    ensures IntegrateOrder(src, o).status == (if src.drivers.Some? && src.fleetLogs.Some? then None else o.status)
  {
    var r3 := FleetOf(src, ClientOf(src, WarehouseOf(src, FromOrder(o))));
    assert r3.orderId == o.orderId && r3.status == o.status;
  }

  // Every merge stage keeps the order ids of the rows it is given, in order.

  lemma WarehousesKeepIds(src: Sources, rows: seq<Row>)
    ensures IsSubsequence(OrderIds(rows), OrderIds(WarehousesStage(src, rows)))
  {
    if src.warehouses.Some? {
      var ws := src.warehouses.value;
      assert OrderIds(AssignWarehouseIds(rows, ws)) == OrderIds(rows);
      LeftJoinKeepsIds(AssignWarehouseIds(rows, ws), ws, RowWarehouseKey, WarehouseKey, WithWarehouse);
    } else {
      SubsequenceRefl(OrderIds(rows));
    }
  }

  lemma ClientsKeepIds(src: Sources, rows: seq<Row>)
    ensures IsSubsequence(OrderIds(rows), OrderIds(ClientsStage(src, rows)))
  {
    if src.clients.Some? {
      LeftJoinKeepsIds(rows, src.clients.value, RowClientKey, ClientKey, WithClient);
    } else {
      SubsequenceRefl(OrderIds(rows));
    }
  }

  lemma FleetLogsKeepIds(src: Sources, rows: seq<Row>)
    ensures IsSubsequence(OrderIds(rows), OrderIds(FleetLogsStage(src, rows)))
  {
    if src.fleetLogs.Some? {
      LeftJoinKeepsIds(rows, Reduce(src.fleetLogs.value, FleetOrderKey, SummarizeFleet), RowOrderKey, EntryKey, WithFleet);
    } else {
      SubsequenceRefl(OrderIds(rows));
    }
  }

  lemma DriversKeepIds(src: Sources, rows: seq<Row>)
    ensures IsSubsequence(OrderIds(rows), OrderIds(DriversStage(src, rows)))
  {
    if src.drivers.Some? && src.fleetLogs.Some? {
      LeftJoinKeepsIds(rows, src.drivers.value, RowDriverKey, DriverKey, WithDriver);
    } else {
      SubsequenceRefl(OrderIds(rows));
    }
  }

  lemma WarehouseLogsKeepIds(src: Sources, rows: seq<Row>)
    ensures IsSubsequence(OrderIds(rows), OrderIds(WarehouseLogsStage(src, rows)))
  {
    if src.warehouseLogs.Some? {
      LeftJoinKeepsIds(rows, Reduce(src.warehouseLogs.value, WarehouseLogOrderKey, SummarizeWarehouseLog),
                       RowOrderKey, EntryKey, WithWarehouseLog);
    } else {
      SubsequenceRefl(OrderIds(rows));
    }
  }

  lemma ExternalFactorsKeepIds(src: Sources, rows: seq<Row>)
    ensures IsSubsequence(OrderIds(rows), OrderIds(ExternalFactorsStage(src, rows)))
  {
    if src.externalFactors.Some? {
      LeftJoinKeepsIds(rows, Reduce(src.externalFactors.value, ExternalOrderKey, SummarizeExternal),
                       RowOrderKey, EntryKey, WithExternal);
    } else {
      SubsequenceRefl(OrderIds(rows));
    }
  }

  lemma FeedbacksKeepIds(src: Sources, rows: seq<Row>)
    ensures IsSubsequence(OrderIds(rows), OrderIds(FeedbacksStage(src, rows)))
  {
    if src.feedback.Some? {
      LeftJoinKeepsIds(rows, Reduce(src.feedback.value, FeedbackOrderKey, SummarizeFeedback),
                       RowOrderKey, EntryKey, WithFeedback);
    } else {
      SubsequenceRefl(OrderIds(rows));
    }
  }

  /**
   * No order is ever dropped, whatever the key multiplicities: the orders'
   * ids reappear, in their order, among the joined rows' ids.
   */
  lemma JoinedRowsKeepOrders(src: Sources)
    requires src.orders.Some?
    ensures |JoinedRows(src)| >= |src.orders.value|
    ensures IsSubsequence(OrderIds(OrderRows(src.orders.value)), OrderIds(JoinedRows(src)))
  {
    var r0 := OrderRows(src.orders.value);
    var r1 := WarehousesStage(src, r0);
    var r2 := ClientsStage(src, r1);
    var r3 := FleetLogsStage(src, r2);
    var r4 := DriversStage(src, r3);
    var r5 := WarehouseLogsStage(src, r4);
    var r6 := ExternalFactorsStage(src, r5);
    var r7 := FeedbacksStage(src, r6);
    WarehousesKeepIds(src, r0);
    ClientsKeepIds(src, r1);
    FleetLogsKeepIds(src, r2);
    DriversKeepIds(src, r3);
    WarehouseLogsKeepIds(src, r4);
    ExternalFactorsKeepIds(src, r5);
    FeedbacksKeepIds(src, r6);
    SubsequenceTrans(OrderIds(r0), OrderIds(r1), OrderIds(r2));
    SubsequenceTrans(OrderIds(r0), OrderIds(r2), OrderIds(r3));
    SubsequenceTrans(OrderIds(r0), OrderIds(r3), OrderIds(r4));
    SubsequenceTrans(OrderIds(r0), OrderIds(r4), OrderIds(r5));
    SubsequenceTrans(OrderIds(r0), OrderIds(r5), OrderIds(r6));
    SubsequenceTrans(OrderIds(r0), OrderIds(r6), OrderIds(r7));
  }
}
