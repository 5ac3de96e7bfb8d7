/**
 * The `DeliveryAnalyzer` object: it holds the loaded tables and, once
 * `create_integrated_dataset` has run, the integrated table that every query
 * filters and analyses.
 */
module Analyzer {
  import opened Wrappers
  import opened Grouping
  import opened Calendar
  import opened Records
  import opened Integration
  import opened Features
  import opened Filtering
  import opened Analytics
  import opened Query

  /** The schema after the feature pass: the `status` column always exists then. */
  function IntegratedSchema(src: Sources): Schema {
    JoinedSchema(src).(hasStatus := true)
  }

  /** The joined rows with their derived columns. */
  function IntegratedRows(src: Sources): (rows: seq<Row>)
    requires src.orders.Some?
    ensures |rows| == |JoinedRows(src)|
  {
    var joined := JoinedRows(src);
    seq(|joined|, i requires 0 <= i < |joined| => WithFeatures(joined[i], JoinedSchema(src).hasStatus))
  }

  /**
   * No order is lost (the orders' ids reappear, in order, among the rows'),
   * and with unique keys in the side tables each order yields exactly one row.
   */
  lemma IntegratedRowsPerOrder(src: Sources)
    requires src.orders.Some?
    ensures |IntegratedRows(src)| >= |src.orders.value|
    ensures IsSubsequence(OrderIds(OrderRows(src.orders.value)), OrderIds(IntegratedRows(src)))
    ensures KeyedTablesUnique(src) ==>
      && |IntegratedRows(src)| == |src.orders.value|
      && forall i :: 0 <= i < |src.orders.value| ==>
           IntegratedRows(src)[i] == WithFeatures(IntegrateOrder(src, src.orders.value[i]), JoinedSchema(src).hasStatus)
  {
    JoinedRowsKeepOrders(src);
    assert OrderIds(IntegratedRows(src)) == OrderIds(JoinedRows(src));
    if KeyedTablesUnique(src) {
      JoinedRowsPerOrder(src);
    }
  }

  /** After the feature pass a Failed or Returned row is delayed, so the problem rows are the delayed rows. */
  predicate ProblemStatusDelayed(rows: seq<Row>) {
    forall i :: 0 <= i < |rows| ==>
      (rows[i].status == Some("Failed") || rows[i].status == Some("Returned")) ==> rows[i].isDelayed
  }

  lemma IntegratedProblemsDelayed(src: Sources)
    requires src.orders.Some?
    ensures ProblemStatusDelayed(IntegratedRows(src))
    ensures Where(IntegratedRows(src), IsProblem) == Where(IntegratedRows(src), IsDelayedRow)
  {
    ProblemsAreDelayed(IntegratedRows(src));
  }

  /** Any selection from such rows keeps the property. */
  lemma FilteredProblemsDelayed(rows: seq<Row>, sub: seq<Row>)
    requires ProblemStatusDelayed(rows)
    requires forall i :: 0 <= i < |sub| ==> sub[i] in rows
    ensures ProblemStatusDelayed(sub)
    ensures Where(sub, IsProblem) == Where(sub, IsDelayedRow)
  {
    forall i | 0 <= i < |sub|
      ensures (sub[i].status == Some("Failed") || sub[i].status == Some("Returned")) ==> sub[i].isDelayed
    {
      var j :| 0 <= j < |rows| && rows[j] == sub[i];
    }
    ProblemsAreDelayed(sub);
  }

  /** Step `k` (1 to 5) of `filter_data`: present when its filter key is supplied. */
  function Piece(f: Filters, k: nat): seq<Criterion>
    requires 1 <= k <= 5
  {
    if k == 1 then (if f.cities != [] then [CityIn(f.cities)] else [])
    else if k == 2 then (if f.dateFrom.Some? then [OnOrAfter(f.dateFrom.value)] else [])
    else if k == 3 then (if f.dateTo.Some? then [OnOrBefore(f.dateTo.value)] else [])
    else if k == 4 then (if f.clients != [] then [ClientLike(f.clients)] else [])
    else (if f.warehouses != [] then [WarehouseLike(f.warehouses)] else [])
  }

  /** The first `n` steps of `filter_data`. */
  function CriteriaPrefix(f: Filters, n: nat): seq<Criterion>
    requires n <= 5
  {
    if n == 0 then [] else CriteriaPrefix(f, n - 1) + Piece(f, n)
  }

  lemma CriteriaInFull(f: Filters)
    ensures CriteriaPrefix(f, 5) == Criteria(f)
  {
    assert CriteriaPrefix(f, 1) == Piece(f, 1);
    assert CriteriaPrefix(f, 3) == Piece(f, 1) + Piece(f, 2) + Piece(f, 3);
    assert CriteriaPrefix(f, 5) == Piece(f, 1) + Piece(f, 2) + Piece(f, 3) + Piece(f, 4) + Piece(f, 5);
  }

  class DeliveryAnalyzer {
    /** `self.data`: the tables that were loaded; a missing file is `None`. */
    const data: Sources
    /** `self.integrated_df`; `None` until the dataset is created. */
    var integrated: Option<seq<Row>>
    /** The columns of `integrated_df`. */
    var schema: Schema

    /** The integrated table, whenever there is one, is the one built from `data`. */
    predicate Valid()
      reads this
    {
      integrated.Some? ==>
        data.orders.Some? && integrated.value == IntegratedRows(data) && schema == IntegratedSchema(data)
    }

    constructor(data: Sources)
      ensures this.data == data && integrated == None && Valid()
    {
      this.data := data;
      integrated := None;
      schema := Schema(false, false, false, false, false, false, false, false);
    }

    /**
     * `create_integrated_dataset()`: the merges, then the feature pass on the
     * merged table in place; on an error nothing changes.
     */
    method CreateIntegratedDataset() returns (r: Result<(), IntegrationError>)
      requires Valid()
      modifies this
      ensures Valid()
      ensures r == (match IntegrationFailure(data) case Some(e) => Failure(e) case None => Success(()))
      ensures r.Success? ==> integrated == Some(IntegratedRows(data)) && schema == IntegratedSchema(data)
      ensures r.Failure? ==> integrated == old(integrated) && schema == old(schema)
    {
      if data.orders.None? {
        return Failure(OrdersMissing);
      }
      if data.feedback.Some? && FeedbackTextNull(data.feedback.value) {
        return Failure(FeedbackTextNotString);
      }
      var joined := JoinedRows(data);
      var df := new Row[|joined|](i requires 0 <= i < |joined| => joined[i]);
      AddRootCauseFeatures(df, JoinedSchema(data).hasStatus);
      assert df[..] == IntegratedRows(data);
      integrated := Some(df[..]);
      schema := IntegratedSchema(data);
      return Success(());
    }

    /** The current table, for the specifications below. */
    function Current(): Table
      reads this
      requires integrated.Some?
    {
      Table(integrated.value, schema)
    }

    /** `filter_data(filters)`: a copy of the table narrowed one supplied key after another. */
    method FilterData(f: Filters) returns (r: Result<seq<Row>, FilterError>)
      requires integrated.Some?
      ensures r == Filter(Current(), f)
    {
      var rows := integrated.value;
      var df := rows;
      ghost var applied: seq<Criterion> := [];
      if f.cities != [] {
        SelectSnoc(rows, applied, CityIn(f.cities));
        df := Where(df, Mask(CityIn(f.cities)));
        applied := applied + [CityIn(f.cities)];
      }
      assert applied == CriteriaPrefix(f, 1) && df == Select(rows, applied);
      if f.dateFrom.Some? {
        SelectSnoc(rows, applied, OnOrAfter(f.dateFrom.value));
        df := Where(df, Mask(OnOrAfter(f.dateFrom.value)));
        applied := applied + [OnOrAfter(f.dateFrom.value)];
      }
      assert applied == CriteriaPrefix(f, 2) && df == Select(rows, applied);
      if f.dateTo.Some? {
        SelectSnoc(rows, applied, OnOrBefore(f.dateTo.value));
        df := Where(df, Mask(OnOrBefore(f.dateTo.value)));
        applied := applied + [OnOrBefore(f.dateTo.value)];
      }
      assert applied == CriteriaPrefix(f, 3) && df == Select(rows, applied);
      if f.clients != [] {
        if !schema.hasClients {
          return Failure(FilterError.MissingColumn("client_name"));
        }
        SelectSnoc(rows, applied, ClientLike(f.clients));
        df := Where(df, Mask(ClientLike(f.clients)));
        applied := applied + [ClientLike(f.clients)];
      }
      assert applied == CriteriaPrefix(f, 4) && df == Select(rows, applied);
      if f.warehouses != [] {
        if !schema.hasWarehouses {
          return Failure(FilterError.MissingColumn("warehouse_name"));
        }
        SelectSnoc(rows, applied, WarehouseLike(f.warehouses));
        df := Where(df, Mask(WarehouseLike(f.warehouses)));
        applied := applied + [WarehouseLike(f.warehouses)];
      }
      assert applied == CriteriaPrefix(f, 5) && df == Select(rows, applied);
      CriteriaInFull(f);
      return Success(df);
    }

    /** `process_query(query)` at time `now`: parse, filter, analyse, recommend. */
    method ProcessQuery(query: string, now: DateTime) returns (r: Result<Response, QueryError>)
      requires integrated.Some?
      ensures r == Respond(Current(), query, now)
    {
      var parsed := ParseQuery(query);
      var filters := QueryFilters(parsed, query, now);
      var filtered := FilterData(filters);
      if filtered.Failure? {
        return Failure(FilterFailed(filtered.error));
      }
      var results := Analyse(parsed, Table(filtered.value, schema));
      if results.Failure? {
        return Failure(AnalysisFailed(results.error));
      }
      var recommendations := Recommendations(results.value);
      if recommendations.Failure? {
        return Failure(RecommendationFailed(recommendations.error));
      }
      return Success(Response(query, parsed.intent, filters, results.value, recommendations.value));
    }
  }
}
