/**
 * `filter_data`: narrowing a copy of the integrated table, one supplied filter
 * key after another (AND across keys, OR within a key's list). An empty or
 * absent filter value is skipped, as Python's truthiness test skips it.
 */
module Filtering {
  import opened Wrappers
  import opened Text
  import opened Grouping
  import opened Calendar
  import opened Records

  /**
   * The filter dictionary. Empty lists and `None` dates are the absent keys.
   * Dates are instants (seconds, see `Calendar.Instant`), already parsed.
   */
  datatype Filters = Filters(cities: seq<string>, dateFrom: Option<int>, dateTo: Option<int>,
                             clients: seq<string>, warehouses: seq<string>)

  const NoFilters: Filters := Filters([], None, None, [], [])

  /** One narrowing step of `filter_data`. */
  datatype Criterion =
    | CityIn(names: seq<string>)          // city.str.lower().isin(lowered names)
    | OnOrAfter(from: int)                // order_date >= date_from
    | OnOrBefore(to: int)                 // order_date <= date_to
    | ClientLike(parts: seq<string>)      // client_name contains some part, ignoring case
    | WarehouseLike(parts: seq<string>)   // warehouse_name contains some part, ignoring case

  /** `Lower(x)` is the lower-case form of some name of `names`. */
  predicate InLowered(x: string, names: seq<string>) {
    exists j :: 0 <= j < |names| && x == Lower(names[j])
  }

  /** Some part occurs in `s`, ignoring case (`str.contains('a|b', case=False)`). */
  predicate ContainsSomeIgnoreCase(s: string, parts: seq<string>) {
    exists j :: 0 <= j < |parts| && ContainsIgnoreCase(s, parts[j])
  }

  /** Whether a row passes one step; a null value never passes (`na=False`, NaT comparisons). */
  predicate Satisfies(r: Row, c: Criterion) {
    match c
    case CityIn(names) => r.city.Some? && InLowered(Lower(r.city.value), names)
    case OnOrAfter(from) => r.orderDate.Some? && Instant(r.orderDate.value) >= from
    case OnOrBefore(to) => r.orderDate.Some? && Instant(r.orderDate.value) <= to
    case ClientLike(parts) => r.clientName.Some? && ContainsSomeIgnoreCase(Lower(r.clientName.value), parts)
    case WarehouseLike(parts) => r.warehouseName.Some? && ContainsSomeIgnoreCase(Lower(r.warehouseName.value), parts)
  }

  /** The boolean mask of one step. */
  function Mask(c: Criterion): Row -> bool {
    r => Satisfies(r, c)
  }

  /** The steps `filter_data` takes for `f`, in its order. */
  function Criteria(f: Filters): (cs: seq<Criterion>)
    ensures |cs| <= 5
  {
    (if f.cities != [] then [CityIn(f.cities)] else []) +
    (if f.dateFrom.Some? then [OnOrAfter(f.dateFrom.value)] else []) +
    (if f.dateTo.Some? then [OnOrBefore(f.dateTo.value)] else []) +
    (if f.clients != [] then [ClientLike(f.clients)] else []) +
    (if f.warehouses != [] then [WarehouseLike(f.warehouses)] else [])
  }

  /** Applying the steps one after the other. */
  function Select(rows: seq<Row>, cs: seq<Criterion>): seq<Row>
    decreases |cs|
  {
    if cs == [] then rows else Select(Where(rows, Mask(cs[0])), cs[1..])
  }

  /** One more step after `a`: narrowing the result of `a` by `c`. */
  lemma {:induction false} SelectSnoc(rows: seq<Row>, a: seq<Criterion>, c: Criterion)
    ensures Select(rows, a + [c]) == Where(Select(rows, a), Mask(c))
    decreases |a|
  {
    if a == [] {
      assert a + [c] == [c];
    } else {
      assert (a + [c])[1..] == a[1..] + [c];
      SelectSnoc(Where(rows, Mask(a[0])), a[1..], c);
    }
  }

  /** `df['client_name']` and `df['warehouse_name']` raise KeyError when the column is absent. */
  datatype FilterError = MissingColumn(name: string)

  /** `filter_data(filters)` on a table. */
  function Filter(t: Table, f: Filters): Result<seq<Row>, FilterError> {
    if f.clients != [] && !t.schema.hasClients then Failure(MissingColumn("client_name"))
    else if f.warehouses != [] && !t.schema.hasWarehouses then Failure(MissingColumn("warehouse_name"))
    else Success(Select(t.rows, Criteria(f)))
  }

  // ------------------------------------------------------------ reference

  /** A row qualifies when it meets every supplied filter key. */
  predicate Qualifies(r: Row, f: Filters) {
    && (f.cities != [] ==> r.city.Some? && InLowered(Lower(r.city.value), f.cities))
    && (f.dateFrom.Some? ==> r.orderDate.Some? && f.dateFrom.value <= Instant(r.orderDate.value))
    && (f.dateTo.Some? ==> r.orderDate.Some? && Instant(r.orderDate.value) <= f.dateTo.value)
    && (f.clients != [] ==> r.clientName.Some? && ContainsSomeIgnoreCase(Lower(r.clientName.value), f.clients))
    && (f.warehouses != [] ==> r.warehouseName.Some? && ContainsSomeIgnoreCase(Lower(r.warehouseName.value), f.warehouses))
  }

  function QualifiesMask(f: Filters): Row -> bool {
    r => Qualifies(r, f)
  }

  predicate SatisfiesAll(r: Row, cs: seq<Criterion>) {
    forall k :: 0 <= k < |cs| ==> Satisfies(r, cs[k])
  }

  function AllMask(cs: seq<Criterion>): Row -> bool {
    r => SatisfiesAll(r, cs)
  }

  lemma {:induction false} SatisfiesAllAppend(r: Row, a: seq<Criterion>, b: seq<Criterion>)
    ensures SatisfiesAll(r, a + b) <==> SatisfiesAll(r, a) && SatisfiesAll(r, b)
  {
    if SatisfiesAll(r, a + b) {
      forall k | 0 <= k < |a| ensures Satisfies(r, a[k]) {
        assert (a + b)[k] == a[k];
      }
      forall k | 0 <= k < |b| ensures Satisfies(r, b[k]) {
        assert (a + b)[|a| + k] == b[k];
      }
    }
    if SatisfiesAll(r, a) && SatisfiesAll(r, b) {
      forall k | 0 <= k < |a + b| ensures Satisfies(r, (a + b)[k]) {
        if k < |a| { assert (a + b)[k] == a[k]; } else { assert (a + b)[k] == b[k - |a|]; }
      }
    }
  }

  lemma SatisfiesAllOne(r: Row, c: Criterion)
    ensures SatisfiesAll(r, [c]) <==> Satisfies(r, c)
  {
    assert [c][0] == c;
  }

  /** Supplying an optional step: a present one must hold, an absent one always does. */
  lemma SatisfiesOptional(r: Row, present: bool, c: Criterion)
    ensures SatisfiesAll(r, if present then [c] else []) <==> (present ==> Satisfies(r, c))
  {
    SatisfiesAllOne(r, c);
  }

  lemma {:induction false} QualifiesIffCriteria(r: Row, f: Filters)
    ensures Qualifies(r, f) <==> SatisfiesAll(r, Criteria(f))
  {
    var a: seq<Criterion> := if f.cities != [] then [CityIn(f.cities)] else [];
    var b: seq<Criterion> := if f.dateFrom.Some? then [OnOrAfter(f.dateFrom.value)] else [];
    var c: seq<Criterion> := if f.dateTo.Some? then [OnOrBefore(f.dateTo.value)] else [];
    var d: seq<Criterion> := if f.clients != [] then [ClientLike(f.clients)] else [];
    var e: seq<Criterion> := if f.warehouses != [] then [WarehouseLike(f.warehouses)] else [];
    assert Criteria(f) == a + b + c + d + e;
    SatisfiesAllAppend(r, a + b + c + d, e);
    SatisfiesAllAppend(r, a + b + c, d);
    SatisfiesAllAppend(r, a + b, c);
    SatisfiesAllAppend(r, a, b);
    SatisfiesOptional(r, f.cities != [], CityIn(f.cities));
    SatisfiesOptional(r, f.dateFrom.Some?, OnOrAfter(f.dateFrom.GetOr(0)));
    SatisfiesOptional(r, f.dateTo.Some?, OnOrBefore(f.dateTo.GetOr(0)));
    SatisfiesOptional(r, f.clients != [], ClientLike(f.clients));
    SatisfiesOptional(r, f.warehouses != [], WarehouseLike(f.warehouses));
  }

  /** One more step narrows the selection by one more conjunct. */
  lemma {:induction false} WhereThenAll(rows: seq<Row>, c: Criterion, cs: seq<Criterion>)
    ensures Where(Where(rows, Mask(c)), AllMask(cs)) == Where(rows, AllMask([c] + cs))
  {
    if rows != [] {
      WhereThenAll(rows[1..], c, cs);
      var r := rows[0];
      var rest := Where(rows[1..], Mask(c));
      SatisfiesAllAppend(r, [c], cs);
      SatisfiesAllOne(r, c);
      if Satisfies(r, c) {
        assert Where(rows, Mask(c)) == [r] + rest;
        assert ([r] + rest)[1..] == rest;
      } else {
        assert Where(rows, Mask(c)) == rest;
      }
    }
  }

  /** Narrowing step by step is selecting the rows that meet every step. */
  lemma {:induction false} SelectIsConjunction(rows: seq<Row>, cs: seq<Criterion>)
    ensures Select(rows, cs) == Where(rows, AllMask(cs))
    decreases |cs|
  {
    if cs == [] {
      WhereAllTrue(rows);
    } else {
      SelectIsConjunction(Where(rows, Mask(cs[0])), cs[1..]);
      WhereThenAll(rows, cs[0], cs[1..]);
      assert [cs[0]] + cs[1..] == cs;
    }
  }

  lemma {:induction false} WhereAllTrue(rows: seq<Row>)
    ensures Where(rows, AllMask([])) == rows
  {
    if rows != [] {
      WhereAllTrue(rows[1..]);
    }
  }

  /** Selections by pointwise-equal masks are equal. */
  lemma {:induction false} WhereSameMask(rows: seq<Row>, p: Row -> bool, q: Row -> bool)
    requires forall i :: 0 <= i < |rows| ==> p(rows[i]) == q(rows[i])
    ensures Where(rows, p) == Where(rows, q)
  {
    if rows != [] {
      WhereSameMask(rows[1..], p, q);
    }
  }

  /**
   * `filter_data` keeps exactly the qualifying rows, in their order, unless a
   * needed column is missing.
   */
  lemma FilterIsQualifying(t: Table, f: Filters)
    ensures Filter(t, f) ==
      if f.clients != [] && !t.schema.hasClients then Failure(MissingColumn("client_name"))
      else if f.warehouses != [] && !t.schema.hasWarehouses then Failure(MissingColumn("warehouse_name"))
      else Success(Where(t.rows, QualifiesMask(f)))
  {
    SelectIsConjunction(t.rows, Criteria(f));
    forall i | 0 <= i < |t.rows| ensures AllMask(Criteria(f))(t.rows[i]) == QualifiesMask(f)(t.rows[i]) {
      QualifiesIffCriteria(t.rows[i], f);
    }
    WhereSameMask(t.rows, AllMask(Criteria(f)), QualifiesMask(f));
  }

  /**
   * Subsequence, soundness and completeness: the result is an order-preserving
   * subsequence of the table, every returned row meets every supplied filter,
   * and no qualifying row is dropped.
   */
  lemma FilterSoundAndComplete(t: Table, f: Filters)
    requires Filter(t, f).Success?
    ensures IsSubsequence(Filter(t, f).value, t.rows)
    ensures forall i :: 0 <= i < |Filter(t, f).value| ==> Qualifies(Filter(t, f).value[i], f)
    ensures forall i :: 0 <= i < |t.rows| && Qualifies(t.rows[i], f) ==> t.rows[i] in Filter(t, f).value
  {
    FilterIsQualifying(t, f);
    WhereIsSubsequence(t.rows, QualifiesMask(f));
  }

  /** The KeyError cases, and nothing else fails. */
  lemma FilterFailsIff(t: Table, f: Filters)
    ensures Filter(t, f).Failure? <==>
      (f.clients != [] && !t.schema.hasClients) || (f.warehouses != [] && !t.schema.hasWarehouses)
  {
  }

  /** An empty or absent filter is the identity. */
  lemma {:induction false} NoFilterIsIdentity(t: Table)
    ensures Filter(t, NoFilters) == Success(t.rows)
  {
    assert Criteria(NoFilters) == [];
  }

  /** Filtering a filtered table again with the same filters changes nothing. */
  lemma FilterIdempotent(t: Table, f: Filters)
    requires Filter(t, f).Success?
    ensures Filter(Table(Filter(t, f).value, t.schema), f) == Filter(t, f)
  {
    FilterIsQualifying(t, f);
    FilterIsQualifying(Table(Filter(t, f).value, t.schema), f);
    WhereIdempotent(t.rows, QualifiesMask(f));
  }
}
