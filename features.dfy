/**
 * The root-cause feature pass: successive column assignments, each one
 * overwriting a derived column on the rows its mask selects, in a fixed order.
 * The pass is modelled as a list of masked steps run over an array of rows,
 * and proved equal to single precedence functions (`RootCause`, `SeverityOf`).
 */
module Features {
  import opened Wrappers
  import opened Text
  import opened Calendar
  import opened Records

  /** One `str.contains('A|b', case=False)` rule and the label it assigns. */
  datatype CauseRule = CauseRule(words: seq<string>, cause: string)

  const TrafficRule := CauseRule(["Traffic", "congestion"], "Traffic Congestion")
  const WeatherRule := CauseRule(["Weather", "disruption"], "Weather Disruption")
  const WarehouseRule := CauseRule(["Warehouse", "delay"], "Warehouse Operations")
  const AddressRule := CauseRule(["address", "Address"], "Address Issues")
  const StockRule := CauseRule(["Stock", "stock"], "Stock Unavailability")
  const VehicleRule := CauseRule(["Vehicle", "breakdown"], "Vehicle Issues")

  /** The keyword rules in the order they are applied. */
  const CauseRules: seq<CauseRule> :=
    [TrafficRule, WeatherRule, WarehouseRule, AddressRule, StockRule, VehicleRule]

  const Default: string := "Other/Unknown"

  /** `failure_reason.str.contains(..., case=False, na=False)`: a null reason never matches. */
  predicate RuleMatches(rule: CauseRule, reason: Option<string>) {
    reason.Some? && exists j :: 0 <= j < |rule.words| && ContainsIgnoreCase(reason.value, rule.words[j])
  }

  /** The statuses that make an order delayed regardless of its dates. */
  predicate IsProblemStatus(status: Option<string>) {
    status == Some("Failed") || status == Some("Returned") || status == Some("Pending")
  }

  /** `(actual - promised).dt.days`, with 0 for a missing date (`fillna(0)`). */
  function Delay(r: Row): (d: int)
    ensures r.actualDeliveryDate.None? || r.promisedDeliveryDate.None? ==> d == 0
    ensures r.actualDeliveryDate.Some? && r.promisedDeliveryDate.Some? ==>
      d * SecondsPerDay <= Instant(r.actualDeliveryDate.value) - Instant(r.promisedDeliveryDate.value) < (d + 1) * SecondsPerDay
  {
    match (r.promisedDeliveryDate, r.actualDeliveryDate)
    case (Some(p), Some(a)) => DaysBetween(p, a)
    case _ => 0
  }

  // ------------------------------------------------------- the masked steps

  datatype Step =
    | SetDelay                                  // delivery_delay_days for every row
    | DefaultStatus                             // status := 'Unknown' when the column is gone
    | SetDelayed                                // is_delayed for every row
    | ResetCause                                // primary_root_cause := 'Other/Unknown'
    | KeywordCause(rule: CauseRule)             // rows whose reason matches the rule
    | FailedCause                               // Failed rows: the reason itself
    | StatusCause(status: string, cause: string)
    | ResetSeverity                             // severity := 'Low'
    | DelaySeverity(days: int, severity: Severity)
    | FailedSeverity                            // Failed rows: 'Critical'
    | TimeFeatures                              // hour, day name, month name

  /** What one step does to one row. */
  function Apply(step: Step, r: Row): Row {
    match step
    case SetDelay => r.(deliveryDelayDays := Delay(r))
    case DefaultStatus => r.(status := Some("Unknown"))
    case SetDelayed => r.(isDelayed := r.deliveryDelayDays > 0 || IsProblemStatus(r.status))
    case ResetCause => r.(primaryRootCause := Default)
    case KeywordCause(rule) => if RuleMatches(rule, r.failureReason) then r.(primaryRootCause := rule.cause) else r
    case FailedCause =>
      if r.status == Some("Failed") then r.(primaryRootCause := r.failureReason.GetOr("Unknown Failure")) else r
    case StatusCause(s, c) => if r.status == Some(s) then r.(primaryRootCause := c) else r
    case ResetSeverity => r.(severity := Low)
    case DelaySeverity(days, sev) => if r.deliveryDelayDays > days then r.(severity := sev) else r
    case FailedSeverity => if r.status == Some("Failed") then r.(severity := Critical) else r
    case TimeFeatures =>
      match r.orderDate
      case None => r.(orderHour := None, orderDayOfWeek := None, orderMonth := None)
      case Some(d) => r.(orderHour := Some(d.hour), orderDayOfWeek := Some(DayName(d)), orderMonth := Some(MonthName(d)))
  }

  function KeywordSteps(rules: seq<CauseRule>): (ps: seq<Step>)
    ensures |ps| == |rules| && forall i :: 0 <= i < |rules| ==> ps[i] == KeywordCause(rules[i])
  {
    seq(|rules|, i requires 0 <= i < |rules| => KeywordCause(rules[i]))
  }

  function StatusSteps(statusColumn: bool): seq<Step> {
    [SetDelay] + (if statusColumn then [] else [DefaultStatus]) + [SetDelayed]
  }

  const CauseSteps: seq<Step> :=
    [ResetCause] + KeywordSteps(CauseRules) +
    [FailedCause, StatusCause("Returned", "Customer Return"), StatusCause("Pending", "Processing Delay")]

  const SeveritySteps: seq<Step> :=
    [ResetSeverity, DelaySeverity(2, Medium), DelaySeverity(5, High), FailedSeverity]

  /**
   * The assignments of `add_root_cause_features`, in source order;
   * `statusColumn` says whether `status` survived the merges.
   */
  function Passes(statusColumn: bool): seq<Step> {
    StatusSteps(statusColumn) + CauseSteps + SeveritySteps + [TimeFeatures]
  }

  /** Running steps one after the other on one row. */
  function RunSteps(ps: seq<Step>, r: Row): Row {
    if ps == [] then r else Apply(ps[|ps| - 1], RunSteps(ps[..|ps| - 1], r))
  }

  lemma {:induction false} RunStepsAppend(a: seq<Step>, b: seq<Step>, r: Row)
    ensures RunSteps(a + b, r) == RunSteps(b, RunSteps(a, r))
    decreases |b|
  {
    if b == [] {
      assert a + b == a;
    } else {
      assert (a + b)[..|a + b| - 1] == a + b[..|b| - 1];
      RunStepsAppend(a, b[..|b| - 1], r);
    }
  }

  // ------------------------------------------------- the precedence reference

  /** The label of the last keyword rule that matches, or `fallback`. */
  function LastMatch(rules: seq<CauseRule>, reason: Option<string>, fallback: string): (c: string)
    ensures c == fallback || exists i :: 0 <= i < |rules| && c == rules[i].cause && RuleMatches(rules[i], reason)
  {
    if rules == [] then fallback
    else if RuleMatches(rules[|rules| - 1], reason) then rules[|rules| - 1].cause
    else LastMatch(rules[..|rules| - 1], reason, fallback)
  }

  /**
   * The root cause as one precedence chain: status first (Pending, Returned,
   * Failed), then the keyword rules from last to first, then the default.
   */
  function RootCause(reason: Option<string>, status: Option<string>): string {
    if status == Some("Pending") then "Processing Delay"
    else if status == Some("Returned") then "Customer Return"
    else if status == Some("Failed") then reason.GetOr("Unknown Failure")
    else if RuleMatches(VehicleRule, reason) then VehicleRule.cause
    else if RuleMatches(StockRule, reason) then StockRule.cause
    else if RuleMatches(AddressRule, reason) then AddressRule.cause
    else if RuleMatches(WarehouseRule, reason) then WarehouseRule.cause
    else if RuleMatches(WeatherRule, reason) then WeatherRule.cause
    else if RuleMatches(TrafficRule, reason) then TrafficRule.cause
    else Default
  }

  /** Severity tiers: Critical for Failed, then High above 5 days, Medium above 2, else Low. */
  function SeverityOf(delay: int, status: Option<string>): Severity {
    if status == Some("Failed") then Critical
    else if delay > 5 then High
    else if delay > 2 then Medium
    else Low
  }

  /** The status the rules see: `'Unknown'` for every row once the column is gone. */
  function EffectiveStatus(r: Row, statusColumn: bool): Option<string> {
    if statusColumn then r.status else Some("Unknown")
  }

  /** A row with every derived column computed directly from its base columns. */
  function WithFeatures(r: Row, statusColumn: bool): Row {
    var status := EffectiveStatus(r, statusColumn);
    var delay := Delay(r);
    var timed := Apply(TimeFeatures, r);
    r.(deliveryDelayDays := delay, status := status,
       isDelayed := delay > 0 || IsProblemStatus(status),
       primaryRootCause := RootCause(r.failureReason, status),
       severity := SeverityOf(delay, status),
       orderHour := timed.orderHour, orderDayOfWeek := timed.orderDayOfWeek, orderMonth := timed.orderMonth)
  }

  // ------------------------------------------------------ fold = precedence

  /** Keyword steps change only the label, to the last matching rule's. */
  lemma {:induction false} KeywordStepsLastMatch(rules: seq<CauseRule>, r: Row)
    ensures RunSteps(KeywordSteps(rules), r) == r.(primaryRootCause := LastMatch(rules, r.failureReason, r.primaryRootCause))
  {
    if rules != [] {
      var n := |rules| - 1;
      assert KeywordSteps(rules)[..n] == KeywordSteps(rules[..n]);
      KeywordStepsLastMatch(rules[..n], r);
    }
  }

  lemma RunOne(step: Step, r: Row)
    ensures RunSteps([step], r) == Apply(step, r)
  {
    assert [step][..0] == [];
  }

  lemma RunSnoc(a: seq<Step>, step: Step, r: Row)
    ensures RunSteps(a + [step], r) == Apply(step, RunSteps(a, r))
  {
    assert (a + [step])[..|a|] == a;
  }

  lemma StatusStepsEffect(r: Row, statusColumn: bool)
    ensures RunSteps(StatusSteps(statusColumn), r) ==
      r.(deliveryDelayDays := Delay(r), status := EffectiveStatus(r, statusColumn),
         isDelayed := Delay(r) > 0 || IsProblemStatus(EffectiveStatus(r, statusColumn)))
  {
    var x0 := Apply(SetDelay, r);
    RunOne(SetDelay, r);
    if statusColumn {
      assert StatusSteps(statusColumn) == [SetDelay] + [SetDelayed];
      RunSnoc([SetDelay], SetDelayed, r);
    } else {
      assert StatusSteps(statusColumn) == [SetDelay, DefaultStatus] + [SetDelayed];
      assert [SetDelay, DefaultStatus] == [SetDelay] + [DefaultStatus];
      RunSnoc([SetDelay], DefaultStatus, r);
      RunSnoc([SetDelay, DefaultStatus], SetDelayed, r);
      var x1 := Apply(DefaultStatus, x0);
      assert RunSteps([SetDelay, DefaultStatus], r) == x1;
    }
  }

  /** The keyword fold over any six rules, written out. */
  lemma LastMatchSix(a: CauseRule, b: CauseRule, c: CauseRule, d: CauseRule, e: CauseRule, f: CauseRule,
                     reason: Option<string>, fallback: string)
    ensures LastMatch([a, b, c, d, e, f], reason, fallback) ==
      if RuleMatches(f, reason) then f.cause
      else if RuleMatches(e, reason) then e.cause
      else if RuleMatches(d, reason) then d.cause
      else if RuleMatches(c, reason) then c.cause
      else if RuleMatches(b, reason) then b.cause
      else if RuleMatches(a, reason) then a.cause
      else fallback
  {
    var rs := [a, b, c, d, e, f];
    assert rs[..5] == [a, b, c, d, e] && [a, b, c, d, e][..4] == [a, b, c, d];
    assert [a, b, c, d][..3] == [a, b, c] && [a, b, c][..2] == [a, b] && [a, b][..1] == [a] && [a][..0] == [];
    assert LastMatch([a], reason, fallback) == if RuleMatches(a, reason) then a.cause else fallback;
    assert LastMatch([a, b], reason, fallback) ==
      if RuleMatches(b, reason) then b.cause else LastMatch([a], reason, fallback);
    assert LastMatch([a, b, c], reason, fallback) ==
      if RuleMatches(c, reason) then c.cause else LastMatch([a, b], reason, fallback);
    assert LastMatch([a, b, c, d], reason, fallback) ==
      if RuleMatches(d, reason) then d.cause else LastMatch([a, b, c], reason, fallback);
    assert LastMatch([a, b, c, d, e], reason, fallback) ==
      if RuleMatches(e, reason) then e.cause else LastMatch([a, b, c, d], reason, fallback);
  }

  /** The keyword fold from the default is the keyword part of `RootCause`. */
  lemma LastMatchChain(reason: Option<string>)
    ensures LastMatch(CauseRules, reason, Default) == RootCause(reason, None)
  {
    LastMatchSix(TrafficRule, WeatherRule, WarehouseRule, AddressRule, StockRule, VehicleRule, reason, Default);
  }

  lemma KeywordPrefixEffect(r: Row)
    ensures RunSteps([ResetCause] + KeywordSteps(CauseRules), r) ==
      r.(primaryRootCause := RootCause(r.failureReason, None))
  {
    RunOne(ResetCause, r);
    RunStepsAppend([ResetCause], KeywordSteps(CauseRules), r);
    KeywordStepsLastMatch(CauseRules, r.(primaryRootCause := Default));
    LastMatchChain(r.failureReason);
  }

  /** The three status overrides, applied to a row labelled by its keywords alone. */
  lemma StatusOverridesEffect(r: Row)
    requires r.primaryRootCause == RootCause(r.failureReason, None)
    ensures Apply(StatusCause("Pending", "Processing Delay"),
                  Apply(StatusCause("Returned", "Customer Return"), Apply(FailedCause, r))) ==
      r.(primaryRootCause := RootCause(r.failureReason, r.status))
  {
  }

  lemma {:induction false} CauseStepsEffect(r: Row)
    ensures RunSteps(CauseSteps, r) == r.(primaryRootCause := RootCause(r.failureReason, r.status))
  {
    var a := [ResetCause] + KeywordSteps(CauseRules);
    var returned := StatusCause("Returned", "Customer Return");
    var pending := StatusCause("Pending", "Processing Delay");
    assert CauseSteps == a + [FailedCause] + [returned] + [pending];
    RunSnoc(a + [FailedCause] + [returned], pending, r);
    RunSnoc(a + [FailedCause], returned, r);
    RunSnoc(a, FailedCause, r);
    KeywordPrefixEffect(r);
    StatusOverridesEffect(RunSteps(a, r));
  }

  lemma SeverityStepsEffect(r: Row)
    ensures RunSteps(SeveritySteps, r) == r.(severity := SeverityOf(r.deliveryDelayDays, r.status))
  {
    var medium := DelaySeverity(2, Medium);
    var high := DelaySeverity(5, High);
    assert SeveritySteps == [ResetSeverity] + [medium] + [high] + [FailedSeverity];
    RunOne(ResetSeverity, r);
    RunSnoc([ResetSeverity], medium, r);
    RunSnoc([ResetSeverity] + [medium], high, r);
    RunSnoc([ResetSeverity] + [medium] + [high], FailedSeverity, r);
  }

  lemma {:induction false} PassesInStages(r: Row, statusColumn: bool)
    ensures RunSteps(Passes(statusColumn), r) ==
      Apply(TimeFeatures, RunSteps(SeveritySteps, RunSteps(CauseSteps, RunSteps(StatusSteps(statusColumn), r))))
  {
    var a := StatusSteps(statusColumn);
    RunSnoc(a + CauseSteps + SeveritySteps, TimeFeatures, r);
    RunStepsAppend(a + CauseSteps, SeveritySteps, r);
    RunStepsAppend(a, CauseSteps, r);
  }

  /**
   * The sequence of masked overwrites equals the precedence functions: the
   * feature pass leaves exactly `WithFeatures` in every row.
   */
  lemma {:induction false} PassesArePrecedence(r: Row, statusColumn: bool)
    ensures RunSteps(Passes(statusColumn), r) == WithFeatures(r, statusColumn)
  {
    var status := EffectiveStatus(r, statusColumn);
    var delay := Delay(r);
    PassesInStages(r, statusColumn);
    StatusStepsEffect(r, statusColumn);
    var r1 := RunSteps(StatusSteps(statusColumn), r);
    assert r1 == r.(deliveryDelayDays := delay, status := status, isDelayed := delay > 0 || IsProblemStatus(status));
    CauseStepsEffect(r1);
    var r2 := RunSteps(CauseSteps, r1);
    assert r2 == r1.(primaryRootCause := RootCause(r.failureReason, status));
    SeverityStepsEffect(r2);
    var r3 := RunSteps(SeveritySteps, r2);
    assert r3 == r2.(severity := SeverityOf(delay, status));
    TimeFeaturesFrom(r3, r);
  }

  /** The time features read only `order_date`. */
  lemma TimeFeaturesFrom(x: Row, r: Row)
    requires x.orderDate == r.orderDate
    ensures var t := Apply(TimeFeatures, r);
      Apply(TimeFeatures, x) == x.(orderHour := t.orderHour, orderDayOfWeek := t.orderDayOfWeek, orderMonth := t.orderMonth)
  {
  }

  // ------------------------------------------------------- the array method

  /** One `df.loc[mask, column] = value` assignment over the whole table. */
  method AssignWhere(df: array<Row>, step: Step)
    modifies df
    ensures forall i :: 0 <= i < df.Length ==> df[i] == Apply(step, old(df[i]))
  {
    var i := 0;
    while i < df.Length
      invariant 0 <= i <= df.Length
      invariant forall j :: 0 <= j < i ==> df[j] == Apply(step, old(df[j]))
      invariant forall j :: i <= j < df.Length ==> df[j] == old(df[j])
    {
      df[i] := Apply(step, df[i]);
      i := i + 1;
    }
  }

  /** The assignments of `passes`, in order, each over every row. */
  method RunPasses(df: array<Row>, passes: seq<Step>)
    modifies df
    ensures forall i :: 0 <= i < df.Length ==> df[i] == RunSteps(passes, old(df[i]))
  {
    var k := 0;
    while k < |passes|
      invariant 0 <= k <= |passes|
      invariant forall i :: 0 <= i < df.Length ==> df[i] == RunSteps(passes[..k], old(df[i]))
    {
      ghost var before := df[..];
      AssignWhere(df, passes[k]);
      assert passes[..k + 1] == passes[..k] + [passes[k]];
      forall i | 0 <= i < df.Length ensures df[i] == RunSteps(passes[..k + 1], old(df[i])) {
        RunSnoc(passes[..k], passes[k], old(df[i]));
        assert df[i] == Apply(passes[k], before[i]);
      }
      k := k + 1;
    }
    assert passes[..k] == passes;
  }

  /**
   * `add_root_cause_features(df)`: the assignments in order, each over every
   * row, overwriting the derived columns in place.
   */
  method AddRootCauseFeatures(df: array<Row>, statusColumn: bool)
    modifies df
    ensures forall i :: 0 <= i < df.Length ==> df[i] == WithFeatures(old(df[i]), statusColumn)
  {
    RunPasses(df, Passes(statusColumn));
    forall i | 0 <= i < df.Length ensures df[i] == WithFeatures(old(df[i]), statusColumn) {
      PassesArePrecedence(old(df[i]), statusColumn);
    }
  }

  // ------------------------------------------------------- derived properties

  /** `is_delayed` holds iff the delay is positive or the status is Failed, Returned or Pending. */
  lemma DelayedIff(r: Row, statusColumn: bool)
    ensures WithFeatures(r, statusColumn).isDelayed <==>
      Delay(r) > 0 || (statusColumn && r.status in {Some("Failed"), Some("Returned"), Some("Pending")})
  {
  }

  /** A missing `status` column becomes `'Unknown'` for every row, and no row is then status-delayed. */
  lemma MissingStatusIsUnknown(r: Row)
    ensures WithFeatures(r, false).status == Some("Unknown")
    ensures WithFeatures(r, false).isDelayed <==> Delay(r) > 0
    ensures WithFeatures(r, false).severity != Critical
  {
  }

  /** Severity is Critical iff the status is Failed, otherwise a tier of the delay. */
  lemma SeverityTiers(delay: int, status: Option<string>)
    ensures SeverityOf(delay, status) == Critical <==> status == Some("Failed")
    ensures status != Some("Failed") ==>
      (SeverityOf(delay, status) == High <==> delay > 5) &&
      (SeverityOf(delay, status) == Medium <==> 2 < delay <= 5) &&
      (SeverityOf(delay, status) == Low <==> delay <= 2)
  {
  }

  /** Status overrides every keyword rule. */
  lemma StatusOverridesKeywords(reason: Option<string>, status: Option<string>)
    ensures status == Some("Failed") ==> RootCause(reason, status) == reason.GetOr("Unknown Failure")
    ensures status == Some("Returned") ==> RootCause(reason, status) == "Customer Return"
    ensures status == Some("Pending") ==> RootCause(reason, status) == "Processing Delay"
  {
  }

  /** The last matching rule decides the fold, whatever earlier rules match. */
  lemma {:induction false} LastMatchIsLast(rules: seq<CauseRule>, reason: Option<string>, fallback: string, k: nat)
    requires k < |rules| && RuleMatches(rules[k], reason)
    requires forall j :: k < j < |rules| ==> !RuleMatches(rules[j], reason)
    ensures LastMatch(rules, reason, fallback) == rules[k].cause
    decreases |rules|
  {
    if k < |rules| - 1 {
      var init := rules[..|rules| - 1];
      assert forall j :: k < j < |init| ==> init[j] == rules[j];
      LastMatchIsLast(init, reason, fallback, k);
    }
  }

  /** Outside the special statuses, the label is that of the last matching keyword rule. */
  lemma LastMatchingRuleWins(reason: Option<string>, status: Option<string>, k: nat)
    requires !IsProblemStatus(status)
    requires k < |CauseRules| && RuleMatches(CauseRules[k], reason)
    requires forall j :: k < j < |CauseRules| ==> !RuleMatches(CauseRules[j], reason)
    ensures RootCause(reason, status) == CauseRules[k].cause
  {
    LastMatchIsLast(CauseRules, reason, Default, k);
    LastMatchChain(reason);
    assert RootCause(reason, status) == RootCause(reason, None);
  }

  /** Without a matching rule or a special status the label is the default. */
  lemma DefaultCause(reason: Option<string>, status: Option<string>)
    requires !IsProblemStatus(status)
    requires forall i :: 0 <= i < |CauseRules| ==> !RuleMatches(CauseRules[i], reason)
    ensures RootCause(reason, status) == Default
  {
    assert !RuleMatches(CauseRules[5], reason) && !RuleMatches(CauseRules[4], reason);
    assert !RuleMatches(CauseRules[3], reason) && !RuleMatches(CauseRules[2], reason);
    assert !RuleMatches(CauseRules[1], reason) && !RuleMatches(CauseRules[0], reason);
  }

  /**
   * Idempotence: running the pass on its own output changes nothing, since
   * every derived column is reset or recomputed from base columns only.
   */
  lemma Idempotent(r: Row, statusColumn: bool)
    ensures WithFeatures(WithFeatures(r, statusColumn), true) == WithFeatures(r, statusColumn)
  {
  }

  /** Idempotence of the pass itself, in its step form. */
  lemma {:induction false} PassesIdempotent(r: Row, statusColumn: bool)
    ensures RunSteps(Passes(true), RunSteps(Passes(statusColumn), r)) == RunSteps(Passes(statusColumn), r)
  {
    PassesArePrecedence(r, statusColumn);
    PassesArePrecedence(WithFeatures(r, statusColumn), true);
    Idempotent(r, statusColumn);
  }
}
