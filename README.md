# Delivery root-cause analyzer, modelled in Dafny

This project models the core of `DeliveryAnalyzer`, the delivery-analytics engine of
the DeliveryAnalytics repository. The analyzer:

- joins an orders table with warehouses, clients, fleet logs, drivers, warehouse logs,
  external factors and customer feedback into one integrated table;
- adds derived root-cause columns: the delay in days, the delayed flag, the primary root
  cause, the severity tier, and the hour, day and month of the order;
- answers a natural-language query in four steps. It parses the query with rules, turns
  the parse into filters, runs the analysis the intent asks for (a cause breakdown or a
  comparison), and derives rule-based recommendations.

Modules, one per file:

| file | module | what it holds |
|---|---|---|
| `wrappers.dfy` | `Wrappers` | `Option` and `Result` |
| `text.dfy` | `Text` | ASCII case folding, substring search, `strip`, code-point string order |
| `grouping.dfy` | `Grouping` | boolean-mask selection, `groupby` keys and groups, descending sort, `head`, first maximum |
| `calendar.dfy` | `Calendar` | parsed timestamps: day numbers, whole-day differences, day and month names |
| `records.dfy` | `Records` | one datatype per source table, the integrated `Row`, the `Schema` of present columns |
| `integration.dfy` | `Integration` | `create_integrated_dataset`: the left joins and group reductions, in their order |
| `features.dfy` | `Features` | `add_root_cause_features`: masked column assignments run over an array of rows |
| `feature_examples.dfy` | `FeatureExamples` | worked cases of the feature pass |
| `filtering.dfy` | `Filtering` | `filter_data` |
| `analytics.dfy` | `Analytics` | `explain_delivery_causes`, `compare_performance` |
| `query.dfy` | `Query` | `parse_query_rule_based`, the filter construction and intent dispatch of `process_query`, `generate_rule_based_recommendations` |
| `analyzer.dfy` | `Analyzer` | the `DeliveryAnalyzer` class: its state and its methods |

The feature pass is imperative in the source: it is a series of `df.loc[mask, column] =
value` assignments. The model keeps that form. `Features.AddRootCauseFeatures` runs a
list of masked steps over an `array<Row>`, in source order. Its result is proved equal,
row by row, to two precedence functions: `RootCause` (the status override first, then the
last matching keyword rule, then the default) and `SeverityOf`.

The analyzer object is a class whose `integrated` field is set by
`CreateIntegratedDataset`. Its methods are tied to the pure specification functions
(`Filter`, `Respond`), and lemmas prove what the source promises about those functions.

Behaviour taken from the code where its own description says otherwise or says nothing:

- `compare_performance` rounds `delay_rate` to two decimals and then sorts by the rounded
  value, so groups whose rates round to the same value compare equal. The model keeps the
  rate as an integer number of hundredths of a percent, rounds the exact rate half to
  even, and sorts on that.
- `explain_delivery_causes` and `compare_performance` read `rating`. That column exists
  only when feedback was loaded, so without it they raise `KeyError`. `filter_data` raises
  `KeyError` on client and warehouse filters when `client_name` or `warehouse_name` is
  absent. The model returns these as `Failure` values.
- The feedback reducer `' | '.join` raises `TypeError` when a feedback text is null. This
  is modelled as an integration error.
- `max()` on empty `worst_days` or `most_affected_cities` raises `ValueError`. That happens
  when every problem row has a null day or a null city. It is modelled as
  `RecommendationError.EmptyMax`.
- `compare_performance` is called with `'city'` or `'warehouse_name'`, but any column
  can be named. A field name is resolved against the text columns the table has: those
  of the orders, the joined columns of each merge that ran (including `status_x`, the
  fleet notes and times, the warehouse log times and notes, and `feedback_text`), and the
  derived `primary_root_cause`, `severity`, day and month. The result is "field not
  found" exactly when the name is not one of them.
- `process_query` looks for "yesterday", "last week" and "last month" in the raw query,
  which is case-sensitive. The parser lower-cases the query first.
- The date filters keep only the date part, so `date_from` and `date_to` are midnight of
  that day. "yesterday" therefore keeps only orders placed exactly at midnight yesterday.
- The drivers merge splits `status` into `status_x` and `status_y`. The feature pass then
  writes `'Unknown'` into `status` for every row, so no row is then delayed by its status.

## Model

| member | source | states |
|---|---|---|
| Calendar.DaysBetween | delivery_root_cause_analyzer.py:182-184 | the whole-day difference is the floor of the elapsed time in days (`Timedelta.days`) |
| Calendar.SameMonthDaysBetween | delivery_root_cause_analyzer.py:182-184 | for two midnights in one month, the day difference is the difference of the days of month |
| Calendar.DayName | delivery_root_cause_analyzer.py:219 | `day_name()` is the English name of the date's weekday, counted from Monday |
| Calendar.EpochIsThursday | delivery_root_cause_analyzer.py:219 | 1 January 1970 is a Thursday, which anchors the weekday count |
| Calendar.NextDayName | delivery_root_cause_analyzer.py:219 | the day after a date has the next day name, Sunday wrapping to Monday |
| Calendar.WeeksApartSameName | delivery_root_cause_analyzer.py:219 | dates a whole number of weeks apart have the same day name |
| Calendar.DayNamesDistinct | delivery_root_cause_analyzer.py:219 | two dates share a day name iff they share a weekday |
| Calendar.MonthName | delivery_root_cause_analyzer.py:220 | `month_name()` is the English name of the date's month, January for month 1 |
| Calendar.MonthNamesDistinct | delivery_root_cause_analyzer.py:220 | two dates share a month name iff they share a month |
| Integration.FirstValid | delivery_root_cause_analyzer.py:123-130 | the `first` aggregate is null iff every value of the group is null; otherwise it is the earliest non-null value |
| Integration.JoinNotesNull | delivery_root_cause_analyzer.py:127 | the joined-notes reducer is null exactly when every note of the group is null |
| Integration.JoinNotesSingle | delivery_root_cause_analyzer.py:127 | with one non-empty note, and only null or empty ones besides it, the reducer yields that note unchanged |
| Integration.MeanOf | delivery_root_cause_analyzer.py:167 | the mean rating is null iff the group has no non-null rating |
| Integration.Reduce | delivery_root_cause_analyzer.py:123-130 | `groupby().agg()` gives one entry per distinct non-null key, in key order, each summarising exactly that key's group |
| Integration.LeftJoin | delivery_root_cause_analyzer.py:109-112 | a left merge never yields fewer rows than its left side |
| Integration.LeftJoinUnique | delivery_root_cause_analyzer.py:109-119 | when the right side's keys are unique, a left merge keeps the row count and fills row i from the first right row with row i's key |
| Integration.AssignWarehouseIds | delivery_root_cause_analyzer.py:107-108 | every order's `warehouse_id` is replaced by the id mapped from its city; no other column changes |
| Integration.MapCityIsFirstWarehouse | delivery_root_cause_analyzer.py:107-108 | the city map from `groupby('city')['warehouse_id'].first()` gives each city the first non-null id among its warehouses, and null for an unknown or null city |
| Integration.JoinedSchema | delivery_root_cause_analyzer.py:135-139 | a `status` column survives the merges iff drivers were not merged, i.e. unless both drivers and fleet logs were loaded |
| Integration.DriverOf | delivery_root_cause_analyzer.py:135-139 | the drivers merge keeps the order id and clears `status` exactly when it happens |
| Integration.WarehousesPointwise | delivery_root_cause_analyzer.py:105-112 | with unique warehouse ids, the warehouse stage keeps the rows and fills each from its city's warehouse |
| Integration.ClientsPointwise | delivery_root_cause_analyzer.py:115-119 | with unique client ids, the client stage keeps the rows and fills each from its client |
| Integration.FleetLogsPointwise | delivery_root_cause_analyzer.py:122-132 | the fleet stage keeps the rows and fills each from its order's reduced fleet logs |
| Integration.DriversPointwise | delivery_root_cause_analyzer.py:135-139 | with unique driver ids, the drivers stage keeps the rows and fills each from its driver |
| Integration.WarehouseLogsPointwise | delivery_root_cause_analyzer.py:142-150 | the warehouse-log stage keeps the rows and fills each from its order's reduced logs |
| Integration.ExternalFactorsPointwise | delivery_root_cause_analyzer.py:153-160 | the external-factor stage keeps the rows and fills each from its order's reduced factors |
| Integration.FeedbacksPointwise | delivery_root_cause_analyzer.py:163-170 | the feedback stage keeps the rows and fills each from its order's reduced feedback |
| Integration.JoinedRowsPerOrder | delivery_root_cause_analyzer.py:94-170 | with unique keys in the side tables, the merged table has one row per order, in order, each row being that order run through every stage |
| Integration.IntegrateOrderKeepsId | delivery_root_cause_analyzer.py:94-170 | every stage keeps the order id, and `status` is lost only when drivers are merged |
| Integration.LeftJoinKeepsIds | delivery_root_cause_analyzer.py:109-112 | whatever the key multiplicities, a left merge keeps every left row: the left order ids are a subsequence of the output's |
| Integration.WarehousesKeepIds | delivery_root_cause_analyzer.py:105-112 | the warehouse stage keeps the order ids of its input, in order |
| Integration.ClientsKeepIds | delivery_root_cause_analyzer.py:115-119 | the client stage keeps the order ids of its input, in order |
| Integration.FleetLogsKeepIds | delivery_root_cause_analyzer.py:122-132 | the fleet stage keeps the order ids of its input, in order |
| Integration.DriversKeepIds | delivery_root_cause_analyzer.py:135-139 | the drivers stage keeps the order ids of its input, in order |
| Integration.WarehouseLogsKeepIds | delivery_root_cause_analyzer.py:142-150 | the warehouse-log stage keeps the order ids of its input, in order |
| Integration.ExternalFactorsKeepIds | delivery_root_cause_analyzer.py:153-160 | the external-factor stage keeps the order ids of its input, in order |
| Integration.FeedbacksKeepIds | delivery_root_cause_analyzer.py:163-170 | the feedback stage keeps the order ids of its input, in order |
| Integration.JoinedRowsKeepOrders | delivery_root_cause_analyzer.py:94-170 | whatever the key multiplicities, the merges drop no order: the orders' ids reappear, in order, among the merged rows' ids |
| Features.Delay | delivery_root_cause_analyzer.py:182-184 | the delay is the floor of (actual − promised) in days, and 0 when either date is missing |
| Features.LastMatch | delivery_root_cause_analyzer.py:199-204 | the keyword label is the fallback or the label of a rule that matches the reason |
| Features.KeywordStepsLastMatch | delivery_root_cause_analyzer.py:199-204 | running the keyword assignments in order changes only the label, and sets it to the last matching rule's label |
| Features.LastMatchIsLast | delivery_root_cause_analyzer.py:199-204 | if rule k matches and no later rule does, the fold yields rule k's label, whatever earlier rules match |
| Features.LastMatchChain | delivery_root_cause_analyzer.py:195-204 | the fold of the six keyword rules from 'Other/Unknown' equals the keyword part of the precedence chain |
| Features.StatusStepsEffect | delivery_root_cause_analyzer.py:182-192 | the first assignments set the delay, supply `status` when it is absent, and set `is_delayed` from both |
| Features.KeywordPrefixEffect | delivery_root_cause_analyzer.py:195-204 | the reset and the keyword assignments leave the keyword-only root cause |
| Features.StatusOverridesEffect | delivery_root_cause_analyzer.py:207-209 | the Failed, Returned and Pending assignments turn the keyword label into the full root cause |
| Features.CauseStepsEffect | delivery_root_cause_analyzer.py:195-209 | all root-cause assignments together set `primary_root_cause` to `RootCause(reason, status)` and change nothing else |
| Features.SeverityStepsEffect | delivery_root_cause_analyzer.py:212-215 | the severity assignments set `severity` to `SeverityOf(delay, status)` and change nothing else |
| Features.PassesInStages | delivery_root_cause_analyzer.py:178-220 | the whole pass is the status, cause, severity and time stages, one after the other |
| Features.PassesArePrecedence | delivery_root_cause_analyzer.py:178-220 | the sequence of masked overwrites leaves exactly `WithFeatures` in a row |
| Features.TimeFeaturesFrom | delivery_root_cause_analyzer.py:218-220 | the time features depend on `order_date` alone |
| Features.AssignWhere | delivery_root_cause_analyzer.py:199 | one masked assignment over the array applies its step to every row |
| Features.RunPasses | delivery_root_cause_analyzer.py:178-220 | running the assignments in order over the array leaves every row as the fold of all steps over its old value |
| Features.AddRootCauseFeatures | delivery_root_cause_analyzer.py:178-220 | in place, every row becomes `WithFeatures` of its old value |
| Features.DelayedIff | delivery_root_cause_analyzer.py:192 | `is_delayed` iff the delay is positive or the status is Failed, Returned or Pending |
| Features.MissingStatusIsUnknown | delivery_root_cause_analyzer.py:186-192 | when `status` is absent every row gets 'Unknown', is delayed iff its delay is positive, and is never Critical |
| Features.SeverityTiers | delivery_root_cause_analyzer.py:211-215 | Critical iff Failed; otherwise High iff delay > 5, Medium iff 2 < delay ≤ 5, Low iff delay ≤ 2 |
| Features.StatusOverridesKeywords | delivery_root_cause_analyzer.py:206-209 | Failed keeps the reason, or 'Unknown Failure' when it is null; Returned gives 'Customer Return'; Pending gives 'Processing Delay' |
| Features.LastMatchingRuleWins | delivery_root_cause_analyzer.py:199-204 | outside those statuses, the label is that of the last matching keyword rule |
| Features.DefaultCause | delivery_root_cause_analyzer.py:195-204 | with no special status and no matching rule, the label is 'Other/Unknown' |
| Features.Idempotent | delivery_root_cause_analyzer.py:178-220 | applying the derived columns again to their own output changes nothing |
| Features.PassesIdempotent | delivery_root_cause_analyzer.py:178-220 | running the assignment pass again on its own output changes nothing |
| FeatureExamples.ThreeDaysLate | delivery_root_cause_analyzer.py:182-184 | promised 2024-01-10, delivered 2024-01-13: three days |
| FeatureExamples.TrafficDelayIsWarehouse | delivery_root_cause_analyzer.py:199-204 | a Delivered order with reason "Traffic delay" matches Traffic and delay; the later rule wins and gives 'Warehouse Operations' |
| FeatureExamples.WarehouseLabel | delivery_root_cause_analyzer.py:201-204 | any reason that lower-cases to "traffic delay" is labelled 'Warehouse Operations' on a Delivered order |
| FeatureExamples.FailedKeepsReason | delivery_root_cause_analyzer.py:207 | a Failed "Stock out" stays "Stock out"; a Failed order with no reason gets 'Unknown Failure' |
| FeatureExamples.FailedIsCritical | delivery_root_cause_analyzer.py:213-215 | six days late and Failed is Critical; six days late and Delivered is High |
| Filtering.Criteria | delivery_root_cause_analyzer.py:399-413 | the filter takes at most five narrowing steps |
| Filtering.SelectSnoc | delivery_root_cause_analyzer.py:399-413 | one more supplied key narrows the current selection by its mask |
| Filtering.QualifiesIffCriteria | delivery_root_cause_analyzer.py:399-413 | a row qualifies for the filters iff it passes every step taken |
| Filtering.SelectIsConjunction | delivery_root_cause_analyzer.py:397-415 | narrowing step by step equals selecting, in order, the rows that pass every step |
| Filtering.FilterIsQualifying | delivery_root_cause_analyzer.py:395-415 | a successful filter returns exactly the qualifying rows, in table order |
| Filtering.FilterSoundAndComplete | delivery_root_cause_analyzer.py:395-415 | the result is a subsequence of the table; every row in it qualifies; every qualifying row is in it |
| Filtering.FilterFailsIff | delivery_root_cause_analyzer.py:408-413 | filtering fails iff clients are given without `client_name` or warehouses are given without `warehouse_name` |
| Filtering.NoFilterIsIdentity | delivery_root_cause_analyzer.py:397-415 | the empty filter returns the table unchanged |
| Filtering.FilterIdempotent | delivery_root_cause_analyzer.py:395-415 | filtering the result again with the same filters changes nothing |
| Grouping.Where | delivery_root_cause_analyzer.py:421-424 | a boolean mask keeps exactly the rows that satisfy it, and never adds rows |
| Grouping.WhereIsSubsequence | delivery_root_cause_analyzer.py:397-415 | a mask selection keeps the table order |
| Grouping.KeysOf | delivery_root_cause_analyzer.py:430 | `groupby` keys are strictly sorted and are exactly the non-null key values present |
| Grouping.Group | delivery_root_cause_analyzer.py:430 | a group holds exactly the rows with that key |
| Grouping.GroupSizesTotal | delivery_root_cause_analyzer.py:430 | the group sizes add up to the number of rows with a non-null key |
| Grouping.InsertDesc | delivery_root_cause_analyzer.py:439 | inserting into a descending list keeps it descending and adds exactly that one element |
| Grouping.SortDesc | delivery_root_cause_analyzer.py:439 | `sort_values(ascending=False)` yields a non-increasing permutation of its input |
| Grouping.Take | delivery_root_cause_analyzer.py:439 | `head(n)` has min(n, len) entries, the first ones in order, and is the whole list when n ≥ len |
| Grouping.TakeNonIncreasing | delivery_root_cause_analyzer.py:439 | `head` of a sorted list stays sorted |
| Grouping.FirstMax | delivery_root_cause_analyzer.py:556 | `max(key=...)` picks an entry of greatest score, the first of them |
| Grouping.FirstMaxOfSorted | delivery_root_cause_analyzer.py:556 | on a list sorted largest first, `max` picks the head |
| Analytics.MeanRating | delivery_root_cause_analyzer.py:434 | the mean rating is null iff no row of the group has a rating |
| Analytics.CauseKeyTotal | delivery_root_cause_analyzer.py:430 | `primary_root_cause` is never null, so every problem row falls in some cause group |
| Analytics.CauseTable | delivery_root_cause_analyzer.py:430-438 | one statistics entry per cause, computed from exactly that cause's rows |
| Analytics.CountTable | delivery_root_cause_analyzer.py:445 | one count per key, equal to the size of that key's group |
| Analytics.CityTable | delivery_root_cause_analyzer.py:449-452 | per city: the number of problem orders and their summed amount |
| Analytics.ExplainNoIssuesIff | delivery_root_cause_analyzer.py:421-427 | the "no issues" result comes exactly when no row is delayed, Failed or Returned |
| Analytics.CriticalWithinFailures | delivery_root_cause_analyzer.py:435 | each cause has no more critical cases than failures |
| Analytics.BreakdownShape | delivery_root_cause_analyzer.py:430-439 | the breakdown holds at most `limit` causes, most failures first |
| Analytics.InsightsShape | delivery_root_cause_analyzer.py:444-458 | at most 3 days, 5 cities and 5 warehouses, each most affected first |
| Analytics.ExplainShape | delivery_root_cause_analyzer.py:417-466 | an explanation has a sorted, truncated breakdown and bounded sorted insights; warehouses appear iff the column exists; `total_affected_orders` is the number of problem rows, and the cause counts before truncation sum to it |
| Analytics.BreakdownCountsTotal | delivery_root_cause_analyzer.py:430-439 | the per-cause failure counts add up to the number of problem rows |
| Analytics.ProblemsAreDelayed | delivery_root_cause_analyzer.py:421-424 | when every Failed or Returned row is delayed, the problem rows are exactly the delayed rows |
| Analytics.RoundHalfEven | delivery_root_cause_analyzer.py:483 | the quotient is within half a unit of the exact n/d, and exact ties go to the even neighbour |
| Analytics.RateBounds | delivery_root_cause_analyzer.py:483 | with delayed ≤ total, the rounded delay rate lies between 0 and 100.00 percent |
| Analytics.StatsTable | delivery_root_cause_analyzer.py:474-483 | one statistics entry per group value, computed from exactly that group's rows |
| Analytics.FieldOf | delivery_root_cause_analyzer.py:471-472 | a field name resolves to the column of that name, and is unknown exactly when no modelled column has it |
| Analytics.FieldOfName | delivery_root_cause_analyzer.py:471-472 | every column's own name resolves to that column |
| Analytics.DimensionNameInjective | delivery_root_cause_analyzer.py:471-472 | no two columns share a name |
| Analytics.ColumnOfName | delivery_root_cause_analyzer.py:471-472 | a column's name is a column of the table exactly when the merge that adds that column ran |
| Analytics.SeverityColumn | delivery_root_cause_analyzer.py:212 | `severity` is always a column; `status_x` is one exactly when the drivers merge ran |
| Analytics.FleetTextColumns | delivery_root_cause_analyzer.py:122-132 | `gps_delay_notes`, `departure_time` and `arrival_time` are columns exactly when fleet logs were merged |
| Analytics.PickingColumns | delivery_root_cause_analyzer.py:142-150 | `picking_start` and `picking_end` are columns exactly when warehouse logs were merged |
| Analytics.DispatchColumns | delivery_root_cause_analyzer.py:142-150 | `dispatch_time` and `notes` are columns exactly when warehouse logs were merged |
| Analytics.FeedbackTextColumn | delivery_root_cause_analyzer.py:163-170 | `feedback_text` is a column exactly when feedback was merged |
| Analytics.CompareNotFoundIff | delivery_root_cause_analyzer.py:471-472 | the "field not found" result comes exactly for a name that is not a text column of the table |
| Analytics.CompareByColumn | delivery_root_cause_analyzer.py:471-485 | with ratings present, naming a column the table has gives groups, each keyed by a value some row has in that column |
| Analytics.CompareBySeverity | delivery_root_cause_analyzer.py:471-485 | comparing by `severity` gives groups keyed by the tier names the rows carry |
| Analytics.CompareGroupKeys | delivery_root_cause_analyzer.py:474-485 | the compared groups are exactly the non-null values of the named column in the table |
| Analytics.CompareProperties | delivery_root_cause_analyzer.py:468-485 | groups come highest delay rate first; each group is non-empty, has delayed ≤ total and a rate in [0, 100] percent; group totals add up to the rows with a non-null value |
| Analytics.StatsTableBounds | delivery_root_cause_analyzer.py:474-483 | each reported group is non-empty, with delayed ≤ total and a rate in [0, 100] percent |
| Analytics.StatsTableSizes | delivery_root_cause_analyzer.py:474-476 | the `order_id` counts of the groups add up to the sizes of their groups |
| Analytics.GroupNonEmpty | delivery_root_cause_analyzer.py:474 | a key that `groupby` reports has at least one row |
| Text.JoinSnoc | delivery_root_cause_analyzer.py:127 | `sep.join` on one more string appends the separator and that string |
| Text.JoinLength | delivery_root_cause_analyzer.py:165 | `sep.join` holds every string once and one separator between each two |
| Text.Lower | delivery_root_cause_analyzer.py:353 | `lower()` keeps the length and folds each character |
| Text.Strip | delivery_root_cause_analyzer.py:353 | `strip()` leaves no white space at either end and changes nothing that has none |
| Text.StripTrims | delivery_root_cause_analyzer.py:353 | `strip()` is a slice of its input with only white space, as `str.isspace` defines it, cut off on either side |
| Text.ContainsBySearch | delivery_root_cause_analyzer.py:365 | the left-to-right search decides Python's substring `in` |
| Text.LowerStrip | delivery_root_cause_analyzer.py:353 | case folding commutes with `strip()` |
| Query.RunEnd | delivery_root_cause_analyzer.py:368 | a greedy run ends at the first character outside the class |
| Query.MatchAt | delivery_root_cause_analyzer.py:368-373 | a match at a position captures a span that starts after the keyword and ends within the query |
| Query.MatchAtCaptures | delivery_root_cause_analyzer.py:368-373 | a match at p is the keyword at p, one or more white-space characters, then the longest run of letters (or digits) as the capture |
| Query.Scan | delivery_root_cause_analyzer.py:368-373 | every span the `findall` scan reports lies after the start position and within the text |
| Query.ScanPosition | delivery_root_cause_analyzer.py:368-373 | each reported span is the pattern's match at some position at or after the start |
| Query.ScanOrdered | delivery_root_cause_analyzer.py:368-373 | the reported spans come left to right and do not overlap |
| Query.ScanEmpty | delivery_root_cause_analyzer.py:368-373 | the scan reports nothing iff the pattern matches at no position it tries |
| Query.Spans | delivery_root_cause_analyzer.py:368-373 | the capture spans of the client or warehouse pattern lie within the query |
| Query.SpanPosition | delivery_root_cause_analyzer.py:368-373 | each capture span is the pattern's match at some position at or after the start |
| Query.SpansOrdered | delivery_root_cause_analyzer.py:368-373 | the capture spans come left to right and do not overlap |
| Query.FindAll | delivery_root_cause_analyzer.py:368-373 | one capture per span; every capture of the client pattern is a non-empty run of lower-case letters, every capture of the warehouse pattern a run of letters or of digits |
| Query.FindAllSound | delivery_root_cause_analyzer.py:368-373 | every capture is the keyword at some position, white space, and the longest run of letters (or digits) after it |
| Query.FindAllEmpty | delivery_root_cause_analyzer.py:368-373 | there is no capture iff the pattern matches at no position from the start on |
| Query.FindAllAbsent | delivery_root_cause_analyzer.py:369 | with no occurrence of the keyword from the search position on, there are no captures |
| Query.FindAllNeedsWord | delivery_root_cause_analyzer.py:368-373 | a query without the keyword yields no references |
| Query.FindAllSingle | delivery_root_cause_analyzer.py:368-373 | the keyword, one space and a run of lower-case letters yield exactly that run (e.g. "client acme" gives ["acme"]) |
| Query.NormaliseIdempotent | delivery_root_cause_analyzer.py:353 | `lower().strip()` is idempotent |
| Query.ParseStable | delivery_root_cause_analyzer.py:351-393 | parsing the echoed `original_query` again gives the same parse |
| Query.CitiesMentioned | delivery_root_cause_analyzer.py:364-365 | the mentioned cities are exactly the known cities occurring in the normalised query, in list order |
| Query.ReferencesAreTokens | delivery_root_cause_analyzer.py:367-373 | every client reference is a run of letters and every warehouse reference a run of letters or digits |
| Query.IntentCues | delivery_root_cause_analyzer.py:375-384 | the intent is that of the first word list with a word in the query: explain, then compare, then predict, then rank, else unknown |
| Query.QueryFiltersMeaning | delivery_root_cause_analyzer.py:654-674 | the filters carry the parsed cities, clients and warehouses; a date bound exists only for a time cue, both bounds and equal for "yesterday"; every bound is a midnight one to thirty days before now |
| Query.CompareFieldNames | delivery_root_cause_analyzer.py:684-687 | a comparison groups by `'city'` when more than one city is named, else by `'warehouse_name'` |
| Query.AnalyseDispatch | delivery_root_cause_analyzer.py:681-692 | a comparison report comes iff the intent is compare; a cause breakdown has at most 5 causes for rank and 10 otherwise; the analysis fails only without the `rating` column, with that error |
| Query.CompareGroupsBy | delivery_root_cause_analyzer.py:683-687 | the groups of a compare query are exactly the cities in the table when two or more cities are named, else exactly its warehouse names |
| Query.CauseAdvice | delivery_root_cause_analyzer.py:555-591 | the cause advice is one of the five fixed three-line lists, or nothing |
| Query.WeatherAdviceWhen | delivery_root_cause_analyzer.py:565-570 | a top cause with "weather" and without "traffic", in any case, gets the weather advice |
| Query.WarehouseAdviceWhen | delivery_root_cause_analyzer.py:572-577 | "warehouse" without the earlier keywords gets the warehouse advice |
| Query.AddressAdviceWhen | delivery_root_cause_analyzer.py:579-584 | "address" without the earlier keywords gets the address advice |
| Query.StockAdviceWhen | delivery_root_cause_analyzer.py:586-591 | "stock" without the earlier keywords gets the stock advice |
| Query.RecommendationsOfSorted | delivery_root_cause_analyzer.py:546-607 | on sorted insights, the advice is that of the top cause, then the worst day, then the most affected city; an empty day or city list raises |
| Query.RecommendationsFollowRanking | delivery_root_cause_analyzer.py:546-607 | for an explanation of a table, successful recommendations follow its ranking and number two to five |
| Query.TrafficAdviceWhen | delivery_root_cause_analyzer.py:558-563 | a top cause containing "traffic" in any case gets the traffic advice |
| Query.NoAdviceWhen | delivery_root_cause_analyzer.py:558-591 | a top cause containing none of the five keywords gets no cause advice |
| Query.TrafficCauseAdvice | delivery_root_cause_analyzer.py:558-563 | 'Traffic Congestion' gets the traffic advice |
| Query.VehicleCauseNoAdvice | delivery_root_cause_analyzer.py:558-591 | 'Vehicle Issues' gets no cause advice |
| Query.RespondParts | delivery_root_cause_analyzer.py:654-713 | a successful response analysed the filtered table with the parsed intent and recommended from that analysis; it reports the intent and the filters used |
| Query.UnfilteredQuery | delivery_root_cause_analyzer.py:654-677 | a query with no city, client, warehouse or time cue applies no filter and is analysed on the whole table |
| Query.RespondAnalysesFilteredRows | delivery_root_cause_analyzer.py:654-692 | the analysis runs on exactly the rows that qualify for the built filters, in table order |
| Analyzer.IntegratedRows | delivery_root_cause_analyzer.py:172-175 | the integrated table has as many rows as the merged table |
| Analyzer.IntegratedRowsPerOrder | delivery_root_cause_analyzer.py:94-175 | no order is lost: the orders' ids reappear, in order, among the integrated rows' ids; with unique side-table keys, row i is order i merged and given its derived columns |
| Analyzer.IntegratedProblemsDelayed | delivery_root_cause_analyzer.py:192 | in the integrated table every Failed or Returned row is delayed, so the problem rows are the delayed rows |
| Analyzer.FilteredProblemsDelayed | delivery_root_cause_analyzer.py:421-424 | any selection of integrated rows keeps that property |
| Analyzer.DeliveryAnalyzer.constructor | delivery_root_cause_analyzer.py:61-63 | a new analyzer holds the loaded tables and no integrated table |
| Analyzer.DeliveryAnalyzer.CreateIntegratedDataset | delivery_root_cause_analyzer.py:87-176 | fails without orders, or on a null feedback text, and then changes nothing; otherwise stores the merged table with its derived columns |
| Analyzer.DeliveryAnalyzer.FilterData | delivery_root_cause_analyzer.py:395-415 | the narrowing steps taken on the stored table give exactly `Filter` of it |
| Analyzer.DeliveryAnalyzer.ProcessQuery | delivery_root_cause_analyzer.py:638-718 | parse, filter, analyse and recommend on the stored table give exactly `Respond` of it |

## Left out

- Loading the CSV files (`load_all_data`) and `pd.to_datetime` parsing are not modelled. Tables and dates arrive already parsed, and an unparseable date is a null.
- The Perplexity paths are not modelled: AI parsing, AI recommendations and the executive summary. The model follows the rule-based fallback, which the code uses when no API key is set.
- The audit log, `display_results` and all printing are I/O and are left out. So is the response's `timestamp`.
- The current time is the parameter `now` of `ProcessQuery`.
- `Analyzer.DeliveryAnalyzer.constructor` does not create the dataset. Creating it is a separate call, `CreateIntegratedDataset`.
- Amounts are integers in minor currency units and ratings are integers, so float arithmetic is exact in the model. Means are exact `real`s.
- `.round(2)` on means and sums is not modelled. The delay rate is the exception: it is rounded, because the sort uses the rounded value.
- Tie order in `sort_values` is not modelled. The model inserts stably into groups taken in key order, and pandas' default quicksort promises no tie order.
- `compare_performance` is modelled for text columns only: `Analytics.Dimension` lists them. Grouping by a numeric, boolean or date column is left out.
- RoundHalfEven: rounds the exact rate. NumPy rounds the IEEE double that the division produced, so a rate whose double lies just below or above the half rounds differently: 23/160 gives 14.37 in the source and 14.38 here, and 49/160 gives 30.63 there and 30.62 here.
- Filter and query patterns are modelled as literal substrings. Regular-expression metacharacters in client or warehouse names, passed through `'|'.join` to `str.contains`, are not modelled.
- Case folding and `\d` are ASCII only. Unicode case folding and non-ASCII decimal digits are not modelled. White space is the set `str.isspace()` accepts, which is also what `\s` matches.
- A comparison whose groups include one named "root_cause_analysis" or "insights" would make the source look for advice inside it. The model gives no advice for every comparison.
- Timestamps have one-second resolution. Sub-second parts are not modelled.
- `explain_delivery_causes` returns 0.0 as the average delay of an empty group; pandas gives NaN there. That case cannot arise, because the problem rows are never empty when the mean is taken.
- The `failure_reason` column is assumed present in the orders table. Without it the source skips the keyword rules but then raises `KeyError` at line 207, where the Failed override reads the column; that error is not modelled.
- A text column whose values are all null is read by pandas as a float column, and `.str` on it raises `AttributeError` (`failure_reason` at line 199, `city` at line 400). The model treats those columns as text and does not raise.
- Dates are taken as `pd.to_datetime` produced them. `Calendar.DateTime` does not exclude impossible dates such as 30 February, which the parser would have rejected.
- `compare_performance` over a non-text column (`amount`, `capacity`, `rating`, `delivery_delay_days`, `order_hour`, the parsed dates, `is_delayed`) is not modelled: such a name resolves to no modelled column and is reported as not found.
- `setup_perplexity.py` and `demo_use_cases.py` are not part of this model.
