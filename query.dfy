/**
 * The rule-based natural-language front end: `parse_query_rule_based`, the
 * filters and analysis `process_query` derives from a parsed query, and
 * `generate_rule_based_recommendations`.
 */
module Query {
  import opened Wrappers
  import opened Text
  import opened Grouping
  import opened Calendar
  import opened Records
  import Filtering
  import opened Analytics

  const KnownCities: seq<string> :=
    ["ahmedabad", "mumbai", "delhi", "bangalore", "chennai", "pune", "surat", "coimbatore", "mysuru", "nagpur"]

  const ExplainWords: seq<string> := ["why", "explain", "reasons", "causes"]
  const CompareWords: seq<string> := ["compare", "comparison"]
  const PredictWords: seq<string> := ["predict", "forecast", "expect", "prepare"]
  const RankWords: seq<string> := ["top", "most", "highest"]

  /** The keys of `time_patterns`, in dictionary order. */
  const TimeWords: seq<string> := ["yesterday", "last week", "last month", "this month"]

  /** `w in q`, as a mask over candidate words. */
  function MentionedIn(q: string): string -> bool {
    w => Contains(q, w)
  }

  // ------------------------------------------------------ regular expressions

  /** The end of the run of `cls` characters starting at `i`. */
  function RunEnd(s: string, i: nat, cls: char -> bool): (j: nat)
    requires i <= |s|
    ensures i <= j <= |s|
    ensures forall k :: i <= k < j ==> cls(s[k])
    ensures j == |s| || !cls(s[j])
    decreases |s| - i
  {
    if i < |s| && cls(s[i]) then RunEnd(s, i + 1, cls) else i
  }

  /** A capture of `([a-z]+)`, or of `([a-z]+|\d+)` when `digits` holds. */
  predicate IsToken(t: string, digits: bool) {
    t != [] && ((forall k :: 0 <= k < |t| ==> IsLowerLetter(t[k])) || (digits && forall k :: 0 <= k < |t| ==> IsDigit(t[k])))
  }

  /**
   * `cap` is what the pattern captures for the occurrence of `word` at `p`:
   * one or more white-space characters follow `word` up to `j`, and `cap` is
   * the longest run of letters (or of digits) starting there, ending at `e`.
   */
  ghost predicate CapturedAt(s: string, word: string, digits: bool, p: nat, j: nat, e: nat, cap: string) {
    && OccursAt(s, word, p) && p + |word| < j < e <= |s|
    && (forall m :: p + |word| <= m < j ==> IsSpace(s[m]))
    && cap == s[j..e] && IsToken(cap, digits)
    && (e < |s| ==> (IsLowerLetter(s[j]) ==> !IsLowerLetter(s[e])) && (IsDigit(s[j]) ==> !IsDigit(s[e])))
  }

  /**
   * The pattern tried at position `i`: `word`, white space, then the longest
   * run of letters, else of digits when `digits` holds. The result is where
   * the capture starts and ends.
   */
  function MatchAt(s: string, word: string, digits: bool, i: nat): (m: Option<(nat, nat)>)
    ensures m.Some? ==> i + |word| < m.value.0 < m.value.1 <= |s|
  {
    if i + |word| <= |s| && s[i..i + |word|] == word then
      var j := RunEnd(s, i + |word|, IsSpace);
      if j > i + |word| && j < |s| && IsLowerLetter(s[j]) then
        Some((j, RunEnd(s, j, IsLowerLetter)))
      else if digits && j > i + |word| && j < |s| && IsDigit(s[j]) then
        Some((j, RunEnd(s, j, IsDigit)))
      else None
    else None
  }

  /** A match at `i` is an occurrence of the pattern there, and its span is the capture. */
  lemma MatchAtCaptures(s: string, word: string, digits: bool, i: nat)
    requires MatchAt(s, word, digits, i).Some?
    ensures var m := MatchAt(s, word, digits, i).value;
      CapturedAt(s, word, digits, i, m.0, m.1, s[m.0..m.1])
  {
    var m := MatchAt(s, word, digits, i).value;
    assert s[m.0..m.1][0] == s[m.0];
  }

  // The scan of `re.findall`, for any pattern: `m(p)` is the span the pattern
  // captures when it matches at `p`, in a text of length `n`; the pattern
  // needs at least `w` characters.

  /** A match at `p` captures a non-empty span after `p`, within the text. */
  ghost predicate Advances(m: nat -> Option<(nat, nat)>, n: nat) {
    forall p: nat :: m(p).Some? ==> p < m(p).value.0 < m(p).value.1 <= n
  }

  /**
   * The spans found from position `i` on: after a match the scan resumes at
   * its end, otherwise at the next position.
   */
  function Scan(m: nat -> Option<(nat, nat)>, n: nat, w: nat, i: nat): (sp: seq<(nat, nat)>)
    requires w > 0 && Advances(m, n)
    ensures forall k :: 0 <= k < |sp| ==> i < sp[k].0 < sp[k].1 <= n
    decreases n - i
  {
    if i + w > n then []
    else match m(i)
      case None => Scan(m, n, w, i + 1)
      case Some(x) => [x] + Scan(m, n, w, x.1)
  }

  /** Each span is what the pattern matches at some position at or after `i`. */
  lemma {:induction false} ScanPosition(m: nat -> Option<(nat, nat)>, n: nat, w: nat, i: nat, k: nat) returns (p: nat)
    requires w > 0 && Advances(m, n) && k < |Scan(m, n, w, i)|
    ensures i <= p && p + w <= n && m(p) == Some(Scan(m, n, w, i)[k])
    decreases n - i
  {
    if m(i).None? {
      p := ScanPosition(m, n, w, i + 1, k);
    } else if k == 0 {
      p := i;
    } else {
      p := ScanPosition(m, n, w, m(i).value.1, k - 1);
    }
  }

  /** Each span ends before the next one starts. */
  predicate InOrder(sp: seq<(nat, nat)>) {
    forall a, b :: 0 <= a < b < |sp| ==> sp[a].1 < sp[b].0
  }

  /** The spans come in order and do not overlap. */
  lemma {:induction false} ScanOrdered(m: nat -> Option<(nat, nat)>, n: nat, w: nat, i: nat)
    requires w > 0 && Advances(m, n)
    ensures InOrder(Scan(m, n, w, i))
    decreases n - i
  {
    if i + w <= n {
      match m(i)
      case None =>
        ScanOrdered(m, n, w, i + 1);
        assert Scan(m, n, w, i) == Scan(m, n, w, i + 1);
      case Some(x) =>
        ScanOrdered(m, n, w, x.1);
        assert Scan(m, n, w, i) == [x] + Scan(m, n, w, x.1);
        ConsOrdered(x, Scan(m, n, w, x.1));
    }
  }

  /** Spans in order, after a span that ends before all of them, are still in order. */
  lemma ConsOrdered(x: (nat, nat), rest: seq<(nat, nat)>)
    requires forall k :: 0 <= k < |rest| ==> x.1 < rest[k].0
    requires InOrder(rest)
    ensures InOrder([x] + rest)
  {
    var sp := [x] + rest;
    forall a, b | 0 <= a < b < |sp| ensures sp[a].1 < sp[b].0 {
      assert sp[b] == rest[b - 1];
      if a > 0 {
        assert sp[a] == rest[a - 1];
      }
    }
  }

  /** Nothing is found from `i` on exactly when the pattern matches at no position it is tried at. */
  lemma {:induction false} ScanEmpty(m: nat -> Option<(nat, nat)>, n: nat, w: nat, i: nat)
    requires w > 0 && Advances(m, n)
    ensures Scan(m, n, w, i) == [] <==> forall p: nat :: i <= p && p + w <= n ==> m(p).None?
    decreases n - i
  {
    if i + w <= n {
      if m(i).None? {
        ScanEmpty(m, n, w, i + 1);
        if forall p: nat :: i + 1 <= p && p + w <= n ==> m(p).None? {
          forall p: nat | i <= p && p + w <= n ensures m(p).None? {
            if p != i { assert i + 1 <= p; }
          }
        }
      }
    }
  }

  /** The pattern `word + r'\s+([a-z]+)'` (with `|\d+` when `digits` holds) tried at each position of `s`. */
  function Matcher(s: string, word: string, digits: bool): nat -> Option<(nat, nat)> {
    p => MatchAt(s, word, digits, p)
  }

  lemma MatcherAdvances(s: string, word: string, digits: bool)
    ensures Advances(Matcher(s, word, digits), |s|)
  {
  }

  /** Where `re.findall` of the pattern captures, scanning from position `i`. */
  function Spans(s: string, word: string, digits: bool, i: nat): (sp: seq<(nat, nat)>)
    requires word != []
    ensures forall k :: 0 <= k < |sp| ==> i < sp[k].0 < sp[k].1 <= |s|
  {
    MatcherAdvances(s, word, digits);
    Scan(Matcher(s, word, digits), |s|, |word|, i)
  }

  /** Each span is what the pattern matches at some position at or after `i`. */
  lemma SpanPosition(s: string, word: string, digits: bool, i: nat, k: nat) returns (p: nat)
    requires word != [] && k < |Spans(s, word, digits, i)|
    ensures i <= p && MatchAt(s, word, digits, p) == Some(Spans(s, word, digits, i)[k])
  {
    MatcherAdvances(s, word, digits);
    p := ScanPosition(Matcher(s, word, digits), |s|, |word|, i, k);
  }

  /** The spans come in order and do not overlap. */
  lemma SpansOrdered(s: string, word: string, digits: bool, i: nat)
    requires word != []
    ensures InOrder(Spans(s, word, digits, i))
  {
    MatcherAdvances(s, word, digits);
    ScanOrdered(Matcher(s, word, digits), |s|, |word|, i);
    assert Spans(s, word, digits, i) == Scan(Matcher(s, word, digits), |s|, |word|, i);
  }

  /** The text of each span. */
  function Slices(s: string, sp: seq<(nat, nat)>): (caps: seq<string>)
    requires forall k :: 0 <= k < |sp| ==> sp[k].0 <= sp[k].1 <= |s|
    ensures |caps| == |sp|
    ensures forall k :: 0 <= k < |sp| ==> caps[k] == s[sp[k].0..sp[k].1]
  {
    seq(|sp|, k requires 0 <= k < |sp| => s[sp[k].0..sp[k].1])
  }

  /** `re.findall` of the pattern from position `i`: the captured texts, in order. */
  function FindAll(s: string, word: string, digits: bool, i: nat): (caps: seq<string>)
    requires word != []
    ensures |caps| == |Spans(s, word, digits, i)|
    ensures forall k :: 0 <= k < |caps| ==> IsToken(caps[k], digits)
  {
    SpansAreTokens(s, word, digits, i);
    Slices(s, Spans(s, word, digits, i))
  }

  lemma SpansAreTokens(s: string, word: string, digits: bool, i: nat)
    requires word != []
    ensures forall k :: 0 <= k < |Spans(s, word, digits, i)| ==>
      IsToken(s[Spans(s, word, digits, i)[k].0..Spans(s, word, digits, i)[k].1], digits)
  {
    forall k | 0 <= k < |Spans(s, word, digits, i)|
      ensures IsToken(s[Spans(s, word, digits, i)[k].0..Spans(s, word, digits, i)[k].1], digits)
    {
      var p := SpanPosition(s, word, digits, i, k);
      MatchAtCaptures(s, word, digits, p);
    }
  }

  /**
   * Every capture comes from an occurrence of the pattern at or after `i`:
   * `word` at `p`, white space up to `j`, the capture from `j` to `e`.
   */
  lemma FindAllSound(s: string, word: string, digits: bool, i: nat, k: nat)
    requires word != [] && k < |FindAll(s, word, digits, i)|
    ensures exists p: nat, j: nat, e: nat :: i <= p && CapturedAt(s, word, digits, p, j, e, FindAll(s, word, digits, i)[k])
  {
    var p := SpanPosition(s, word, digits, i, k);
    MatchAtCaptures(s, word, digits, p);
    var m := Spans(s, word, digits, i)[k];
    assert CapturedAt(s, word, digits, p, m.0, m.1, FindAll(s, word, digits, i)[k]);
  }

  /** There is no capture from `i` on exactly when the pattern matches nowhere from `i` on. */
  lemma FindAllEmpty(s: string, word: string, digits: bool, i: nat)
    requires word != []
    ensures FindAll(s, word, digits, i) == [] <==> forall p: nat :: i <= p ==> MatchAt(s, word, digits, p).None?
  {
    var m := Matcher(s, word, digits);
    MatcherAdvances(s, word, digits);
    ScanEmpty(m, |s|, |word|, i);
    if forall p: nat :: i <= p && p + |word| <= |s| ==> m(p).None? {
      forall p: nat | i <= p ensures MatchAt(s, word, digits, p).None? {
        if p + |word| <= |s| { assert m(p).None?; }
      }
    }
  }

  /** Without an occurrence of `word` from `i` on there is no capture. */
  lemma {:induction false} FindAllAbsent(s: string, word: string, digits: bool, i: nat)
    requires word != []
    requires forall p :: i <= p <= |s| ==> !OccursAt(s, word, p)
    ensures FindAll(s, word, digits, i) == []
    decreases |s| - i
  {
    forall p: nat | i <= p ensures MatchAt(s, word, digits, p).None? {
      if MatchAt(s, word, digits, p).Some? {
        MatchAtCaptures(s, word, digits, p);
      }
    }
    FindAllEmpty(s, word, digits, i);
  }

  /** A query that never mentions `word` yields no capture. */
  lemma FindAllNeedsWord(s: string, word: string, digits: bool)
    requires word != [] && !Contains(s, word)
    ensures FindAll(s, word, digits, 0) == []
  {
    FindAllAbsent(s, word, digits, 0);
  }

  /** `word`, one blank and a run of letters: the run is the one capture. */
  lemma {:induction false} FindAllSingle(word: string, t: string, digits: bool)
    requires word != [] && forall k :: 0 <= k < |word| ==> !IsSpace(word[k])
    requires t != [] && forall k :: 0 <= k < |t| ==> IsLowerLetter(t[k])
    ensures FindAll(word + " " + t, word, digits, 0) == [t]
  {
    var s := word + " " + t;
    var n := |word|;
    assert s[0..n] == word;
    assert s[n] == ' ';
    assert s[n + 1] == t[0];
    assert RunEnd(s, n + 1, IsSpace) == n + 1;
    assert RunEnd(s, n, IsSpace) == n + 1;
    assert forall k :: n + 1 <= k < |s| ==> IsLowerLetter(s[k]);
    assert RunEnd(s, n + 1, IsLowerLetter) == |s|;
    assert MatchAt(s, word, digits, 0) == Some((n + 1, |s|));
    assert Spans(s, word, digits, |s|) == [];
    assert Spans(s, word, digits, 0) == [(n + 1, |s|)];
    assert s[n + 1..|s|] == t;
  }

  // ------------------------------------------------------------------ parsing

  datatype Intent = ExplainCauses | CompareIntent | Predict | Rank | UnknownIntent

  function IntentOf(q: string): Intent {
    if ContainsAny(q, ExplainWords) then ExplainCauses
    else if ContainsAny(q, CompareWords) then CompareIntent
    else if ContainsAny(q, PredictWords) then Predict
    else if ContainsAny(q, RankWords) then Rank
    else UnknownIntent
  }

  /**
   * The first word list with a word in the query decides the intent: explain
   * words beat compare words, which beat predict words, which beat rank words.
   */
  lemma IntentCues(q: string)
    ensures var explain := Contains(q, "why") || Contains(q, "explain") || Contains(q, "reasons") || Contains(q, "causes");
      var compare := Contains(q, "compare") || Contains(q, "comparison");
      var predict := Contains(q, "predict") || Contains(q, "forecast") || Contains(q, "expect") || Contains(q, "prepare");
      var rank := Contains(q, "top") || Contains(q, "most") || Contains(q, "highest");
      && (IntentOf(q) == ExplainCauses <==> explain)
      && (IntentOf(q) == CompareIntent <==> !explain && compare)
      && (IntentOf(q) == Predict <==> !explain && !compare && predict)
      && (IntentOf(q) == Rank <==> !explain && !compare && !predict && rank)
      && (IntentOf(q) == UnknownIntent <==> !explain && !compare && !predict && !rank)
  {
    AnyOfFour(q, ExplainWords);
    AnyOfTwo(q, CompareWords);
    AnyOfFour(q, PredictWords);
    AnyOfThree(q, RankWords);
  }

  lemma AnyOfTwo(q: string, ws: seq<string>)
    requires |ws| == 2
    ensures ContainsAny(q, ws) <==> Contains(q, ws[0]) || Contains(q, ws[1])
  {
    if Contains(q, ws[0]) { assert Contains(q, ws[0]); }
    if Contains(q, ws[1]) { assert Contains(q, ws[1]); }
  }

  lemma AnyOfThree(q: string, ws: seq<string>)
    requires |ws| == 3
    ensures ContainsAny(q, ws) <==> Contains(q, ws[0]) || Contains(q, ws[1]) || Contains(q, ws[2])
  {
    if Contains(q, ws[0]) { assert Contains(q, ws[0]); }
    if Contains(q, ws[1]) { assert Contains(q, ws[1]); }
    if Contains(q, ws[2]) { assert Contains(q, ws[2]); }
  }

  lemma AnyOfFour(q: string, ws: seq<string>)
    requires |ws| == 4
    ensures ContainsAny(q, ws) <==> Contains(q, ws[0]) || Contains(q, ws[1]) || Contains(q, ws[2]) || Contains(q, ws[3])
  {
    if Contains(q, ws[0]) { assert Contains(q, ws[0]); }
    if Contains(q, ws[1]) { assert Contains(q, ws[1]); }
    if Contains(q, ws[2]) { assert Contains(q, ws[2]); }
    if Contains(q, ws[3]) { assert Contains(q, ws[3]); }
  }

  datatype Parsed = Parsed(intent: Intent, cities: seq<string>, clients: seq<string>,
                           warehouses: seq<string>, timeReferences: seq<string>, originalQuery: string)

  /** `query.lower().strip()`. */
  function Normalise(query: string): string {
    Strip(Lower(query))
  }

  /** `parse_query_rule_based(query)`. */
  function ParseQuery(query: string): Parsed {
    var q := Normalise(query);
    Parsed(IntentOf(q),
           Where(KnownCities, MentionedIn(q)),
           FindAll(q, "client", false, 0),
           FindAll(q, "warehouse", true, 0),
           Where(TimeWords, MentionedIn(q)),
           q)
  }

  /** The normalised query is a fixed point of normalisation. */
  lemma NormaliseIdempotent(query: string)
    ensures Normalise(Normalise(query)) == Normalise(query)
  {
    LowerStrip(Lower(query));
    LowerIdempotent(query);
    StripIdempotent(Lower(query));
  }

  /** Parsing the echoed `original_query` again gives the same parse. */
  lemma ParseStable(query: string)
    ensures ParseQuery(ParseQuery(query).originalQuery) == ParseQuery(query)
  {
    NormaliseIdempotent(query);
  }

  /**
   * The mentioned cities are exactly the known cities occurring in the
   * normalised query, in the order of the known-city list.
   */
  lemma CitiesMentioned(query: string)
    ensures var p := ParseQuery(query);
      && IsSubsequence(p.cities, KnownCities)
      && forall c :: c in p.cities <==> c in KnownCities && Contains(p.originalQuery, c)
  {
    var q := Normalise(query);
    WhereIsSubsequence(KnownCities, MentionedIn(q));
  }

  /** Every client and warehouse reference is a non-empty run of letters (or, for warehouses, digits). */
  lemma ReferencesAreTokens(query: string)
    ensures var p := ParseQuery(query);
      && (forall k :: 0 <= k < |p.clients| ==> IsToken(p.clients[k], false))
      && (forall k :: 0 <= k < |p.warehouses| ==> IsToken(p.warehouses[k], true))
  {
  }

  // ----------------------------------------------------------- process_query

  /**
   * The filter dictionary `process_query` builds. The date keys look at the
   * raw query (case-sensitive), and keep only the date of `now` minus the
   * offset (so midnight of that day).
   */
  function QueryFilters(p: Parsed, rawQuery: string, now: DateTime): Filtering.Filters {
    var today := DayNumber(now);
    var dates: (Option<int>, Option<int>) :=
      if Contains(rawQuery, "yesterday") then (Some(Midnight(today - 1)), Some(Midnight(today - 1)))
      else if Contains(rawQuery, "last week") then (Some(Midnight(today - 7)), None)
      else if Contains(rawQuery, "last month") then (Some(Midnight(today - 30)), None)
      else (None, None);
    Filtering.Filters(p.cities, dates.0, dates.1, p.clients, p.warehouses)
  }

  /**
   * The built filters carry the parsed cities, clients and warehouses; a date
   * bound exists only for a time cue, both bounds for "yesterday", and every
   * bound is a midnight one to thirty days before `now`.
   */
  lemma QueryFiltersMeaning(p: Parsed, rawQuery: string, now: DateTime)
    ensures var f := QueryFilters(p, rawQuery, now);
      && f.cities == p.cities && f.clients == p.clients && f.warehouses == p.warehouses
      && (f.dateFrom.Some? <==> Contains(rawQuery, "yesterday") || Contains(rawQuery, "last week") || Contains(rawQuery, "last month"))
      && (f.dateTo.Some? <==> Contains(rawQuery, "yesterday"))
      && (f.dateTo.Some? ==> f.dateTo == f.dateFrom)
      && (f.dateFrom.Some? ==> f.dateFrom.value % SecondsPerDay == 0)
      && (f.dateFrom.Some? ==> Instant(now) - 31 * SecondsPerDay < f.dateFrom.value <= Instant(now) - SecondsPerDay)
  {
    MidnightBefore(now, 1);
    MidnightBefore(now, 7);
    MidnightBefore(now, 30);
  }

  /** Midnight `back` days before `now`'s day, for a look-back of one to thirty days. */
  lemma MidnightBefore(now: DateTime, back: int)
    requires 1 <= back <= 30
    ensures Midnight(DayNumber(now) - back) % SecondsPerDay == 0
    ensures Instant(now) - 31 * SecondsPerDay < Midnight(DayNumber(now) - back) <= Instant(now) - SecondsPerDay
  {
    var today := DayNumber(now);
    assert Midnight(today) <= Instant(now) < Midnight(today + 1);
  }

  /** What an analysis returns: a cause explanation or a comparison. */
  datatype Report = CauseReport(explanation: Explanation) | ComparisonReport(comparison: Comparison)

  /** The column a comparison query groups by: city when several cities are named. */
  function CompareColumn(p: Parsed): Dimension {
    if |p.cities| > 1 then City else WarehouseName
  }

  /** The name `compare_performance` is called with: `'city'` or `'warehouse_name'`. */
  function CompareField(p: Parsed): string {
    DimensionName(CompareColumn(p))
  }

  /** A comparison query groups by `'city'` when it names several cities, else by `'warehouse_name'`. */
  lemma CompareFieldNames(p: Parsed)
    ensures CompareField(p) == if |p.cities| > 1 then "city" else "warehouse_name"
  {
  }

  /** The cause-breakdown limit for an intent: 5 for ranking, 10 otherwise. */
  function LimitFor(i: Intent): nat {
    if i == Rank then 5 else 10
  }

  /** The analysis chosen by intent; predict and unknown fall back to cause analysis. */
  function Analyse(p: Parsed, t: Table): Result<Report, AnalysisError> {
    if p.intent == CompareIntent then
      match Compare(t, CompareField(p))
      case Success(c) => Success(ComparisonReport(c))
      case Failure(e) => Failure(e)
    else
      match Explain(t, LimitFor(p.intent))
      case Success(e) => Success(CauseReport(e))
      case Failure(e) => Failure(e)
  }

  /**
   * A comparison report comes exactly from a compare query; a ranking query
   * reports at most 5 causes and every other cause analysis at most 10; an
   * analysis fails only for want of the `rating` column.
   */
  lemma AnalyseDispatch(p: Parsed, t: Table)
    ensures Analyse(p, t).Success? ==> (Analyse(p, t).value.ComparisonReport? <==> p.intent == CompareIntent)
    ensures Analyse(p, t).Success? && Analyse(p, t).value.CauseReport? && Analyse(p, t).value.explanation.Explained? ==>
      |Analyse(p, t).value.explanation.rootCauses| <= if p.intent == Rank then 5 else 10
    ensures Analyse(p, t).Failure? ==> Analyse(p, t).error == MissingColumn("rating") && !t.schema.hasFeedback
  {
    if p.intent != CompareIntent {
      var r := Explain(t, LimitFor(p.intent));
      if r.Success? && r.value.Explained? {
        ExplainShape(t, LimitFor(p.intent));
      }
    }
  }

  /**
   * A comparison naming several cities groups by city, any other by warehouse
   * name: the groups are the cities (warehouse names) the table's rows carry.
   */
  lemma CompareGroupsBy(p: Parsed, t: Table)
    requires p.intent == CompareIntent
    requires Analyse(p, t).Success? && Analyse(p, t).value.comparison.Groups?
    ensures |p.cities| >= 2 ==> GroupedBy(Analyse(p, t).value.comparison, t, City)
    ensures |p.cities| < 2 ==> GroupedBy(Analyse(p, t).value.comparison, t, WarehouseName)
  {
    AnalyseCompares(p, t);
    ComparedColumnKeys(t, CompareField(p), CompareColumn(p), Analyse(p, t).value.comparison);
  }

  /** The group keys of `c` are exactly the non-null values of column `d` in `t`. */
  ghost predicate GroupedBy(c: Comparison, t: Table, d: Dimension)
    requires c.Groups?
  {
    && (forall i :: 0 <= i < |c.stats| ==> HasKey(t.rows, KeyOf(d), c.stats[i].key))
    && (forall k :: HasKey(t.rows, KeyOf(d), k) ==> exists i :: 0 <= i < |c.stats| && c.stats[i].key == k)
  }

  lemma ComparedColumnKeys(t: Table, field: string, d: Dimension, c: Comparison)
    requires field == DimensionName(d)
    requires Compare(t, field) == Success(c) && c.Groups?
    ensures GroupedBy(c, t, d)
  {
    FieldOfName(d);
    CompareGroupKeys(t, field);
  }

  lemma AnalyseCompares(p: Parsed, t: Table)
    requires p.intent == CompareIntent && Analyse(p, t).Success?
    ensures Analyse(p, t).value.ComparisonReport?
    ensures Compare(t, CompareField(p)) == Success(Analyse(p, t).value.comparison)
  {
  }

  // -------------------------------------------------------- recommendations

  const TrafficAdvice: seq<string> := [
    "Optimize delivery routes to avoid peak traffic hours",
    "Implement real-time traffic monitoring and route adjustment",
    "Consider alternative delivery time slots during low-traffic periods"]
  const WeatherAdvice: seq<string> := [
    "Develop weather contingency plans for deliveries",
    "Invest in weather-appropriate delivery vehicles",
    "Implement proactive customer communication during weather events"]
  const WarehouseAdvice: seq<string> := [
    "Review and optimize warehouse picking processes",
    "Implement better inventory management systems",
    "Increase staffing during peak periods"]
  const AddressAdvice: seq<string> := [
    "Implement address verification at order placement",
    "Train drivers on GPS navigation and customer communication",
    "Create a system for updating incorrect addresses"]
  const StockAdvice: seq<string> := [
    "Improve demand forecasting and inventory planning",
    "Implement real-time stock visibility across warehouses",
    "Set up automatic stock replenishment alerts"]

  /** The advice for the top cause: the first matching keyword of its lower-cased label. */
  function CauseAdvice(cause: string): (advice: seq<string>)
    ensures advice in [[], TrafficAdvice, WeatherAdvice, WarehouseAdvice, AddressAdvice, StockAdvice]
    ensures |advice| <= 3
  {
    var c := Lower(cause);
    if Contains(c, "traffic") then TrafficAdvice
    else if Contains(c, "weather") then WeatherAdvice
    else if Contains(c, "warehouse") then WarehouseAdvice
    else if Contains(c, "address") then AddressAdvice
    else if Contains(c, "stock") then StockAdvice
    else []
  }

  function DayAdvice(day: string): string {
    "Focus additional resources on " + day + "s to handle higher failure rates"
  }

  function CityAdvice(city: string): string {
    "Prioritize operational improvements in " + city
  }

  /** `max()` over an empty `worst_days` or `most_affected_cities` raises ValueError. */
  datatype RecommendationError = EmptyMax(insight: string)

  /**
   * `generate_rule_based_recommendations(results)`: no advice for a message or
   * a comparison; for an explanation, the advice of the top cause, then the
   * day and the city with the most problem orders.
   */
  function Recommendations(r: Report): Result<seq<string>, RecommendationError> {
    match r
    case ComparisonReport(_) => Success([])
    case CauseReport(NoIssues) => Success([])
    case CauseReport(Explained(causes, _, _, _, insights)) =>
      var advice := if causes == [] then [] else CauseAdvice(causes[FirstMax(causes, FailureCountOf)].cause);
      if insights.worstDays == [] then Failure(EmptyMax("worst_days"))
      else if insights.mostAffectedCities == [] then Failure(EmptyMax("most_affected_cities"))
      else
        var day := insights.worstDays[FirstMax(insights.worstDays, CountOf)].key;
        var city := insights.mostAffectedCities[FirstMax(insights.mostAffectedCities, CityOrdersOf)].city;
        Success(advice + [DayAdvice(day), CityAdvice(city)])
  }

  /**
   * On an explanation whose lists are sorted largest first, the advice follows
   * their heads: the most frequent cause, the worst day and the most affected city.
   */
  lemma RecommendationsOfSorted(e: Explanation)
    requires e.Explained?
    requires NonIncreasing(e.rootCauses, FailureCountOf)
    requires NonIncreasing(e.insights.worstDays, CountOf)
    requires NonIncreasing(e.insights.mostAffectedCities, CityOrdersOf)
    ensures Recommendations(CauseReport(e)) ==
      if e.insights.worstDays == [] then Failure(EmptyMax("worst_days"))
      else if e.insights.mostAffectedCities == [] then Failure(EmptyMax("most_affected_cities"))
      else Success((if e.rootCauses == [] then [] else CauseAdvice(e.rootCauses[0].cause)) +
                   [DayAdvice(e.insights.worstDays[0].key), CityAdvice(e.insights.mostAffectedCities[0].city)])
  {
    if e.rootCauses != [] {
      FirstMaxOfSorted(e.rootCauses, FailureCountOf);
    }
    if e.insights.worstDays != [] {
      FirstMaxOfSorted(e.insights.worstDays, CountOf);
    }
    if e.insights.mostAffectedCities != [] {
      FirstMaxOfSorted(e.insights.mostAffectedCities, CityOrdersOf);
    }
  }

  /** Recommendations for the explanation of a table follow its ranking, two to five of them. */
  lemma RecommendationsFollowRanking(t: Table, limit: nat)
    requires Explain(t, limit).Success? && Explain(t, limit).value.Explained?
    ensures var e := Explain(t, limit).value;
      var recs := Recommendations(CauseReport(e));
      recs.Success? ==>
        && recs.value == (if e.rootCauses == [] then [] else CauseAdvice(e.rootCauses[0].cause)) +
             [DayAdvice(e.insights.worstDays[0].key), CityAdvice(e.insights.mostAffectedCities[0].city)]
        && 2 <= |recs.value| <= 5
  {
    var e := Explain(t, limit).value;
    ExplainShape(t, limit);
    RecommendationsOfSorted(e);
    var advice := if e.rootCauses == [] then [] else CauseAdvice(e.rootCauses[0].cause);
    assert |advice| <= 3;
  }

  /** The first keyword found in the lower-cased label decides the advice. */
  lemma TrafficAdviceWhen(cause: string)
    requires Contains(Lower(cause), "traffic")
    ensures CauseAdvice(cause) == TrafficAdvice
  {
  }

  lemma WeatherAdviceWhen(cause: string)
    requires !Contains(Lower(cause), "traffic")
    requires Contains(Lower(cause), "weather")
    ensures CauseAdvice(cause) == WeatherAdvice
  {
  }

  lemma WarehouseAdviceWhen(cause: string)
    requires !Contains(Lower(cause), "traffic") && !Contains(Lower(cause), "weather")
    requires Contains(Lower(cause), "warehouse")
    ensures CauseAdvice(cause) == WarehouseAdvice
  {
  }

  lemma AddressAdviceWhen(cause: string)
    requires !Contains(Lower(cause), "traffic") && !Contains(Lower(cause), "weather")
    requires !Contains(Lower(cause), "warehouse")
    requires Contains(Lower(cause), "address")
    ensures CauseAdvice(cause) == AddressAdvice
  {
  }

  lemma StockAdviceWhen(cause: string)
    requires !Contains(Lower(cause), "traffic") && !Contains(Lower(cause), "weather")
    requires !Contains(Lower(cause), "warehouse") && !Contains(Lower(cause), "address")
    requires Contains(Lower(cause), "stock")
    ensures CauseAdvice(cause) == StockAdvice
  {
  }

  lemma NoAdviceWhen(cause: string)
    requires !Contains(Lower(cause), "traffic") && !Contains(Lower(cause), "weather")
    requires !Contains(Lower(cause), "warehouse") && !Contains(Lower(cause), "address")
    requires !Contains(Lower(cause), "stock")
    ensures CauseAdvice(cause) == []
  {
  }

  /** A top cause labelled with a traffic keyword gets the traffic advice. */
  lemma TrafficCauseAdvice()
    ensures CauseAdvice("Traffic Congestion") == TrafficAdvice
  {
    LowerIs("Traffic Congestion", "traffic congestion");
    TrafficOccurs("Traffic Congestion");
    TrafficAdviceWhen("Traffic Congestion");
  }

  lemma TrafficOccurs(cause: string)
    requires Lower(cause) == "traffic congestion"
    ensures Contains(Lower(cause), "traffic")
  {
    assert "traffic congestion"[0..7] == "traffic";
    ContainsAt(Lower(cause), "traffic", 0);
  }

  /** "Vehicle Issues" contains none of the five keywords, so it gets no cause advice. */
  lemma VehicleCauseNoAdvice()
    ensures CauseAdvice("Vehicle Issues") == []
  {
    LowerIs("Vehicle Issues", "vehicle issues");
    VehicleMissesKeywords("Vehicle Issues");
    NoAdviceWhen("Vehicle Issues");
  }

  /** Letters that "vehicle issues" does not contain. */
  lemma VehicleIssuesLacks()
    ensures !HasCharFrom("vehicle issues", 't', 0)
    ensures !HasCharFrom("vehicle issues", 'w', 0)
    ensures !HasCharFrom("vehicle issues", 'a', 0)
  {
  }

  lemma VehicleMissesKeywords(cause: string)
    requires Lower(cause) == "vehicle issues"
    ensures !Contains(Lower(cause), "traffic") && !Contains(Lower(cause), "weather")
    ensures !Contains(Lower(cause), "warehouse") && !Contains(Lower(cause), "address")
    ensures !Contains(Lower(cause), "stock")
  {
    var c := Lower(cause);
    VehicleIssuesLacks();
    assert "traffic"[0] == 't' && "weather"[0] == 'w' && "warehouse"[0] == 'w';
    assert "address"[0] == 'a' && "stock"[1] == 't';
    MissingCharNotContained(c, "traffic", 0);
    MissingCharNotContained(c, "weather", 0);
    MissingCharNotContained(c, "warehouse", 0);
    MissingCharNotContained(c, "address", 0);
    MissingCharNotContained(c, "stock", 1);
  }

  // ----------------------------------------------------------------- response

  datatype Response = Response(query: string, analysisType: Intent, filtersApplied: Filtering.Filters,
                               results: Report, recommendations: seq<string>)

  /** What `process_query` raises: a KeyError or a ValueError somewhere down the line. */
  datatype QueryError =
    | FilterFailed(filterError: Filtering.FilterError)
    | AnalysisFailed(analysisError: AnalysisError)
    | RecommendationFailed(recommendationError: RecommendationError)

  /** `process_query(query)` on the integrated table `t`, at time `now`, without the audit log. */
  function Respond(t: Table, query: string, now: DateTime): Result<Response, QueryError> {
    RespondParsed(t, query, ParseQuery(query), now)
  }

  /** The steps of `process_query` after parsing the raw query into `p`. */
  function RespondParsed(t: Table, query: string, p: Parsed, now: DateTime): Result<Response, QueryError> {
    var f := QueryFilters(p, query, now);
    match Filtering.Filter(t, f)
    case Failure(e) => Failure(FilterFailed(e))
    case Success(rows) =>
      match Analyse(p, Table(rows, t.schema))
      case Failure(e) => Failure(AnalysisFailed(e))
      case Success(report) =>
        match Recommendations(report)
        case Failure(e) => Failure(RecommendationFailed(e))
        case Success(recs) => Success(Response(query, p.intent, f, report, recs))
  }

  /** A successful response analysed the filtered table and recommended from that analysis. */
  lemma RespondParts(t: Table, query: string, p: Parsed, now: DateTime)
    requires RespondParsed(t, query, p, now).Success?
    ensures var f := QueryFilters(p, query, now);
      var filtered := Filtering.Filter(t, f);
      var resp := RespondParsed(t, query, p, now).value;
      && filtered.Success?
      && Analyse(p, Table(filtered.value, t.schema)) == Success(resp.results)
      && Recommendations(resp.results) == Success(resp.recommendations)
      && resp.analysisType == p.intent && resp.filtersApplied == f
  {
  }

  /** A query with no city, client, warehouse or time cue is analysed on the whole table. */
  lemma UnfilteredQuery(t: Table, query: string, p: Parsed, now: DateTime)
    requires p.cities == [] && p.clients == [] && p.warehouses == []
    requires !Contains(query, "yesterday") && !Contains(query, "last week") && !Contains(query, "last month")
    ensures QueryFilters(p, query, now) == Filtering.NoFilters
    ensures RespondParsed(t, query, p, now).Success? ==>
      RespondParsed(t, query, p, now).value.results == Analyse(p, t).value
  {
    Filtering.NoFilterIsIdentity(t);
    if RespondParsed(t, query, p, now).Success? {
      RespondParts(t, query, p, now);
    }
  }

  /** The analysis runs on exactly the qualifying rows of the table, in table order. */
  lemma RespondAnalysesFilteredRows(t: Table, query: string, p: Parsed, now: DateTime)
    requires RespondParsed(t, query, p, now).Success?
    ensures var f := QueryFilters(p, query, now);
      && Filtering.Filter(t, f).Success?
      && RespondParsed(t, query, p, now).value.results == Analyse(p, Table(Filtering.Filter(t, f).value, t.schema)).value
      && Filtering.Filter(t, f).value == Where(t.rows, Filtering.QualifiesMask(f))
  {
    RespondParts(t, query, p, now);
    Filtering.FilterIsQualifying(t, QueryFilters(p, query, now));
  }
}
