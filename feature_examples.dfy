/**
 * Worked examples of the feature pass on concrete rows: the day arithmetic,
 * the keyword precedence and the status and severity overrides.
 */
module FeatureExamples {
  import opened Wrappers
  import opened Text
  import opened Calendar
  import opened Records
  import opened Features

  function AtMidnight(y: int, m: MonthNumber, d: DayOfMonth): DateTime {
    DateTime(y, m, d, 0, 0, 0)
  }

  /** Promised 2024-01-10, delivered 2024-01-13: three days late. */
  lemma ThreeDaysLate()
    ensures DaysBetween(AtMidnight(2024, 1, 10), AtMidnight(2024, 1, 13)) == 3
  {
    SameMonthDaysBetween(AtMidnight(2024, 1, 10), AtMidnight(2024, 1, 13));
  }

  /** "Traffic delay" matches Traffic and Warehouse/delay; the later rule wins. */
  lemma TrafficDelayIsWarehouse()
    ensures RootCause(Some("Traffic delay"), Some("Delivered")) == "Warehouse Operations"
  {
    LowerIs("Traffic delay", "traffic delay");
    WarehouseLabel("Traffic delay");
  }

  lemma WarehouseLabel(reason: string)
    requires Lower(reason) == "traffic delay"
    ensures RootCause(Some(reason), Some("Delivered")) == "Warehouse Operations"
  {
    DelayMatches(reason);
    AddressMisses(reason);
    StockMisses(reason);
    VehicleMisses(reason);
    WarehouseRuleLast(Some(reason));
  }

  /** An order Delivered whose reason matches the warehouse rule and no later one. */
  lemma WarehouseRuleLast(reason: Option<string>)
    requires RuleMatches(WarehouseRule, reason)
    requires !RuleMatches(AddressRule, reason) && !RuleMatches(StockRule, reason) && !RuleMatches(VehicleRule, reason)
    ensures RootCause(reason, Some("Delivered")) == "Warehouse Operations"
  {
    DeliveredIsOrdinary();
  }

  lemma DeliveredIsOrdinary()
    ensures Some("Delivered") != Some("Pending") && Some("Delivered") != Some("Returned")
    ensures Some("Delivered") != Some("Failed")
  {
    assert "Delivered"[0] != "Pending"[0] && "Delivered"[0] != "Returned"[0] && "Delivered"[0] != "Failed"[0];
  }

  lemma AddressMisses(reason: string)
    requires Lower(reason) == "traffic delay"
    ensures !RuleMatches(AddressRule, Some(reason))
  {
    LowerIs("address", "address");
    LowerIs("Address", "address");
    assert "address"[5] == 's';
    TrafficDelayLacks();
    TrafficDelayMisses(reason, AddressRule, 5);
  }

  lemma StockMisses(reason: string)
    requires Lower(reason) == "traffic delay"
    ensures !RuleMatches(StockRule, Some(reason))
  {
    LowerIs("Stock", "stock");
    LowerIs("stock", "stock");
    assert "stock"[0] == 's';
    TrafficDelayLacks();
    TrafficDelayMisses(reason, StockRule, 0);
  }

  lemma VehicleMisses(reason: string)
    requires Lower(reason) == "traffic delay"
    ensures !RuleMatches(VehicleRule, Some(reason))
  {
    LowerIs("Vehicle", "vehicle");
    LowerIs("breakdown", "breakdown");
    assert "vehicle"[0] == 'v' && "breakdown"[0] == 'b';
    TrafficDelayLacks();
    TrafficDelayMisses(reason, VehicleRule, 0);
  }

  lemma DelayMatches(reason: string)
    requires Lower(reason) == "traffic delay"
    ensures RuleMatches(WarehouseRule, Some(reason))
  {
    LowerIs("delay", "delay");
    DelayAtEight();
    ContainsAt(Lower(reason), Lower(WarehouseRule.words[1]), 8);
  }

  lemma DelayAtEight()
    ensures OccursAt("traffic delay", "delay", 8)
  {
    assert "traffic delay"[8..13] == "delay";
  }

  /** Letters that "traffic delay" does not contain. */
  lemma TrafficDelayLacks()
    ensures !HasCharFrom("traffic delay", 's', 0)
    ensures !HasCharFrom("traffic delay", 'v', 0)
    ensures !HasCharFrom("traffic delay", 'b', 0)
  {
  }

  /** Both words of `rule`, lower-cased, have at position `k` a letter "traffic delay" lacks. */
  lemma TrafficDelayMisses(reason: string, rule: CauseRule, k: nat)
    requires Lower(reason) == "traffic delay"
    requires |rule.words| == 2
    requires k < |Lower(rule.words[0])| && !HasCharFrom("traffic delay", Lower(rule.words[0])[k], 0)
    requires k < |Lower(rule.words[1])| && !HasCharFrom("traffic delay", Lower(rule.words[1])[k], 0)
    ensures !RuleMatches(rule, Some(reason))
  {
    MissingCharNotContained(Lower(reason), Lower(rule.words[0]), k);
    MissingCharNotContained(Lower(reason), Lower(rule.words[1]), k);
  }

  /** A Failed order keeps its reason verbatim: "Stock out" stays "Stock out". */
  lemma FailedKeepsReason()
    ensures RootCause(Some("Stock out"), Some("Failed")) == "Stock out"
    ensures RootCause(None, Some("Failed")) == "Unknown Failure"
  {
  }

  /** Six days late and Failed: Critical wins over High. */
  lemma FailedIsCritical()
    ensures SeverityOf(6, Some("Failed")) == Critical
    ensures SeverityOf(6, Some("Delivered")) == High
  {
  }
}
