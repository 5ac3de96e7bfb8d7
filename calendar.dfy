/**
 * Already-parsed timestamps (what `pd.to_datetime` yields), with the arithmetic
 * the feature pass needs: whole-day differences (`Timedelta.days`), the hour,
 * and the English day and month names (`dt.day_name()`, `dt.month_name()`).
 * Resolution is one second.
 */
module Calendar {

  type MonthNumber = m: int | 1 <= m <= 12 witness 1
  type DayOfMonth = d: int | 1 <= d <= 31 witness 1
  type HourOfDay = h: int | 0 <= h < 24
  type MinuteOrSecond = x: int | 0 <= x < 60

  /** A civil date and time of day in the proleptic Gregorian calendar. */
  datatype DateTime = DateTime(year: int, month: MonthNumber, day: DayOfMonth,
                               hour: HourOfDay, minute: MinuteOrSecond, second: MinuteOrSecond)

  const SecondsPerDay: int := 86400

  /** Days since 1970-01-01 (H. Hinnant's `days_from_civil`; `/` floors, as there). */
  function DayNumber(d: DateTime): int {
    var y := if d.month <= 2 then d.year - 1 else d.year;
    var era := y / 400;
    var yoe := y - era * 400;
    var mp := (d.month + 9) % 12;
    var doy := (153 * mp + 2) / 5 + d.day - 1;
    var doe := yoe * 365 + yoe / 4 - yoe / 100 + doy;
    era * 146097 + doe - 719468
  }

  /** Seconds since 1970-01-01 00:00:00; the order of timestamps. */
  function Instant(d: DateTime): int {
    DayNumber(d) * SecondsPerDay + d.hour * 3600 + d.minute * 60 + d.second
  }

  /** The instant of midnight starting day number `day` (`pd.to_datetime('YYYY-MM-DD')`). */
  function Midnight(day: int): int {
    day * SecondsPerDay
  }

  /** `(to - from).days`: whole days between two timestamps, rounded down. */
  function DaysBetween(from: DateTime, to: DateTime): (days: int)
    ensures days * SecondsPerDay <= Instant(to) - Instant(from) < (days + 1) * SecondsPerDay
  {
    (Instant(to) - Instant(from)) / SecondsPerDay
  }

  /** Within one month, day numbers differ exactly by the day of month. */
  lemma SameMonthDayNumbers(a: DateTime, b: DateTime)
    requires a.year == b.year && a.month == b.month
    ensures DayNumber(b) - DayNumber(a) == b.day - a.day
  {
  }

  /** Two dates of one month at midnight are `b.day - a.day` days apart. */
  lemma {:induction false} SameMonthDaysBetween(a: DateTime, b: DateTime)
    requires a.year == b.year && a.month == b.month
    requires a.hour == a.minute == a.second == 0 && b.hour == b.minute == b.second == 0
    ensures DaysBetween(a, b) == b.day - a.day
  {
    SameMonthDayNumbers(a, b);
    assert Instant(b) - Instant(a) == (b.day - a.day) * SecondsPerDay;
  }

  /** 0 = Monday, ..., 6 = Sunday (`dt.dayofweek`). */
  function Weekday(d: DateTime): (w: int)
    ensures 0 <= w < 7
  {
    (DayNumber(d) + 3) % 7
  }

  const DayNames: seq<string> :=
    ["Monday", "Tuesday", "Wednesday", "Thursday", "Friday", "Saturday", "Sunday"]

  const MonthNames: seq<string> :=
    ["January", "February", "March", "April", "May", "June", "July",
     "August", "September", "October", "November", "December"]

  /** `dt.day_name()`: the English name of the date's day of the week. */
  function DayName(d: DateTime): (name: string)
    ensures name in DayNames && name == DayNames[Weekday(d)]
  {
    DayNames[Weekday(d)]
  }

  /** `dt.month_name()`: the English name of the date's month. */
  function MonthName(d: DateTime): (name: string)
    ensures name in MonthNames && name == MonthNames[d.month - 1]
  {
    MonthNames[d.month - 1]
  }

  /** 1 January 1970, day number 0, was a Thursday. */
  lemma EpochIsThursday()
    ensures DayNumber(DateTime(1970, 1, 1, 0, 0, 0)) == 0
    ensures DayName(DateTime(1970, 1, 1, 0, 0, 0)) == "Thursday"
  {
  }

  /** The day after a date has the next name in the week, Sunday wrapping to Monday. */
  lemma NextDayName(a: DateTime, b: DateTime)
    requires DayNumber(b) == DayNumber(a) + 1
    ensures Weekday(b) == (Weekday(a) + 1) % 7
    ensures DayName(b) == DayNames[(Weekday(a) + 1) % 7]
  {
    NextResidue(DayNumber(a) + 3);
  }

  lemma NextResidue(n: int)
    ensures (n + 1) % 7 == (n % 7 + 1) % 7
  {
    var q, r := n / 7, n % 7;
    assert n == 7 * q + r;
    if r < 6 {
      assert n + 1 == 7 * q + (r + 1);
    } else {
      assert n + 1 == 7 * (q + 1);
    }
  }

  /** Dates a whole number of weeks apart have the same day name. */
  lemma WeeksApartSameName(a: DateTime, b: DateTime)
    requires (DayNumber(b) - DayNumber(a)) % 7 == 0
    ensures DayName(b) == DayName(a)
  {
    SameResidue(DayNumber(a) + 3, DayNumber(b) + 3);
  }

  lemma SameResidue(m: int, n: int)
    requires (n - m) % 7 == 0
    ensures n % 7 == m % 7
  {
    var k := (n - m) / 7;
    assert n - m == 7 * k;
    var q := m / 7;
    assert m == 7 * q + m % 7;
    assert n == 7 * (q + k) + m % 7;
  }

  /** Day names tell days of the week apart, so grouping by name is grouping by weekday. */
  lemma DayNamesDistinct(a: DateTime, b: DateTime)
    ensures DayName(a) == DayName(b) <==> Weekday(a) == Weekday(b)
  {
  }

  /** Month names tell months apart, so grouping by name is grouping by month. */
  lemma MonthNamesDistinct(a: DateTime, b: DateTime)
    ensures MonthName(a) == MonthName(b) <==> a.month == b.month
  {
  }
}
