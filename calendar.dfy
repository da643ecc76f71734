/**
 * Day arithmetic on instants (date-fns startOfDay, endOfDay, subDays in UTC) and the proleptic
 * Gregorian calendar the engine uses to read a "Mon dd, yyyy" string.
 */
module Calendar {
  import opened Types
  import Text

  const DayMs: int := 86_400_000

  /** The day number of an instant: whole days since 1970-01-01, rounded down. */
  function DayOf(t: Instant): int {
    t / DayMs
  }

  function StartOfDay(t: Instant): (r: Instant)
    ensures r <= t < r + DayMs
    ensures DayOf(r) == DayOf(t)
  {
    DayOf(t) * DayMs
  }

  /** The last millisecond of the day of `t`. */
  function EndOfDay(t: Instant): (r: Instant)
    ensures StartOfDay(t) <= t <= r
    ensures r == StartOfDay(t) + DayMs - 1
    ensures DayOf(r) == DayOf(t)
  {
    StartOfDay(t) + DayMs - 1
  }

  /** `subDays(t, k)`: the same time of day, `k` days earlier. */
  function SubDays(t: Instant, k: int): (r: Instant)
    ensures DayOf(r) == DayOf(t) - k
    ensures r - StartOfDay(r) == t - StartOfDay(t)
  {
    t - k * DayMs
  }

  /** Every instant of day `d` has day number `d`. */
  lemma DayOfDayStart(d: int, ms: int)
    requires 0 <= ms < DayMs
    ensures DayOf(d * DayMs + ms) == d
  {
  }

  /** Day numbers order instants that lie on different days. */
  lemma DayOfMonotone(s: Instant, t: Instant)
    requires s <= t
    ensures DayOf(s) <= DayOf(t)
  {
  }

  // ---------------------------------------------------------------------------------------------
  // Calendar

  predicate IsLeapYear(y: int) {
    y % 4 == 0 && (y % 100 != 0 || y % 400 == 0)
  }

  function DaysInYear(y: int): int {
    if IsLeapYear(y) then 366 else 365
  }

  /** Leap years among 1..y for y >= 0 (and the matching count, shifted, for earlier years). */
  function LeapsThrough(y: int): int {
    y / 4 - y / 100 + y / 400
  }

  /** The day number of January 1 of year `y`. */
  function YearStart(y: int): int {
    365 * (y - 1970) + LeapsThrough(y - 1) - LeapsThrough(1969)
  }

  function CumulativeDays(m: int): int
    requires 1 <= m <= 12
  {
    [0, 31, 59, 90, 120, 151, 181, 212, 243, 273, 304, 334][m - 1]
  }

  /** Days of year `y` before the first of month `m`. */
  function DaysBeforeMonth(y: int, m: int): (r: int)
    requires 1 <= m <= 12
    ensures 0 <= r <= 335
  {
    CumulativeDays(m) + (if m > 2 && IsLeapYear(y) then 1 else 0)
  }

  /**
   * The day number of day `d` of month `m` of year `y`; a day past the end of its month rolls
   * over into the next month, as the engine's date composer does.
   */
  function DayNumber(y: int, m: int, d: int): int
    requires 1 <= m <= 12
  {
    YearStart(y) + DaysBeforeMonth(y, m) + d - 1
  }

  lemma StepOfFloor(y: int, k: int)
    requires k in {4, 100, 400}
    ensures y / k - (y - 1) / k == if y % k == 0 then 1 else 0
  {
    var q, r := y / k, y % k;
    assert y == k * q + r && 0 <= r < k;
    if r == 0 {
      assert y - 1 == k * (q - 1) + (k - 1);
    } else {
      assert y - 1 == k * q + (r - 1);
    }
  }

  /** Consecutive years start 365 or 366 days apart, according to the leap-year rule. */
  lemma {:induction false} YearLength(y: int)
    ensures YearStart(y + 1) - YearStart(y) == DaysInYear(y)
  {
    StepOfFloor(y, 4);
    StepOfFloor(y, 100);
    StepOfFloor(y, 400);
    if y % 100 == 0 {
      assert y == 100 * (y / 100);
      assert y == 4 * (25 * (y / 100));
    }
    if y % 400 == 0 {
      assert y == 400 * (y / 400);
      assert y == 100 * (4 * (y / 400));
    }
  }

  /** Day 1 to 31 of any month of year `y` falls inside that year. */
  lemma {:induction false} DayNumberInYear(y: int, m: int, d: int)
    requires 1 <= m <= 12 && 1 <= d <= 31
    ensures YearStart(y) <= DayNumber(y, m, d) < YearStart(y + 1)
  {
    YearLength(y);
  }

  const MonthNames: seq<string> :=
    ["jan", "feb", "mar", "apr", "may", "jun", "jul", "aug", "sep", "oct", "nov", "dec"]

  /** The month (1..12) a three-letter English abbreviation names, in any letter case. */
  function MonthNumber(name: string): (m: int)
    ensures 0 <= m <= 12
    ensures m > 0 ==> Text.ToLower(name) == MonthNames[m - 1]
  {
    MonthIndexFrom(Text.ToLower(name), 0)
  }

  /** A name is recognised exactly when, lower-cased, it is one of the twelve abbreviations. */
  lemma MonthNumberRecognisesExactlyTheMonths(name: string)
    ensures MonthNumber(name) > 0 <==> Text.ToLower(name) in MonthNames
  {
    MonthIndexFromScans(Text.ToLower(name), 0);
    assert MonthNames[0..] == MonthNames;
  }

  function MonthIndexFrom(lower: string, i: nat): (m: int)
    requires i <= 12
    ensures m == 0 || i < m <= 12
    ensures m > 0 ==> lower == MonthNames[m - 1]
    decreases 12 - i
  {
    if i == 12 then 0
    else if lower == MonthNames[i] then i + 1
    else MonthIndexFrom(lower, i + 1)
  }

  /** The scan from `i` finds a month exactly when `lower` is among the abbreviations from `i` on. */
  lemma {:induction false} MonthIndexFromScans(lower: string, i: nat)
    requires i <= 12
    ensures MonthIndexFrom(lower, i) > 0 <==> lower in MonthNames[i..]
    decreases 12 - i
  {
    if i < 12 {
      assert MonthNames[i..] == [MonthNames[i]] + MonthNames[i + 1..];
      MonthIndexFromScans(lower, i + 1);
    }
  }
}
