/**
 * Date-range resolution and filtering (src/lib/date-utils.ts): preset ranges, the inclusive
 * day-range test, the three-way date parser, the two dataset filters, the quick totals and the
 * range label.
 */
module DateUtils {
  import opened Wrappers
  import opened Types
  import opened Calendar
  import Text

  // ---------------------------------------------------------------------------------------------
  // Preset ranges

  /** How many days before today a preset's range starts; an unknown tag counts as "30d". */
  function PresetOffset(preset: string): nat {
    if preset == "7d" then 6
    else if preset == "30d" then 29
    else if preset == "90d" then 89
    else if preset == "1y" then 364
    else 29
  }

  /** The number of calendar days a preset's name promises, today included. */
  function NominalDays(preset: string): nat {
    if preset == "7d" then 7
    else if preset == "90d" then 90
    else if preset == "1y" then 365
    else 30
  }

  /**
   * `getPresetDateRange`: from the start of the day `offset` days ago to the end of today.
   */
  function GetPresetDateRange(preset: string, now: Instant): (r: DateRange)
    ensures r.Complete()
    ensures r.to.value == EndOfDay(now)
    ensures r.from.value == StartOfDay(r.from.value)
    ensures DayOf(r.to.value) - DayOf(r.from.value) + 1 == NominalDays(preset)
  {
    DateRange(Some(StartOfDay(SubDays(now, PresetOffset(preset)))), Some(EndOfDay(now)))
  }

  /** An unrecognised preset tag gives exactly the "30d" range and is never an error. */
  lemma UnknownPresetIsThirtyDays(preset: string, now: Instant)
    requires preset !in {"7d", "30d", "90d", "1y"}
    ensures GetPresetDateRange(preset, now) == GetPresetDateRange("30d", now)
  {
  }

  // ---------------------------------------------------------------------------------------------
  // Range membership

  /**
   * `isDateInRange`: true when a bound is missing; otherwise compares the start of the date's day
   * with the start of the first day and the end of the last day.
   */
  function IsDateInRange(date: Instant, range: DateRange): (r: bool)
    ensures !range.Complete() ==> r
    ensures range.Complete() ==>
      (r <==> DayOf(range.from.value) <= DayOf(date) <= DayOf(range.to.value))
  {
    if range.from.None? || range.to.None? then true
    else
      var target := StartOfDay(date);
      DayOfMonotoneStrict(target, EndOfDay(range.to.value));
      DayOfMonotoneStrict(StartOfDay(range.from.value), target);
      StartOfDay(range.from.value) <= target && target <= EndOfDay(range.to.value)
  }

  /** Comparing a day start with an instant is comparing their day numbers. */
  lemma DayOfMonotoneStrict(s: Instant, t: Instant)
    ensures s == StartOfDay(s) ==> (s <= t <==> DayOf(s) <= DayOf(t))
    ensures t == EndOfDay(t) ==> (s <= t <==> DayOf(s) <= DayOf(t))
  {
  }

  // ---------------------------------------------------------------------------------------------
  // Parsing

  /** JavaScript's `\s`: the white-space and line-terminator characters. */
  predicate IsJsWhitespace(c: char) {
    c in {' ', '\t', '\n', '\U{000B}', '\U{000C}', '\r', '\U{00A0}', '\U{1680}', '\U{2028}', '\U{2029}',
          '\U{202F}', '\U{205F}', '\U{3000}', '\U{FEFF}'}
    || '\U{2000}' <= c <= '\U{200A}'
  }

  /** `/^[A-Z]{3}\s\d{1,2}$/i`: a year-less "MMM dd" label such as "Jan 15". */
  predicate IsMonthDayLabel(s: string) {
    (|s| == 5 || |s| == 6)
    && Text.IsAsciiLetter(s[0]) && Text.IsAsciiLetter(s[1]) && Text.IsAsciiLetter(s[2])
    && IsJsWhitespace(s[3])
    && (forall i :: 4 <= i < |s| ==> Text.IsDigit(s[i]))
  }

  /** The day written in a "MMM dd" label. */
  function LabelDay(s: string): nat
    requires IsMonthDayLabel(s)
  {
    Text.DigitsValue(s[4..])
  }

  /**
   * `new Date(label + ", " + year)`. For a label that names a month and a day 1..31 this is the
   * engine's reading: that day of the current year (a day past the month's end rolls over).
   * Anything else is left to the engine.
   */
  function ParseLabel(s: string, year: int, host: Host): Option<Instant>
    requires IsMonthDayLabel(s)
  {
    var m := MonthNumber(s[..3]);
    var d := LabelDay(s);
    if 1 <= m && 1 <= d <= 31 then Some(DayNumber(year, m, d) * DayMs)
    else host.parseLoose(s + ", " + Text.IntToString(year))
  }

  /**
   * `parseDate`: a "MMM dd" label is read in the current year, else a string with a "T" or a "-"
   * goes to `parseISO`, else to the engine's generic parser. `None` is an invalid date.
   */
  function ParseDate(s: string, year: int, host: Host): (r: Option<Instant>)
    ensures IsMonthDayLabel(s) ==> r == ParseLabel(s, year, host)
    ensures !IsMonthDayLabel(s) && (Text.Contains(s, 'T') || Text.Contains(s, '-')) ==> r == host.parseIso(s)
    ensures !IsMonthDayLabel(s) && !Text.Contains(s, 'T') && !Text.Contains(s, '-') ==> r == host.parseLoose(s)
  {
    if IsMonthDayLabel(s) then ParseLabel(s, year, host)
    else if Text.Contains(s, 'T') || Text.Contains(s, '-') then host.parseIso(s)
    else host.parseLoose(s)
  }

  /** An ISO date ("2025-07-14", with or without a time) is never mistaken for a label. */
  lemma IsoStringsAreNotLabels(s: string)
    requires Text.Contains(s, '-')
    ensures !IsMonthDayLabel(s)
  {
  }

  /**
   * A label naming a month and a day 1..31 always parses, to the start of a day that lies in the
   * current year, whatever the year the label was written in.
   */
  lemma {:induction false} LabelReadInCurrentYear(s: string, year: int, host: Host)
    requires IsMonthDayLabel(s) && MonthNumber(s[..3]) > 0 && 1 <= LabelDay(s) <= 31
    ensures ParseDate(s, year, host).Some?
    ensures var t := ParseDate(s, year, host).value;
      t == StartOfDay(t) && YearStart(year) <= DayOf(t) < YearStart(year + 1)
  {
    var m, d := MonthNumber(s[..3]), LabelDay(s);
    DayNumberInYear(year, m, d);
    DayOfDayStart(DayNumber(year, m, d), 0);
  }

  // ---------------------------------------------------------------------------------------------
  // Filtering

  /** `a` is `b` with some elements left out and the rest in their original order. */
  predicate IsSubsequence<T(==)>(a: seq<T>, b: seq<T>)
    decreases |b|
  {
    if a == [] then true
    else if b == [] then false
    else (a[0] == b[0] && IsSubsequence(a[1..], b[1..])) || IsSubsequence(a, b[1..])
  }

  /** `data.filter(keep)`. */
  function Filter<T(==,!new)>(data: seq<T>, keep: T -> bool): (r: seq<T>)
    ensures |r| <= |data|
    ensures forall x :: x in r ==> x in data && keep(x)
    ensures forall x :: x in data && keep(x) ==> x in r
    ensures IsSubsequence(r, data)
    ensures forall x :: multiset(r)[x] == if keep(x) then multiset(data)[x] else 0
    decreases |data|
  {
    if data == [] then []
    else
      var rest := Filter(data[1..], keep);
      assert data == [data[0]] + data[1..];
      assert multiset(data) == multiset{data[0]} + multiset(data[1..]);
      if keep(data[0]) then
        assert ([data[0]] + rest)[1..] == rest;
        assert multiset([data[0]] + rest) == multiset{data[0]} + multiset(rest);
        [data[0]] + rest
      else
        assert rest == [] || IsSubsequence(rest, data[1..]);
        rest
  }

  /** Filtering what a filter kept keeps all of it. */
  lemma {:induction false} FilterIdempotent<T(!new)>(data: seq<T>, keep: T -> bool)
    ensures Filter(Filter(data, keep), keep) == Filter(data, keep)
    decreases |data|
  {
    if data != [] {
      FilterIdempotent(data[1..], keep);
      var rest := Filter(data[1..], keep);
      if keep(data[0]) {
        assert ([data[0]] + rest)[1..] == rest;
      }
    }
  }

  /**
   * The filters' predicate: the record's date string parses and its day lies in the range. A
   * record whose date does not parse (or is not a string) is dropped, not an error.
   */
  predicate DateStringInRange(dateText: Option<string>, range: DateRange, year: int, host: Host) {
    dateText.Some? && ParseDate(dateText.value, year, host).Some?
    && IsDateInRange(ParseDate(dateText.value, year, host).value, range)
  }

  predicate PointInRange(p: TimeSeriesData, range: DateRange, year: int, host: Host) {
    DateStringInRange(DateLabel(p), range, year, host)
  }

  /** `filterTimeSeriesData`: keeps the records whose `date` label falls in the range. */
  function FilterTimeSeriesData(data: seq<TimeSeriesData>, range: DateRange, year: int, host: Host)
    : (r: seq<TimeSeriesData>)
    ensures !range.Complete() ==> r == data
    ensures range.Complete() ==> forall p :: p in r <==> p in data && PointInRange(p, range, year, host)
    ensures range.Complete() ==>
      forall p :: multiset(r)[p] == if PointInRange(p, range, year, host) then multiset(data)[p] else 0
    ensures IsSubsequence(r, data)
  {
    if range.from.None? || range.to.None? then
      SubsequenceOfSelf(data);
      data
    else Filter(data, p => PointInRange(p, range, year, host))
  }

  /** Filtering a time series twice by the same range equals filtering it once. */
  lemma {:induction false} FilterTimeSeriesIdempotent(data: seq<TimeSeriesData>, range: DateRange, year: int, host: Host)
    ensures FilterTimeSeriesData(FilterTimeSeriesData(data, range, year, host), range, year, host)
         == FilterTimeSeriesData(data, range, year, host)
  {
    if range.Complete() {
      FilterIdempotent(data, p => PointInRange(p, range, year, host));
    }
  }

  /** The value of a row's date property, when it is a string. */
  function RowDate(row: TableRow, dateField: string): Option<string> {
    match row.Field(dateField)
    case Text(s) => Some(s)
    case _ => None
  }

  predicate RowInRange(row: TableRow, dateField: string, range: DateRange, year: int, host: Host) {
    DateStringInRange(RowDate(row, dateField), range, year, host)
  }

  /** `filterTableData`: keeps the rows whose `dateField` (by default `dateCreated`) falls in the range. */
  function FilterTableData(data: seq<TableRow>, range: DateRange, year: int, host: Host,
                           dateField: string := "dateCreated")
    : (r: seq<TableRow>)
    ensures !range.Complete() ==> r == data
    ensures range.Complete() ==> forall row :: row in r <==> row in data && RowInRange(row, dateField, range, year, host)
    ensures range.Complete() ==>
      forall row :: multiset(r)[row] == if RowInRange(row, dateField, range, year, host) then multiset(data)[row] else 0
    ensures IsSubsequence(r, data)
  {
    if range.from.None? || range.to.None? then
      SubsequenceOfSelf(data);
      data
    else Filter(data, row => RowInRange(row, dateField, range, year, host))
  }

  /** Filtering a table twice by the same range equals filtering it once. */
  lemma {:induction false} FilterTableIdempotent(data: seq<TableRow>, range: DateRange, year: int, host: Host, dateField: string)
    ensures FilterTableData(FilterTableData(data, range, year, host, dateField), range, year, host, dateField)
         == FilterTableData(data, range, year, host, dateField)
  {
    if range.Complete() {
      FilterIdempotent(data, row => RowInRange(row, dateField, range, year, host));
    }
  }

  lemma {:induction false} SubsequenceOfSelf<T>(s: seq<T>)
    ensures IsSubsequence(s, s)
    decreases |s|
  {
    if s != [] {
      SubsequenceOfSelf(s[1..]);
    }
  }

  // ---------------------------------------------------------------------------------------------
  // Quick totals

  datatype Totals = Totals(revenue: real, users: real, conversions: real, growthRate: real)

  /** `typeof c === "number"`, with its value. */
  function NumberOr(c: Cell, otherwise: real): real {
    if c.Num? then c.n else otherwise
  }

  /** A number that is truthy (non-zero); strings are not modelled as values here. */
  predicate TruthyNumber(c: Cell) {
    c.Num? && c.n != 0.0
  }

  /** The first of the given fields that holds a truthy number, else 0 (`a || b || 0`). */
  function FirstTruthy(a: Cell, b: Cell): real {
    if TruthyNumber(a) then a.n else if TruthyNumber(b) then b.n else 0.0
  }

  /** Sum over `data` of `field`, or of `fallback` where `field` is not a number. */
  function SumPreferring(data: seq<Obj>, field: string, fallback: Option<string>): real
    decreases |data|
  {
    if data == [] then 0.0
    else
      var item := data[0];
      var x := if Get(item, field).Num? then Get(item, field).n
               else if fallback.Some? && Get(item, fallback.value).Num? then Get(item, fallback.value).n
               else 0.0;
      x + SumPreferring(data[1..], field, fallback)
  }

  /**
   * `calculateMetricsFromData`: revenue and users summed from their own field or else `value`,
   * conversions only from `conversions`, and a first-to-last growth rate on `value` (or `revenue`).
   */
  function CalculateMetricsFromData(data: seq<Obj>): (t: Totals)
    ensures data == [] ==> t == Totals(0.0, 0.0, 0.0, 0.0)
    ensures t.revenue == SumPreferring(data, "revenue", Some("value"))
    ensures t.users == SumPreferring(data, "users", Some("value"))
    ensures t.conversions == SumPreferring(data, "conversions", None)
    ensures data != [] ==>
      var first := FirstTruthy(Get(data[0], "value"), Get(data[0], "revenue"));
      var last := FirstTruthy(Get(data[|data| - 1], "value"), Get(data[|data| - 1], "revenue"));
      (first <= 0.0 ==> t.growthRate == 0.0) &&
      (first > 0.0 ==> last == first * (1.0 + t.growthRate / 100.0)) &&
      (first > 0.0 ==> (t.growthRate > 0.0 <==> last > first) && (t.growthRate < 0.0 <==> last < first))
  {
    if |data| == 0 then Totals(0.0, 0.0, 0.0, 0.0)
    else
      var revenue := SumPreferring(data, "revenue", Some("value"));
      var users := SumPreferring(data, "users", Some("value"));
      var conversions := SumPreferring(data, "conversions", None);
      var first := FirstTruthy(Get(data[0], "value"), Get(data[0], "revenue"));
      var last := FirstTruthy(Get(data[|data| - 1], "value"), Get(data[|data| - 1], "revenue"));
      var growth := if first > 0.0 then (last - first) / first * 100.0 else 0.0;
      Totals(revenue, users, conversions, growth)
  }

  /** Where every record has a numeric `field`, the `value` fallback plays no part. */
  lemma {:induction false} FieldIgnoresValueWhenPresent(data: seq<Obj>, field: string)
    requires forall i :: 0 <= i < |data| ==> Get(data[i], field).Num?
    ensures SumPreferring(data, field, Some("value")) == SumPreferring(data, field, None)
    ensures field == "revenue" ==> CalculateMetricsFromData(data).revenue == SumPreferring(data, "revenue", None)
    ensures field == "users" ==> CalculateMetricsFromData(data).users == SumPreferring(data, "users", None)
    decreases |data|
  {
    if data != [] {
      FieldIgnoresValueWhenPresent(data[1..], field);
    }
  }

  /** Where no record has a numeric `field`, its total is the sum of `value`. */
  lemma {:induction false} FieldFallsBackToValue(data: seq<Obj>, field: string)
    requires forall i :: 0 <= i < |data| ==> !Get(data[i], field).Num?
    ensures SumPreferring(data, field, Some("value")) == SumPreferring(data, "value", None)
    ensures field == "revenue" ==> CalculateMetricsFromData(data).revenue == SumPreferring(data, "value", None)
    ensures field == "users" ==> CalculateMetricsFromData(data).users == SumPreferring(data, "value", None)
    decreases |data|
  {
    if data != [] {
      FieldFallsBackToValue(data[1..], field);
    }
  }

  // ---------------------------------------------------------------------------------------------
  // Range label

  /**
   * `formatDateRange`: a prompt without a start, the start date alone without an end,
   * otherwise "start - end".
   */
  function FormatDateRange(range: DateRange, host: Host): (r: string)
    ensures range.from.None? ==> r == "Select date range"
    ensures range.from.Some? && range.to.None? ==> r == host.formatLong(range.from.value)
    ensures range.Complete() ==> r == host.formatLong(range.from.value) + " - " + host.formatLong(range.to.value)
  {
    if range.from.None? then "Select date range"
    else if range.to.None? then host.formatLong(range.from.value)
    else host.formatLong(range.from.value) + " - " + host.formatLong(range.to.value)
  }
}
