/**
 * The records the dashboard core passes around: JavaScript values and plain objects,
 * time-series points, campaign rows, metric cards and date ranges.
 */
module Types {
  import opened Wrappers

  /** A point in time, in milliseconds since the Unix epoch (UTC; time zones are not modelled). */
  type Instant = int

  /** A JavaScript property value as the core reads it (NaN, booleans and nested objects are not modelled). */
  datatype Cell = Undefined | Num(n: real) | Text(s: string)

  /**
   * A plain JavaScript object: its own properties in insertion order. Reading a key that is not
   * there gives `undefined`; the first entry with a key is the one that counts. JavaScript lists
   * keys that are array indices ("0", "2024") before all others, in numeric order; that ordering is
   * not modelled, so key order here is right only for keys that are not array indices.
   */
  type Obj = seq<(string, Cell)>

  function Get(o: Obj, key: string): (c: Cell)
    ensures c != Undefined ==> exists i :: 0 <= i < |o| && o[i] == (key, c)
    decreases |o|
  {
    if o == [] then Undefined
    else if o[0].0 == key then o[0].1
    else Get(o[1..], key)
  }

  /** `Object.keys(o)`. */
  function Keys(o: Obj): (ks: seq<string>)
    ensures |ks| == |o|
    ensures forall i :: 0 <= i < |o| ==> ks[i] == o[i].0
  {
    seq(|o|, i requires 0 <= i < |o| => o[i].0)
  }

  predicate DistinctKeys(o: Obj) {
    forall i, j :: 0 <= i < j < |o| ==> o[i].0 != o[j].0
  }

  /**
   * `o[key] = v`: an existing key keeps its position and takes the new value,
   * a new key is added at the end (where JavaScript puts it unless it is an array index).
   */
  function Put(o: Obj, key: string, v: Cell): (r: Obj)
    decreases |o|
  {
    if o == [] then [(key, v)]
    else if o[0].0 == key then [(key, v)] + o[1..]
    else [o[0]] + Put(o[1..], key, v)
  }

  /** `{ ...base, ...src }`: the properties of `src` written onto `base` one by one, in order. */
  function Spread(base: Obj, src: Obj): Obj
    decreases |src|
  {
    if src == [] then base else Spread(Put(base, src[0].0, src[0].1), src[1..])
  }

  /**
   * A time-series record (`TimeSeriesData`): an object with a `date` label such as "Jan 15"
   * and numeric series fields such as `value`, `revenue` or `users`.
   */
  type TimeSeriesData = Obj

  /** The `date` label of a record, when it is a string. */
  function DateLabel(p: TimeSeriesData): Option<string> {
    match Get(p, "date")
    case Text(s) => Some(s)
    case _ => None
  }

  datatype Status = Active | Paused | Completed {
    function Name(): string {
      match this
      case Active => "active"
      case Paused => "paused"
      case Completed => "completed"
    }
  }

  /** A row of the campaign table (`TableRow`); `dateCreated` is an ISO date such as "2025-07-14". */
  datatype TableRow = TableRow(
    id: string, campaign: string, channel: string,
    impressions: real, clicks: real, conversions: real, revenue: real,
    ctr: real, conversionRate: real, roas: real,
    status: Status, dateCreated: string)
  {
    /** `row[name]` for a property name given at run time. */
    function Field(name: string): Cell {
      if name == "id" then Text(id)
      else if name == "campaign" then Text(campaign)
      else if name == "channel" then Text(channel)
      else if name == "impressions" then Num(impressions)
      else if name == "clicks" then Num(clicks)
      else if name == "conversions" then Num(conversions)
      else if name == "revenue" then Num(revenue)
      else if name == "ctr" then Num(ctr)
      else if name == "conversionRate" then Num(conversionRate)
      else if name == "roas" then Num(roas)
      else if name == "status" then Text(status.Name())
      else if name == "dateCreated" then Text(dateCreated)
      else Undefined
    }
  }

  datatype ChangeType = Increase | Decrease {
    function Name(): string {
      match this
      case Increase => "increase"
      case Decrease => "decrease"
    }
  }

  /** A KPI card (`MetricCard`). */
  datatype MetricCard = MetricCard(
    id: string, title: string, value: string, change: real,
    changeType: ChangeType, icon: string, description: Option<string>)

  /**
   * A date range as the UI hands it around (`DateRange`, and the date picker's range, whose
   * bounds may be missing while the user is still picking).
   */
  datatype DateRange = DateRange(from: Option<Instant>, to: Option<Instant>) {
    predicate Complete() {
      from.Some? && to.Some?
    }
  }

  /** A range with both bounds, as the export code's `dateRange?: DateRange` is typed. */
  type FullRange = r: DateRange | r.Complete() witness DateRange(Some(0), Some(0))

  /**
   * The routines the core calls but does not define: date-fns `format` with the four patterns it
   * uses, date-fns `parseISO`, the engine's `new Date(string)`, and number rendering.
   * An invalid date is `None`.
   */
  datatype Host = Host(
    formatYmd: Instant -> string,        // format(d, "yyyy-MM-dd")
    formatLong: Instant -> string,       // format(d, "MMM dd, yyyy")
    formatStamp: Instant -> string,      // format(d, "yyyy-MM-dd HH:mm:ss")
    formatFileStamp: Instant -> string,  // format(d, "yyyy-MM-dd-HHmm")
    parseIso: string -> Option<Instant>, // parseISO(s)
    parseLoose: string -> Option<Instant>, // new Date(s)
    toFixed: (real, nat) -> string,      // x.toFixed(d)
    numberToString: real -> string,      // String(x)
    toLocaleString: real -> string)      // x.toLocaleString()

  /** JavaScript truthiness of an optional string: present and non-empty. */
  predicate Truthy(s: Option<string>) {
    s.Some? && s.value != ""
  }
}
