/**
 * CSV export (src/lib/export/csv-export.ts): the metrics, campaign and chart tables, the
 * multi-section dashboard document and the file name. `Papa.unparse` is modelled by
 * `UnparseObjects`/`UnparseArrays` over the RFC 4180 writer.
 */
module CsvExport {
  import opened Wrappers
  import opened Types
  import Text
  import Rfc4180

  // ---------------------------------------------------------------------------------------------
  // Papa.unparse

  /** How a value is written into a cell: `undefined` as nothing, a number by `String(x)`. */
  function CellText(c: Cell, host: Host): string {
    match c
    case Undefined => ""
    case Num(n) => host.numberToString(n)
    case Text(s) => s
  }

  /** The cells of `o` under the given column keys. */
  function CellsUnder(o: Obj, keys: seq<string>, host: Host): (cells: seq<string>)
    ensures |cells| == |keys|
  {
    seq(|keys|, j requires 0 <= j < |keys| => CellText(Get(o, keys[j]), host))
  }

  /**
   * One object's row under the header: its values under the header's keys, or an empty line with
   * no delimiters when the object has no keys at all.
   */
  function RowUnder(o: Obj, keys: seq<string>, host: Host): (cells: seq<string>)
    ensures Keys(o) == [] ==> cells == []
    ensures Keys(o) != [] ==> |cells| == |keys|
  {
    if Keys(o) == [] then [] else CellsUnder(o, keys, host)
  }

  /**
   * `Papa.unparse(objects)`: the first object's keys are the header, every object gives one row
   * of its values under those keys; no objects give the empty document.
   */
  function UnparseObjects(objs: seq<Obj>, host: Host): string {
    if objs == [] then ""
    else
      var keys := Keys(objs[0]);
      if keys == [] then Rfc4180.WriteTable(seq(|objs|, i => []))
      else
        Rfc4180.WriteTable([keys] + seq(|objs|, i requires 0 <= i < |objs| => RowUnder(objs[i], keys, host)))
  }

  function CellTexts(row: seq<Cell>, host: Host): (texts: seq<string>)
    ensures |texts| == |row|
  {
    seq(|row|, j requires 0 <= j < |row| => CellText(row[j], host))
  }

  /** `Papa.unparse(arrays)`: one record per array, no header. */
  function UnparseArrays(rows: seq<seq<Cell>>, host: Host): string {
    Rfc4180.WriteTable(seq(|rows|, i requires 0 <= i < |rows| => CellTexts(rows[i], host)))
  }

  /** In an object with distinct keys, reading the key of an entry gives that entry's value. */
  lemma {:induction false} GetOwnKey(o: Obj, j: nat)
    requires DistinctKeys(o) && j < |o|
    ensures Get(o, o[j].0) == o[j].1
    decreases j
  {
    if j > 0 {
      assert o[0].0 != o[j].0;
      assert DistinctKeys(o[1..]);
      assert o[1..][j - 1] == o[j];
      GetOwnKey(o[1..], j - 1);
    }
  }

  /** An object's own keys read back its values, in order. */
  lemma CellsUnderOwnKeys(o: Obj, host: Host)
    requires DistinctKeys(o)
    ensures CellsUnder(o, Keys(o), host) == seq(|o|, j requires 0 <= j < |o| => CellText(o[j].1, host))
  {
    forall j | 0 <= j < |o| ensures Get(o, Keys(o)[j]) == o[j].1 {
      GetOwnKey(o, j);
    }
  }

  /**
   * Objects that all have the same distinct, non-empty key list unparse to that header followed by
   * each object's values.
   */
  lemma UnparseUniform(objs: seq<Obj>, keys: seq<string>, rows: seq<seq<string>>, host: Host)
    requires objs != [] && keys != [] && |rows| == |objs|
    requires forall i :: 0 <= i < |objs| ==> Keys(objs[i]) == keys && DistinctKeys(objs[i])
    requires forall i :: 0 <= i < |objs| ==>
      rows[i] == seq(|objs[i]|, j requires 0 <= j < |objs[i]| => CellText(objs[i][j].1, host))
    ensures UnparseObjects(objs, host) == Rfc4180.WriteTable([keys] + rows)
  {
    forall i | 0 <= i < |objs| ensures RowUnder(objs[i], keys, host) == rows[i] {
      CellsUnderOwnKeys(objs[i], host);
    }
    assert seq(|objs|, i requires 0 <= i < |objs| => RowUnder(objs[i], keys, host)) == rows;
  }

  // ---------------------------------------------------------------------------------------------
  // Metrics table

  const MetricsHeader: seq<string> := ["Metric", "Value", "Change (%)", "Change Type", "Description"]

  function MetricObject(m: MetricCard): Obj {
    [("Metric", Text(m.title)), ("Value", Text(m.value)), ("Change (%)", Num(m.change)),
     ("Change Type", Text(m.changeType.Name())), ("Description", Text(m.description.GetOr("")))]
  }

  /** The cells one metric contributes, in column order; a missing description is empty. */
  function MetricCells(m: MetricCard, host: Host): seq<string> {
    [m.title, m.value, host.numberToString(m.change), m.changeType.Name(), m.description.GetOr("")]
  }

  /** `exportMetricsToCSV`. */
  function ExportMetricsToCSV(metrics: seq<MetricCard>, host: Host): (csv: string)
    ensures metrics == [] ==> csv == ""
    ensures metrics != [] ==>
      csv == Rfc4180.WriteTable([MetricsHeader] + seq(|metrics|, i requires 0 <= i < |metrics| => MetricCells(metrics[i], host)))
  {
    MetricsUnparse(metrics, host);
    UnparseObjects(MetricObjects(metrics), host)
  }

  function MetricObjects(metrics: seq<MetricCard>): seq<Obj> {
    seq(|metrics|, i requires 0 <= i < |metrics| => MetricObject(metrics[i]))
  }

  lemma MetricsUnparse(metrics: seq<MetricCard>, host: Host)
    ensures metrics != [] ==>
              UnparseObjects(MetricObjects(metrics), host)
              == Rfc4180.WriteTable([MetricsHeader] + seq(|metrics|, i requires 0 <= i < |metrics| => MetricCells(metrics[i], host)))
  {
    var objs := MetricObjects(metrics);
    if metrics != [] {
      var rows := seq(|metrics|, i requires 0 <= i < |metrics| => MetricCells(metrics[i], host));
      forall i | 0 <= i < |objs|
        ensures Keys(objs[i]) == MetricsHeader && DistinctKeys(objs[i])
        ensures rows[i] == seq(|objs[i]|, j requires 0 <= j < |objs[i]| => CellText(objs[i][j].1, host))
      {
      }
      UnparseUniform(objs, MetricsHeader, rows, host);
    }
  }

  /** Reading the metrics CSV gives the header and one row per metric. */
  lemma MetricsCsvRoundTrip(metrics: seq<MetricCard>, host: Host)
    requires metrics != []
    ensures Rfc4180.ParseTable(ExportMetricsToCSV(metrics, host))
         == [MetricsHeader] + seq(|metrics|, i requires 0 <= i < |metrics| => MetricCells(metrics[i], host))
  {
    Rfc4180.ParseWriteTable([MetricsHeader] + seq(|metrics|, i requires 0 <= i < |metrics| => MetricCells(metrics[i], host)));
  }

  // ---------------------------------------------------------------------------------------------
  // Campaign table

  const CampaignHeader: seq<string> := [
    "Campaign", "Channel", "Status", "Impressions", "Clicks", "Conversions", "Revenue",
    "CTR (%)", "Conversion Rate (%)", "ROAS", "Date Created"]

  function CampaignObject(c: TableRow): Obj {
    [("Campaign", Text(c.campaign)), ("Channel", Text(c.channel)), ("Status", Text(c.status.Name())),
     ("Impressions", Num(c.impressions)), ("Clicks", Num(c.clicks)), ("Conversions", Num(c.conversions)),
     ("Revenue", Num(c.revenue)), ("CTR (%)", Num(c.ctr)), ("Conversion Rate (%)", Num(c.conversionRate)),
     ("ROAS", Num(c.roas)), ("Date Created", Text(c.dateCreated))]
  }

  /** The 11 cells one campaign contributes, in column order. */
  function CampaignCells(c: TableRow, host: Host): (cells: seq<string>)
    ensures |cells| == |CampaignHeader| == 11
  {
    [c.campaign, c.channel, c.status.Name(), host.numberToString(c.impressions),
     host.numberToString(c.clicks), host.numberToString(c.conversions), host.numberToString(c.revenue),
     host.numberToString(c.ctr), host.numberToString(c.conversionRate), host.numberToString(c.roas),
     c.dateCreated]
  }

  function CampaignRows(campaigns: seq<TableRow>, host: Host): (rows: seq<seq<string>>)
    ensures |rows| == |campaigns|
    ensures forall i :: 0 <= i < |rows| ==> |rows[i]| == |CampaignHeader|
  {
    seq(|campaigns|, i requires 0 <= i < |campaigns| => CampaignCells(campaigns[i], host))
  }

  /** `exportCampaignsToCSV`. */
  function ExportCampaignsToCSV(campaigns: seq<TableRow>, host: Host): (csv: string)
    ensures campaigns == [] ==> csv == ""
    ensures campaigns != [] ==> csv == Rfc4180.WriteTable([CampaignHeader] + CampaignRows(campaigns, host))
  {
    CampaignsUnparse(campaigns, host);
    UnparseObjects(CampaignObjects(campaigns), host)
  }

  function CampaignObjects(campaigns: seq<TableRow>): seq<Obj> {
    seq(|campaigns|, i requires 0 <= i < |campaigns| => CampaignObject(campaigns[i]))
  }

  /** One campaign's object has the header's keys, once each, and unparses to its cells. */
  lemma CampaignObjectLayout(c: TableRow, host: Host)
    ensures Keys(CampaignObject(c)) == CampaignHeader && DistinctKeys(CampaignObject(c))
    ensures var o := CampaignObject(c);
      CampaignCells(c, host) == seq(|o|, j requires 0 <= j < |o| => CellText(o[j].1, host))
  {
  }

  lemma CampaignsUnparse(campaigns: seq<TableRow>, host: Host)
    ensures campaigns != [] ==>
              UnparseObjects(CampaignObjects(campaigns), host)
              == Rfc4180.WriteTable([CampaignHeader] + CampaignRows(campaigns, host))
  {
    var objs := CampaignObjects(campaigns);
    if campaigns != [] {
      var rows := CampaignRows(campaigns, host);
      forall i | 0 <= i < |objs|
        ensures Keys(objs[i]) == CampaignHeader && DistinctKeys(objs[i])
        ensures rows[i] == seq(|objs[i]|, j requires 0 <= j < |objs[i]| => CellText(objs[i][j].1, host))
      {
        CampaignObjectLayout(campaigns[i], host);
      }
      UnparseUniform(objs, CampaignHeader, rows, host);
    }
  }

  /**
   * Reading the campaign CSV gives the header and exactly one 11-column row per campaign, whose
   * text fields are the campaign's own; with no campaigns the document is empty.
   */
  lemma CampaignCsvRoundTrip(campaigns: seq<TableRow>, host: Host)
    requires campaigns != []
    ensures Rfc4180.ParseTable(ExportCampaignsToCSV(campaigns, host)) == [CampaignHeader] + CampaignRows(campaigns, host)
  {
    var table := [CampaignHeader] + CampaignRows(campaigns, host);
    assert ExportCampaignsToCSV(campaigns, host) == Rfc4180.WriteTable(table);
    forall i | 0 <= i < |table| ensures |table[i]| > 0 {
      if i > 0 { assert table[i] == CampaignRows(campaigns, host)[i - 1]; }
    }
    Rfc4180.ParseWriteTable(table);
  }

  // ---------------------------------------------------------------------------------------------
  // Chart tables

  /** `o[key] = v` either rewrites an entry in place or appends one for `key`. */
  lemma {:induction false} PutShape(o: Obj, key: string, v: Cell)
    ensures var r := Put(o, key, v);
      (|r| == |o| && forall i :: 0 <= i < |o| ==> r[i].0 == o[i].0) ||
      (r == o + [(key, v)])
    decreases |o|
  {
    if o != [] && o[0].0 != key {
      var rest := Put(o[1..], key, v);
      PutShape(o[1..], key, v);
      assert Put(o, key, v) == [o[0]] + rest;
      if rest == o[1..] + [(key, v)] {
        assert [o[0]] + (o[1..] + [(key, v)]) == o + [(key, v)];
      }
    }
  }

  /** `Object.keys(o)` after `o[key] = v`: unchanged, or `key` added at the end. */
  lemma PutKeys(o: Obj, key: string, v: Cell)
    ensures Keys(Put(o, key, v)) == Keys(o) || Keys(Put(o, key, v)) == Keys(o) + [key]
  {
    var r := Put(o, key, v);
    PutShape(o, key, v);
    if r == o + [(key, v)] {
      assert Keys(r) == Keys(o) + [key];
    } else {
      assert Keys(r) == Keys(o);
    }
  }

  /** Writing a key the object does not have appends the entry. */
  lemma {:induction false} PutFresh(o: Obj, key: string, v: Cell)
    requires key !in Keys(o)
    ensures Put(o, key, v) == o + [(key, v)]
    decreases |o|
  {
    if o != [] {
      assert Keys(o) == [o[0].0] + Keys(o[1..]);
      PutFresh(o[1..], key, v);
      assert [o[0]] + (o[1..] + [(key, v)]) == o + [(key, v)];
    }
  }

  /** A spread keeps the base object's keys at the front, in their order. */
  lemma {:induction false} SpreadKeepsBaseKeys(base: Obj, src: Obj)
    ensures |Spread(base, src)| >= |base|
    ensures Keys(Spread(base, src))[..|base|] == Keys(base)
    decreases |src|
  {
    if src != [] {
      var b := Put(base, src[0].0, src[0].1);
      PutKeys(base, src[0].0, src[0].1);
      SpreadKeepsBaseKeys(b, src[1..]);
      assert Keys(b)[..|base|] == Keys(base);
    }
  }

  /** Spreading an object whose keys are new and distinct appends its entries. */
  lemma {:induction false} SpreadFresh(base: Obj, src: Obj)
    requires DistinctKeys(src)
    requires forall i :: 0 <= i < |src| ==> src[i].0 !in Keys(base)
    ensures Spread(base, src) == base + src
    decreases |src|
  {
    if src == [] {
      assert base + src == base;
    } else {
      PutFresh(base, src[0].0, src[0].1);
      var b := base + [src[0]];
      assert Keys(b) == Keys(base) + [src[0].0];
      forall i | 0 <= i < |src[1..]| ensures src[1..][i].0 !in Keys(b) {
        assert src[1..][i] == src[i + 1];
      }
      SpreadFresh(b, src[1..]);
      assert b + src[1..] == base + src;
    }
  }

  /** The row object for one point of a single chart: `{ Date, Value, Chart, ...item }`. */
  function ChartObject(item: TimeSeriesData, chartName: string): Obj {
    Spread([("Date", Get(item, "date")), ("Value", Get(item, "value")), ("Chart", Text(chartName))], item)
  }

  /**
   * `exportChartDataToCSV`: nothing for no points; otherwise a header of the first row's keys,
   * which begins Date, Value, Chart, and one record per point holding that point's row object
   * read under the header.
   */
  function ExportChartDataToCSV(data: seq<TimeSeriesData>, chartName: string, host: Host): (csv: string)
    ensures data == [] ==> csv == ""
    ensures data != [] ==>
      var keys := Keys(ChartObject(data[0], chartName));
      |keys| >= 3 && keys[..3] == ["Date", "Value", "Chart"]
      && csv == Rfc4180.WriteTable([keys] + ChartCells(data, chartName, keys, host))
  {
    if data == [] then ""
    else
      ChartRowLayout(data[0], chartName);
      ChartUnparse(data, chartName, host);
      UnparseObjects(ChartObjects(data, chartName), host)
  }

  function ChartObjects(data: seq<TimeSeriesData>, chartName: string): seq<Obj> {
    seq(|data|, i requires 0 <= i < |data| => ChartObject(data[i], chartName))
  }

  lemma ChartUnparse(data: seq<TimeSeriesData>, chartName: string, host: Host)
    requires data != []
    ensures var keys := Keys(ChartObject(data[0], chartName));
      UnparseObjects(ChartObjects(data, chartName), host)
      == Rfc4180.WriteTable([keys] + ChartCells(data, chartName, keys, host))
  {
    var objs := ChartObjects(data, chartName);
    var keys := Keys(ChartObject(data[0], chartName));
    ChartRowLayout(data[0], chartName);
    assert Keys(objs[0]) == keys && keys != [];
    forall i | 0 <= i < |objs|
      ensures RowUnder(objs[i], keys, host) == CellsUnder(objs[i], keys, host)
    {
      ChartRowLayout(data[i], chartName);
    }
    assert seq(|objs|, i requires 0 <= i < |objs| => RowUnder(objs[i], keys, host))
        == ChartCells(data, chartName, keys, host);
  }

  /** Each point's row object read under the given header keys. */
  function ChartCells(data: seq<TimeSeriesData>, chartName: string, keys: seq<string>, host: Host)
    : (rows: seq<seq<string>>)
    ensures |rows| == |data|
    ensures forall i :: 0 <= i < |rows| ==> |rows[i]| == |keys|
  {
    seq(|data|, i requires 0 <= i < |data| => CellsUnder(ChartObject(data[i], chartName), keys, host))
  }

  /**
   * Reading a chart CSV back gives a header beginning Date, Value, Chart and exactly one record
   * per point, each as wide as the header.
   */
  lemma ChartCsvRoundTrip(data: seq<TimeSeriesData>, chartName: string, host: Host)
    requires data != []
    ensures var table := Rfc4180.ParseTable(ExportChartDataToCSV(data, chartName, host));
      |table| == |data| + 1 && |table[0]| >= 3 && table[0][..3] == ["Date", "Value", "Chart"]
      && forall i :: 0 < i < |table| ==> |table[i]| == |table[0]|
  {
    var keys := Keys(ChartObject(data[0], chartName));
    var table := [keys] + ChartCells(data, chartName, keys, host);
    assert ExportChartDataToCSV(data, chartName, host) == Rfc4180.WriteTable(table);
    forall i | 0 <= i < |table| ensures |table[i]| > 0 {
      if i > 0 { assert table[i] == ChartCells(data, chartName, keys, host)[i - 1]; }
    }
    Rfc4180.ParseWriteTable(table);
  }

  /**
   * A chart row begins with Date, Value and Chart (the chart's name); the item's own fields
   * follow when none of them is named Date, Value or Chart. (JavaScript would list an item key
   * that is an array index first; objects here keep insertion order for every key.)
   */
  lemma ChartRowLayout(item: TimeSeriesData, chartName: string)
    ensures |ChartObject(item, chartName)| >= 3
    ensures Keys(ChartObject(item, chartName))[..3] == ["Date", "Value", "Chart"]
    ensures DistinctKeys(item) && (forall i :: 0 <= i < |item| ==> item[i].0 !in {"Date", "Value", "Chart"}) ==>
      ChartObject(item, chartName)
        == [("Date", Get(item, "date")), ("Value", Get(item, "value")), ("Chart", Text(chartName))] + item
  {
    var base := [("Date", Get(item, "date")), ("Value", Get(item, "value")), ("Chart", Text(chartName))];
    SpreadKeepsBaseKeys(base, item);
    if DistinctKeys(item) && (forall i :: 0 <= i < |item| ==> item[i].0 !in {"Date", "Value", "Chart"}) {
      SpreadFresh(base, item);
    }
  }

  datatype NamedSeries = NamedSeries(name: string, data: seq<TimeSeriesData>)

  /** The row object for one point in the multi-chart table: `{ Chart, Date, Value, ...item }`. */
  function MultiChartObject(chartName: string, item: TimeSeriesData): Obj {
    Spread([("Chart", Text(chartName)), ("Date", Get(item, "date")), ("Value", Get(item, "value"))], item)
  }

  function ChartRows(chart: NamedSeries): (rows: seq<Obj>)
    ensures |rows| == |chart.data|
  {
    seq(|chart.data|, j requires 0 <= j < |chart.data| => MultiChartObject(chart.name, chart.data[j]))
  }

  function TotalPoints(charts: seq<NamedSeries>): nat {
    if charts == [] then 0 else |charts[0].data| + TotalPoints(charts[1..])
  }

  /** The rows of every chart, chart by chart in input order. */
  function AllChartRows(charts: seq<NamedSeries>): (rows: seq<Obj>)
    ensures |rows| == TotalPoints(charts)
  {
    if charts == [] then [] else ChartRows(charts[0]) + AllChartRows(charts[1..])
  }

  lemma {:induction false} AllChartRowsSnoc(charts: seq<NamedSeries>, i: nat)
    requires i < |charts|
    ensures AllChartRows(charts[..i + 1]) == AllChartRows(charts[..i]) + ChartRows(charts[i])
    decreases i
  {
    if i == 0 {
      assert charts[..1] == [charts[0]];
      assert charts[..1][1..] == [];
      assert charts[..0] == [];
    } else {
      assert charts[..i + 1][1..] == charts[1..][..i];
      assert charts[..i][1..] == charts[1..][..i - 1];
      AllChartRowsSnoc(charts[1..], i - 1);
    }
  }

  /** Point `j` of chart `i` is row `TotalPoints(charts[..i]) + j`. */
  lemma {:induction false} AllChartRowsAt(charts: seq<NamedSeries>, i: nat, j: nat)
    requires i < |charts| && j < |charts[i].data|
    ensures TotalPoints(charts[..i]) + j < TotalPoints(charts)
    ensures AllChartRows(charts)[TotalPoints(charts[..i]) + j] == MultiChartObject(charts[i].name, charts[i].data[j])
    decreases i
  {
    if i > 0 {
      assert charts[..i][1..] == charts[1..][..i - 1];
      AllChartRowsAt(charts[1..], i - 1, j);
    } else {
      assert charts[..0] == [];
    }
  }

  /**
   * `exportMultipleChartsToCSV`: collects the rows of every chart in nested loops, then unparses
   * them; the rows are those of `AllChartRows`, so their count is the sum of the series lengths.
   */
  method ExportMultipleChartsToCSV(charts: seq<NamedSeries>, host: Host) returns (csv: string)
    ensures csv == UnparseObjects(AllChartRows(charts), host)
  {
    var allData: seq<Obj> := [];
    var i := 0;
    while i < |charts|
      invariant 0 <= i <= |charts|
      invariant allData == AllChartRows(charts[..i])
    {
      var chart := charts[i];
      var j := 0;
      while j < |chart.data|
        invariant 0 <= j <= |chart.data|
        invariant allData == AllChartRows(charts[..i]) + ChartRows(chart)[..j]
      {
        allData := allData + [MultiChartObject(chart.name, chart.data[j])];
        j := j + 1;
      }
      AllChartRowsSnoc(charts, i);
      assert ChartRows(chart)[..j] == ChartRows(chart);
      i := i + 1;
    }
    assert charts[..i] == charts;
    csv := UnparseObjects(allData, host);
  }

  // ---------------------------------------------------------------------------------------------
  // Dashboard document

  /** The data handed to the exporters (`ExportData`; its `performanceMetrics` is never read). */
  datatype ExportData = ExportData(
    metrics: seq<MetricCard>, revenueData: seq<TimeSeriesData>, userData: seq<TimeSeriesData>,
    campaignData: seq<TableRow>, conversionData: seq<Obj>, dateRange: Option<FullRange>)

  /** The metadata's Date Range: "All Time", or "yyyy-MM-dd to yyyy-MM-dd". */
  function RangeDescription(range: Option<FullRange>, host: Host): string {
    match range
    case None => "All Time"
    case Some(r) => host.formatYmd(r.from.value) + " to " + host.formatYmd(r.to.value)
  }

  function MetadataRows(data: ExportData, now: Instant, host: Host): seq<seq<Cell>> {
    [[Text("Export Type"), Text("Dashboard Summary")],
     [Text("Generated On"), Text(host.formatStamp(now))],
     [Text("Date Range"), Text(RangeDescription(data.dateRange, host))],
     [Text("")]]
  }

  /** The tables of the dashboard document; the conversions table only when there is conversion data. */
  datatype DashboardTables = DashboardTables(
    metadata: string, metrics: string, revenue: string, users: string, campaigns: string,
    conversions: Option<string>)

  function Tables(data: ExportData, now: Instant, host: Host): DashboardTables {
    DashboardTables(
      UnparseArrays(MetadataRows(data, now, host), host),
      ExportMetricsToCSV(data.metrics, host),
      ExportChartDataToCSV(data.revenueData, "Revenue", host),
      ExportChartDataToCSV(data.userData, "User Analytics", host),
      ExportCampaignsToCSV(data.campaignData, host),
      if |data.conversionData| > 0 then Some(UnparseObjects(data.conversionData, host)) else None)
  }

  /** The metadata block, then each table under its heading and followed by an empty line. */
  function Layout(t: DashboardTables): seq<string> {
    var fixed := [t.metadata, "KEY METRICS", t.metrics, "", "REVENUE DATA", t.revenue, "",
                  "USER ANALYTICS", t.users, "", "CAMPAIGN PERFORMANCE", t.campaigns, ""];
    match t.conversions
    case None => fixed
    case Some(c) => fixed + ["CONVERSIONS BY CHANNEL", c, ""]
  }

  /** The sections `exportDashboardToCSV` pushes, in order. */
  function DashboardSections(data: ExportData, now: Instant, host: Host): seq<string> {
    Layout(Tables(data, now, host))
  }

  /**
   * The sections' order: metadata, then KEY METRICS, REVENUE DATA, USER ANALYTICS and CAMPAIGN
   * PERFORMANCE, each heading followed by its table and an empty line; CONVERSIONS BY CHANNEL
   * comes last and only when there is a conversions table.
   */
  lemma DashboardSectionOrder(t: DashboardTables)
    ensures var s := Layout(t);
      |s| == (if t.conversions.Some? then 16 else 13)
      && s[0] == t.metadata
      && s[1] == "KEY METRICS" && s[2] == t.metrics && s[3] == ""
      && s[4] == "REVENUE DATA" && s[5] == t.revenue && s[6] == ""
      && s[7] == "USER ANALYTICS" && s[8] == t.users && s[9] == ""
      && s[10] == "CAMPAIGN PERFORMANCE" && s[11] == t.campaigns && s[12] == ""
      && (t.conversions.Some? ==>
            s[13] == "CONVERSIONS BY CHANNEL" && s[14] == t.conversions.value && s[15] == "")
  {
  }

  /** The thirteen pushes of the fixed part give the layout without conversions. */
  lemma PushedSections(metadata: string, metrics: string, revenue: string, users: string, campaigns: string)
    ensures [] + [metadata] + ["KEY METRICS"] + [metrics] + [""] + ["REVENUE DATA"] + [revenue] + [""]
            + ["USER ANALYTICS"] + [users] + [""] + ["CAMPAIGN PERFORMANCE"] + [campaigns] + [""]
            == Layout(DashboardTables(metadata, metrics, revenue, users, campaigns, None))
  {
  }

  /** Three more pushes add the conversions section. */
  lemma PushedConversions(t: DashboardTables)
    requires t.conversions.Some?
    ensures Layout(t.(conversions := None)) + ["CONVERSIONS BY CHANNEL"] + [t.conversions.value] + [""] == Layout(t)
  {
  }

  /** The metadata block reads back as its four records; Date Range is "All Time" without a range. */
  lemma MetadataReadsBack(data: ExportData, now: Instant, host: Host)
    ensures Rfc4180.ParseTable(DashboardSections(data, now, host)[0])
         == [["Export Type", "Dashboard Summary"], ["Generated On", host.formatStamp(now)],
             ["Date Range", RangeDescription(data.dateRange, host)], [""]]
    ensures data.dateRange.None? ==> RangeDescription(data.dateRange, host) == "All Time"
  {
    var rows := [["Export Type", "Dashboard Summary"], ["Generated On", host.formatStamp(now)],
                 ["Date Range", RangeDescription(data.dateRange, host)], [""]];
    var m := MetadataRows(data, now, host);
    var texts := seq(|m|, i requires 0 <= i < |m| => CellTexts(m[i], host));
    assert texts[0] == rows[0];
    assert texts[1] == rows[1];
    assert texts[2] == rows[2];
    assert texts[3] == rows[3];
    assert texts == rows;
    Rfc4180.ParseWriteTable(rows);
  }

  /** `exportDashboardToCSV`: pushes the sections one by one and joins them with "\n". */
  method ExportDashboardToCSV(data: ExportData, now: Instant, host: Host) returns (csv: string)
    ensures csv == Text.Join(DashboardSections(data, now, host), "\n")
  {
    var metadata := UnparseArrays(MetadataRows(data, now, host), host);
    var metrics := ExportMetricsToCSV(data.metrics, host);
    var revenue := ExportChartDataToCSV(data.revenueData, "Revenue", host);
    var users := ExportChartDataToCSV(data.userData, "User Analytics", host);
    var campaigns := ExportCampaignsToCSV(data.campaignData, host);
    var sections: seq<string> := [];
    sections := sections + [metadata];
    sections := sections + ["KEY METRICS"];
    sections := sections + [metrics];
    sections := sections + [""];
    sections := sections + ["REVENUE DATA"];
    sections := sections + [revenue];
    sections := sections + [""];
    sections := sections + ["USER ANALYTICS"];
    sections := sections + [users];
    sections := sections + [""];
    sections := sections + ["CAMPAIGN PERFORMANCE"];
    sections := sections + [campaigns];
    sections := sections + [""];
    PushedSections(metadata, metrics, revenue, users, campaigns);
    if |data.conversionData| > 0 {
      var table := UnparseObjects(data.conversionData, host);
      sections := sections + ["CONVERSIONS BY CHANNEL"];
      sections := sections + [table];
      sections := sections + [""];
      PushedConversions(DashboardTables(metadata, metrics, revenue, users, campaigns, Some(table)));
    }
    csv := Text.Join(sections, "\n");
  }

  // ---------------------------------------------------------------------------------------------
  // File name

  /** What a CSV export is of (`"dashboard" | "campaigns" | "metrics" | "charts"`). */
  datatype ExportContext = Dashboard | Campaigns | Metrics | Charts {
    function Name(): string {
      match this
      case Dashboard => "dashboard"
      case Campaigns => "campaigns"
      case Metrics => "metrics"
      case Charts => "charts"
    }
  }

  const FilePrefix: string := "admybrand-insights-"

  /** "_<from>-to-<to>" for a range, nothing without one. */
  function RangeSegment(range: Option<FullRange>, host: Host): (r: string)
    ensures range.None? <==> r == ""
  {
    match range
    case None => ""
    case Some(dr) => "_" + host.formatYmd(dr.from.value) + "-to-" + host.formatYmd(dr.to.value)
  }

  /** `generateCSVFilename`: "admybrand-insights-<type>[_<from>-to-<to>]_<yyyy-MM-dd-HHmm>.csv". */
  function GenerateCSVFilename(context: ExportContext, range: Option<FullRange>, now: Instant, host: Host)
    : (name: string)
    ensures name == FilePrefix + context.Name() + RangeSegment(range, host) + "_" + host.formatFileStamp(now) + ".csv"
    ensures range.None? ==> name == FilePrefix + context.Name() + "_" + host.formatFileStamp(now) + ".csv"
  {
    FilePrefix + context.Name() + RangeSegment(range, host) + "_" + host.formatFileStamp(now) + ".csv"
  }
}
