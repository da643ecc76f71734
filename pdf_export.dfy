/**
 * PDF export (src/lib/export/pdf-export.ts). The jsPDF document is a `PdfDocument` object whose
 * pages are lists of marks (text items and tables); autoTable is `AutoTable`, whose layout result
 * (`finalY` and the pages a long table spills onto) is an input, not computed here.
 */
module PdfExport {
  import opened Wrappers
  import opened Types
  import Text
  import CsvExport

  datatype Color = Color(r: int, g: int, b: int)

  const Black := Color(0, 0, 0)
  const Blue := Color(59, 130, 246)
  const Grey := Color(100, 100, 100)

  /** What is drawn on a page: a text item, or a table laid out by autoTable. */
  datatype Mark =
    | TextMark(text: string, x: real, y: real, size: int, color: Color)
    | TableMark(head: seq<string>, body: seq<seq<string>>, startY: real, size: int, widths: seq<int>)

  /** autoTable's layout result: where the table ends and how many further pages it occupies. */
  datatype TableOutcome = TableOutcome(finalY: real, extraPages: nat)

  /** The jsPDF document: its pages, the current page (0-based) and the current text style. */
  class PdfDocument {
    var pages: seq<seq<Mark>>
    var current: nat
    var fontSize: int
    var color: Color

    predicate Valid()
      reads this
    {
      current < |pages|
    }

    /** `new JsPDF()`: one empty page, 16pt black text. */
    constructor ()
      ensures Valid() && pages == [[]] && current == 0 && fontSize == 16 && color == Black
    {
      pages := [[]];
      current := 0;
      fontSize := 16;
      color := Black;
    }

    method SetFontSize(size: int)
      modifies this
      ensures fontSize == size
      ensures pages == old(pages) && current == old(current) && color == old(color)
    {
      fontSize := size;
    }

    method SetTextColor(c: Color)
      modifies this
      ensures color == c
      ensures pages == old(pages) && current == old(current) && fontSize == old(fontSize)
    {
      color := c;
    }

    /** `doc.text(s, x, y)`: draws on the current page in the current style. */
    method Text(s: string, x: real, y: real)
      requires Valid()
      modifies this
      ensures Valid()
      ensures pages == old(pages)[old(current) := old(pages)[old(current)] + [TextMark(s, x, y, fontSize, color)]]
      ensures current == old(current) && fontSize == old(fontSize) && color == old(color)
    {
      pages := pages[current := pages[current] + [TextMark(s, x, y, fontSize, color)]];
    }

    /** `doc.addPage()`: appends an empty page and makes it current. */
    method AddPage()
      modifies this
      ensures Valid()
      ensures pages == old(pages) + [[]] && current == |old(pages)|
      ensures fontSize == old(fontSize) && color == old(color)
    {
      pages := pages + [[]];
      current := |pages| - 1;
    }

    /** `doc.setPage(n)`, pages numbered from 1. */
    method SetPage(n: int)
      requires 1 <= n <= |pages|
      modifies this
      ensures Valid()
      ensures current == n - 1
      ensures pages == old(pages) && fontSize == old(fontSize) && color == old(color)
    {
      current := n - 1;
    }
  }

  /** Empty pages. */
  function Blank(n: nat): (pages: seq<seq<Mark>>)
    ensures |pages| == n && forall i :: 0 <= i < n ==> pages[i] == []
  {
    seq(n, i => [])
  }

  /** Draws marks at the end of the last page. */
  function AddToLast(pages: seq<seq<Mark>>, marks: seq<Mark>): (r: seq<seq<Mark>>)
    requires |pages| > 0
    ensures |r| == |pages| && r[..|pages| - 1] == pages[..|pages| - 1]
    ensures r[|pages| - 1] == pages[|pages| - 1] + marks
  {
    pages[|pages| - 1 := pages[|pages| - 1] + marks]
  }

  lemma AddToLastTwice(pages: seq<seq<Mark>>, a: seq<Mark>, b: seq<Mark>)
    requires |pages| > 0
    ensures AddToLast(AddToLast(pages, a), b) == AddToLast(pages, a + b)
  {
    assert pages[|pages| - 1] + a + b == pages[|pages| - 1] + (a + b);
  }

  /**
   * `autoTable(doc, ...)` on the last page: the table is drawn where the cursor is and any pages it
   * spills onto follow; the last of them becomes current.
   */
  method AutoTable(doc: PdfDocument, head: seq<string>, body: seq<seq<string>>, startY: real, size: int,
                   widths: seq<int>, outcome: TableOutcome) returns (finalY: real)
    requires doc.Valid() && doc.current == |doc.pages| - 1
    modifies doc
    ensures doc.Valid() && doc.current == |doc.pages| - 1
    ensures doc.pages == AddToLast(old(doc.pages), [TableMark(head, body, startY, size, widths)]) + Blank(outcome.extraPages)
    ensures doc.fontSize == old(doc.fontSize) && doc.color == old(doc.color)
    ensures finalY == outcome.finalY
  {
    doc.pages := AddToLast(doc.pages, [TableMark(head, body, startY, size, widths)]) + Blank(outcome.extraPages);
    doc.current := |doc.pages| - 1;
    finalY := outcome.finalY;
  }

  // ---------------------------------------------------------------------------------------------
  // Header and table rows

  /** The brand lines every report starts with. */
  const HeaderMarks: seq<Mark> := [
    TextMark("ADmyBRAND Insights", 20.0, 25.0, 24, Blue),
    TextMark("Analytics Dashboard Report", 20.0, 35.0, 12, Grey)]

  /** `createPDFDocument`: a fresh one-page document carrying the brand lines. */
  method CreatePdfDocument() returns (doc: PdfDocument)
    ensures fresh(doc) && doc.Valid()
    ensures doc.pages == [HeaderMarks] && doc.current == 0 && doc.fontSize == 12 && doc.color == Grey
  {
    doc := new PdfDocument();
    doc.SetFontSize(24);
    doc.SetTextColor(Blue);
    doc.Text("ADmyBRAND Insights", 20.0, 25.0);
    assert |doc.pages| == 1;
    assert doc.pages[0] == [TextMark("ADmyBRAND Insights", 20.0, 25.0, 24, Blue)];
    doc.SetFontSize(12);
    doc.SetTextColor(Grey);
    doc.Text("Analytics Dashboard Report", 20.0, 35.0);
    assert |doc.pages| == 1;
    assert doc.pages[0] == HeaderMarks;
  }

  const MetricsHead: seq<string> := ["Metric", "Value", "Change", "Trend"]

  /** One metric as a PDF table row: "+" only before a positive change, "%" after it. */
  function MetricsPdfRow(m: MetricCard, host: Host): (row: seq<string>)
    ensures |row| == |MetricsHead|
  {
    [m.title, m.value, (if m.change > 0.0 then "+" else "") + host.numberToString(m.change) + "%", m.changeType.Name()]
  }

  /**
   * The PDF metrics row agrees with the CSV one on title, value and change type; its change cell
   * is the CSV change with a "+" exactly for positive changes and a "%" appended.
   */
  lemma MetricsPdfRowMatchesCsv(m: MetricCard, host: Host)
    ensures var pdf := MetricsPdfRow(m, host); var csv := CsvExport.MetricCells(m, host);
      pdf[0] == csv[0] && pdf[1] == csv[1] && pdf[3] == csv[3]
      && (m.change > 0.0 ==> pdf[2] == "+" + csv[2] + "%")
      && (m.change <= 0.0 ==> pdf[2] == csv[2] + "%")
  {
  }

  const CampaignHead: seq<string> := [
    "Campaign", "Channel", "Status", "Impressions", "Clicks", "Conversions", "Revenue", "CTR",
    "Conv Rate", "ROAS"]

  /** Column widths by index. */
  const CampaignWidths: seq<int> := [25, 20, 15, 20, 15, 15, 20, 12, 15, 12]

  /** One campaign as a PDF table row (no Date Created; counts and revenue localised). */
  function CampaignPdfRow(c: TableRow, host: Host): (row: seq<string>)
    ensures |row| == |CampaignHead| == |CampaignWidths| == 10
  {
    [c.campaign, c.channel, c.status.Name(), host.toLocaleString(c.impressions),
     host.toLocaleString(c.clicks), host.numberToString(c.conversions), "$" + host.toLocaleString(c.revenue),
     host.numberToString(c.ctr) + "%", host.numberToString(c.conversionRate) + "%", host.numberToString(c.roas)]
  }

  /**
   * The PDF campaign row is the CSV row without its last column (Date Created): name, channel,
   * status, conversions and ROAS are the same text, impressions and clicks are localised rather
   * than plain, CTR and conversion rate gain a "%", and revenue is the localised amount after "$".
   */
  lemma CampaignPdfRowMatchesCsv(c: TableRow, host: Host)
    ensures var pdf := CampaignPdfRow(c, host); var csv := CsvExport.CampaignCells(c, host);
      |pdf| == |csv| - 1 && CsvExport.CampaignHeader[10] == "Date Created"
      && pdf[..3] == csv[..3] && pdf[5] == csv[5] && pdf[9] == csv[9]
      && pdf[7] == csv[7] + "%" && pdf[8] == csv[8] + "%"
      && pdf[3] == host.toLocaleString(c.impressions) && csv[3] == host.numberToString(c.impressions)
      && pdf[4] == host.toLocaleString(c.clicks) && csv[4] == host.numberToString(c.clicks)
      && pdf[6] == "$" + host.toLocaleString(c.revenue)
  {
  }

  // ---------------------------------------------------------------------------------------------
  // Layout

  datatype PdfData = PdfData(metrics: seq<MetricCard>, campaignData: seq<TableRow>, dateRange: Option<FullRange>)

  datatype PdfOptions = PdfOptions(
    filename: Option<string>, includeMetrics: Option<bool>, includeCharts: Option<bool>,
    includeCampaigns: Option<bool>, dateRange: Option<FullRange>)

  /** A section is drawn unless its option is explicitly false, and only when it has rows. */
  predicate IncludesMetrics(data: PdfData, options: PdfOptions) {
    options.includeMetrics != Some(false) && |data.metrics| > 0
  }

  predicate IncludesCampaigns(data: PdfData, options: PdfOptions) {
    options.includeCampaigns != Some(false) && |data.campaignData| > 0
  }

  /** "Report Period: <from> - <to>" below the header when there is a range. */
  function PeriodMarks(range: Option<FullRange>, host: Host): seq<Mark> {
    match range
    case None => []
    case Some(r) =>
      [TextMark("Report Period: " + host.formatLong(r.from.value) + " - " + host.formatLong(r.to.value), 20.0, 45.0, 10, Grey)]
  }

  /** Where the first section starts: below the header, or below the period line. */
  function StartCursor(range: Option<FullRange>): real {
    if range.Some? then 60.0 else 50.0
  }

  const PageBreakThreshold: real := 200.0
  const TopOfPage: real := 20.0

  function MetricsMarks(metrics: seq<MetricCard>, startY: real, host: Host): seq<Mark> {
    [TextMark("Key Performance Metrics", 20.0, startY, 16, Black),
     TableMark(MetricsHead, MetricsPdfRows(metrics, host), startY + 10.0, 10, [])]
  }

  function MetricsPdfRows(metrics: seq<MetricCard>, host: Host): (rows: seq<seq<string>>)
    ensures |rows| == |metrics|
  {
    seq(|metrics|, i requires 0 <= i < |metrics| => MetricsPdfRow(metrics[i], host))
  }

  function CampaignMarks(campaigns: seq<TableRow>, startY: real, host: Host): seq<Mark> {
    [TextMark("Campaign Performance", 20.0, startY, 16, Black),
     TableMark(CampaignHead, CampaignPdfRows(campaigns, host), startY + 10.0, 8, CampaignWidths)]
  }

  function CampaignPdfRows(campaigns: seq<TableRow>, host: Host): (rows: seq<seq<string>>)
    ensures |rows| == |campaigns|
  {
    seq(|campaigns|, i requires 0 <= i < |campaigns| => CampaignPdfRow(campaigns[i], host))
  }

  /** The pages and the cursor once the header, the period line and the metrics section are drawn. */
  function AfterMetrics(data: PdfData, options: PdfOptions, metricsTable: TableOutcome, host: Host)
    : (r: (seq<seq<Mark>>, real))
    ensures |r.0| > 0
  {
    var first := [HeaderMarks + PeriodMarks(data.dateRange, host)];
    var y := StartCursor(data.dateRange);
    if IncludesMetrics(data, options)
    then (AddToLast(first, MetricsMarks(data.metrics, y, host)) + Blank(metricsTable.extraPages), metricsTable.finalY + 20.0)
    else (first, y)
  }

  /** Whether the campaign table is moved to a fresh page. */
  predicate BreaksBeforeCampaigns(data: PdfData, options: PdfOptions, metricsTable: TableOutcome, host: Host) {
    IncludesCampaigns(data, options) && AfterMetrics(data, options, metricsTable, host).1 > PageBreakThreshold
  }

  /** The pages before the footer. */
  function BodyPages(data: PdfData, options: PdfOptions, metricsTable: TableOutcome, campaignTable: TableOutcome, host: Host)
    : (pages: seq<seq<Mark>>)
    ensures |pages| > 0
  {
    var (p, y) := AfterMetrics(data, options, metricsTable, host);
    if !IncludesCampaigns(data, options) then p
    else if y > PageBreakThreshold
    then AddToLast(p + [[]], CampaignMarks(data.campaignData, TopOfPage, host)) + Blank(campaignTable.extraPages)
    else AddToLast(p, CampaignMarks(data.campaignData, y, host)) + Blank(campaignTable.extraPages)
  }

  /**
   * The first page starts with the brand lines, then the period line exactly when there is a
   * range; the metrics title follows at 50, or at 60 below a period line.
   */
  lemma FirstPageLayout(data: PdfData, options: PdfOptions, metricsTable: TableOutcome, campaignTable: TableOutcome, host: Host)
    ensures var page := BodyPages(data, options, metricsTable, campaignTable, host)[0];
      var k := if data.dateRange.Some? then 3 else 2;
      |page| >= k && page[..2] == HeaderMarks
      && (data.dateRange.Some? ==> page[2].TextMark? && page[2].y == 45.0)
      && (IncludesMetrics(data, options) ==>
            |page| > k && page[k] == TextMark("Key Performance Metrics", 20.0, if data.dateRange.Some? then 60.0 else 50.0, 16, Black))
  {
    var (p, y) := AfterMetrics(data, options, metricsTable, host);
    var body := BodyPages(data, options, metricsTable, campaignTable, host);
    assert |p[0]| >= |HeaderMarks + PeriodMarks(data.dateRange, host)|;
    assert p[0][..|HeaderMarks + PeriodMarks(data.dateRange, host)|] == HeaderMarks + PeriodMarks(data.dateRange, host);
    assert |body[0]| >= |p[0]| && body[0][..|p[0]|] == p[0];
    if IncludesMetrics(data, options) {
      var k := if data.dateRange.Some? then 3 else 2;
      assert p[0][k] == MetricsMarks(data.metrics, StartCursor(data.dateRange), host)[0];
      assert body[0][k] == p[0][k];
    }
  }

  /** Without a metrics section the cursor is at most 60, so the campaign table never moves. */
  lemma NoMetricsNoPageBreak(data: PdfData, options: PdfOptions, metricsTable: TableOutcome, host: Host)
    requires !IncludesMetrics(data, options)
    ensures !BreaksBeforeCampaigns(data, options, metricsTable, host)
  {
  }

  /**
   * The page count: one page, the pages each table spills onto, and one more exactly when the
   * campaign table is moved; a moved campaign table starts its page at the top (y = 20).
   */
  lemma PageCount(data: PdfData, options: PdfOptions, metricsTable: TableOutcome, campaignTable: TableOutcome, host: Host)
    ensures var pages := BodyPages(data, options, metricsTable, campaignTable, host);
      |pages| == 1 + (if IncludesMetrics(data, options) then metricsTable.extraPages else 0)
                   + (if BreaksBeforeCampaigns(data, options, metricsTable, host) then 1 else 0)
                   + (if IncludesCampaigns(data, options) then campaignTable.extraPages else 0)
    ensures BreaksBeforeCampaigns(data, options, metricsTable, host) ==>
      var n := |AfterMetrics(data, options, metricsTable, host).0|;
      var pages := BodyPages(data, options, metricsTable, campaignTable, host);
      pages[n] == CampaignMarks(data.campaignData, TopOfPage, host) && pages[n][0].y == 20.0
  {
  }

  /** The heads of the tables among some marks, in drawing order. */
  function MarkHeads(marks: seq<Mark>): seq<seq<string>> {
    if marks == [] then []
    else (if marks[0].TableMark? then [marks[0].head] else []) + MarkHeads(marks[1..])
  }

  /** The heads of the tables on all pages, page by page. */
  function TableHeads(pages: seq<seq<Mark>>): seq<seq<string>> {
    if pages == [] then [] else MarkHeads(pages[0]) + TableHeads(pages[1..])
  }

  /** Some page holds a table under `head`. */
  ghost predicate Draws(pages: seq<seq<Mark>>, head: seq<string>) {
    exists i, j :: 0 <= i < |pages| && 0 <= j < |pages[i]| && pages[i][j].TableMark? && pages[i][j].head == head
  }

  lemma {:induction false} MarkHeadsAppend(a: seq<Mark>, b: seq<Mark>)
    ensures MarkHeads(a + b) == MarkHeads(a) + MarkHeads(b)
    decreases |a|
  {
    if a == [] {
      assert a + b == b;
    } else {
      var h := if a[0].TableMark? then [a[0].head] else [];
      assert (a + b)[0] == a[0];
      assert (a + b)[1..] == a[1..] + b;
      MarkHeadsAppend(a[1..], b);
      calc {
        MarkHeads(a + b);
        h + MarkHeads(a[1..] + b);
        h + (MarkHeads(a[1..]) + MarkHeads(b));
        (h + MarkHeads(a[1..])) + MarkHeads(b);
      }
    }
  }

  lemma {:induction false} TableHeadsAppend(a: seq<seq<Mark>>, b: seq<seq<Mark>>)
    ensures TableHeads(a + b) == TableHeads(a) + TableHeads(b)
    decreases |a|
  {
    if a == [] {
      assert a + b == b;
    } else {
      assert (a + b)[0] == a[0];
      assert (a + b)[1..] == a[1..] + b;
      TableHeadsAppend(a[1..], b);
      calc {
        TableHeads(a + b);
        MarkHeads(a[0]) + TableHeads(a[1..] + b);
        MarkHeads(a[0]) + (TableHeads(a[1..]) + TableHeads(b));
        (MarkHeads(a[0]) + TableHeads(a[1..])) + TableHeads(b);
      }
    }
  }

  lemma TableHeadsSingle(marks: seq<Mark>)
    ensures TableHeads([marks]) == MarkHeads(marks)
  {
    var one: seq<seq<Mark>> := [marks];
    assert one[1..] == [];
  }

  lemma {:induction false} TableHeadsBlank(n: nat)
    ensures TableHeads(Blank(n)) == []
    decreases n
  {
    if n > 0 {
      assert Blank(n)[1..] == Blank(n - 1);
      TableHeadsBlank(n - 1);
    }
  }

  /** Marks holding no table list no heads. */
  lemma {:induction false} TextOnly(marks: seq<Mark>)
    requires forall j :: 0 <= j < |marks| ==> marks[j].TextMark?
    ensures MarkHeads(marks) == []
    decreases |marks|
  {
    if marks != [] {
      TextOnly(marks[1..]);
    }
  }

  /** A section is a title followed by its table. */
  lemma SectionHeads(title: Mark, table: Mark)
    requires title.TextMark? && table.TableMark?
    ensures MarkHeads([title, table]) == [table.head]
  {
    var m := [title, table];
    var rest: seq<Mark> := [table];
    assert m[1..] == rest && rest[1..] == [];
    calc {
      MarkHeads(m);
      [] + MarkHeads(rest);
      [] + ([table.head] + MarkHeads([]));
      [table.head];
    }
  }

  /** Drawing on the last page adds the tables drawn, after all earlier ones. */
  lemma {:induction false} TableHeadsAddToLast(pages: seq<seq<Mark>>, marks: seq<Mark>)
    requires |pages| > 0
    ensures TableHeads(AddToLast(pages, marks)) == TableHeads(pages) + MarkHeads(marks)
    decreases |pages|
  {
    var r := AddToLast(pages, marks);
    MarkHeadsAppend(pages[0], marks);
    if |pages| == 1 {
      assert r == [pages[0] + marks];
      assert pages == [pages[0]];
      TableHeadsSingle(pages[0]);
      TableHeadsSingle(pages[0] + marks);
    } else {
      var tail := AddToLast(pages[1..], marks);
      assert r[0] == pages[0] && r[1..] == tail;
      TableHeadsAddToLast(pages[1..], marks);
      calc {
        TableHeads(r);
        MarkHeads(pages[0]) + TableHeads(tail);
        MarkHeads(pages[0]) + (TableHeads(pages[1..]) + MarkHeads(marks));
        (MarkHeads(pages[0]) + TableHeads(pages[1..])) + MarkHeads(marks);
      }
    }
  }

  /** A head is listed exactly when some mark is a table under it. */
  lemma {:induction false} MarkHeadsMember(marks: seq<Mark>, head: seq<string>)
    ensures head in MarkHeads(marks) <==> exists j :: 0 <= j < |marks| && marks[j].TableMark? && marks[j].head == head
    decreases |marks|
  {
    if marks != [] {
      MarkHeadsMember(marks[1..], head);
      if head in MarkHeads(marks[1..]) {
        var j :| 0 <= j < |marks[1..]| && marks[1..][j].TableMark? && marks[1..][j].head == head;
        assert marks[j + 1] == marks[1..][j];
      }
      if exists j :: 0 <= j < |marks| && marks[j].TableMark? && marks[j].head == head {
        var j :| 0 <= j < |marks| && marks[j].TableMark? && marks[j].head == head;
        if j > 0 {
          assert marks[1..][j - 1] == marks[j];
        }
      }
    }
  }

  /** A head is listed exactly when some page draws a table under it. */
  lemma {:induction false} TableHeadsMember(pages: seq<seq<Mark>>, head: seq<string>)
    ensures head in TableHeads(pages) <==> Draws(pages, head)
    decreases |pages|
  {
    if pages != [] {
      TableHeadsMember(pages[1..], head);
      MarkHeadsMember(pages[0], head);
      if head in MarkHeads(pages[0]) {
        var j :| 0 <= j < |pages[0]| && pages[0][j].TableMark? && pages[0][j].head == head;
        assert Draws(pages, head) by {
          assert pages[0][j].TableMark? && pages[0][j].head == head;
        }
      }
      if Draws(pages[1..], head) {
        var i, j :| 0 <= i < |pages[1..]| && 0 <= j < |pages[1..][i]| && pages[1..][i][j].TableMark? && pages[1..][i][j].head == head;
        assert pages[i + 1] == pages[1..][i];
      }
      if Draws(pages, head) {
        var i, j :| 0 <= i < |pages| && 0 <= j < |pages[i]| && pages[i][j].TableMark? && pages[i][j].head == head;
        if i > 0 {
          assert pages[1..][i - 1] == pages[i];
        }
      }
    }
  }

  /** The brand lines and the period line are text only. */
  lemma FirstPageHasNoTable(range: Option<FullRange>, host: Host)
    ensures TableHeads([HeaderMarks + PeriodMarks(range, host)]) == []
  {
    TextOnly(HeaderMarks + PeriodMarks(range, host));
    TableHeadsSingle(HeaderMarks + PeriodMarks(range, host));
  }

  /**
   * The tables of the report, in order: the metrics table exactly when the metrics section is
   * included, then the campaign table exactly when the campaign section is.
   */
  lemma SectionTables(data: PdfData, options: PdfOptions, metricsTable: TableOutcome, campaignTable: TableOutcome, host: Host)
    ensures TableHeads(BodyPages(data, options, metricsTable, campaignTable, host))
      == (if IncludesMetrics(data, options) then [MetricsHead] else [])
       + (if IncludesCampaigns(data, options) then [CampaignHead] else [])
  {
    var first := [HeaderMarks + PeriodMarks(data.dateRange, host)];
    var y := StartCursor(data.dateRange);
    FirstPageHasNoTable(data.dateRange, host);
    var (p, y') := AfterMetrics(data, options, metricsTable, host);
    if IncludesMetrics(data, options) {
      var m := MetricsMarks(data.metrics, y, host);
      TableHeadsAddToLast(first, m);
      SectionHeads(m[0], m[1]);
      assert m == [m[0], m[1]];
      TableHeadsAppend(AddToLast(first, m), Blank(metricsTable.extraPages));
      TableHeadsBlank(metricsTable.extraPages);
    }
    assert TableHeads(p) == if IncludesMetrics(data, options) then [MetricsHead] else [];
    if IncludesCampaigns(data, options) {
      var q := if y' > PageBreakThreshold then p + [[]] else p;
      var c := CampaignMarks(data.campaignData, if y' > PageBreakThreshold then TopOfPage else y', host);
      if y' > PageBreakThreshold {
        var blank: seq<seq<Mark>> := [[]];
        TableHeadsAppend(p, blank);
        assert blank[1..] == [];
      }
      assert TableHeads(q) == TableHeads(p);
      TableHeadsAddToLast(q, c);
      SectionHeads(c[0], c[1]);
      assert c == [c[0], c[1]];
      TableHeadsAppend(AddToLast(q, c), Blank(campaignTable.extraPages));
      TableHeadsBlank(campaignTable.extraPages);
    }
  }

  /** Each section's table is in the report exactly when the section is included. */
  lemma SectionDrawnIffIncluded(data: PdfData, options: PdfOptions, metricsTable: TableOutcome, campaignTable: TableOutcome, host: Host)
    ensures var pages := BodyPages(data, options, metricsTable, campaignTable, host);
      (Draws(pages, MetricsHead) <==> IncludesMetrics(data, options))
      && (Draws(pages, CampaignHead) <==> IncludesCampaigns(data, options))
  {
    var pages := BodyPages(data, options, metricsTable, campaignTable, host);
    SectionTables(data, options, metricsTable, campaignTable, host);
    TableHeadsMember(pages, MetricsHead);
    TableHeadsMember(pages, CampaignHead);
    assert MetricsHead != CampaignHead by { assert |MetricsHead| != |CampaignHead|; }
  }

  /**
   * Without the metrics section the cursor stays where the header left it (50, or 60 below a period
   * line); with it, the cursor is 20 below the metrics table.
   */
  lemma CursorAfterMetrics(data: PdfData, options: PdfOptions, metricsTable: TableOutcome, host: Host)
    ensures var (p, y) := AfterMetrics(data, options, metricsTable, host);
      (!IncludesMetrics(data, options) ==> p == [HeaderMarks + PeriodMarks(data.dateRange, host)] && y == StartCursor(data.dateRange))
      && (IncludesMetrics(data, options) ==> |p| == 1 + metricsTable.extraPages && y == metricsTable.finalY + 20.0)
  {
  }

  /**
   * An included campaign section that is not moved is drawn at the cursor, at the end of the page
   * the metrics section ended on, with the pages it spills onto after it; without metrics that is
   * the first page, right below the header.
   */
  lemma CampaignsStayOnPage(data: PdfData, options: PdfOptions, metricsTable: TableOutcome, campaignTable: TableOutcome, host: Host)
    requires IncludesCampaigns(data, options) && !BreaksBeforeCampaigns(data, options, metricsTable, host)
    ensures var (p, y) := AfterMetrics(data, options, metricsTable, host);
      var pages := BodyPages(data, options, metricsTable, campaignTable, host);
      |pages| == |p| + campaignTable.extraPages
      && pages[..|p| - 1] == p[..|p| - 1]
      && pages[|p| - 1] == p[|p| - 1] + CampaignMarks(data.campaignData, y, host)
    ensures !IncludesMetrics(data, options) ==>
      BodyPages(data, options, metricsTable, campaignTable, host)[0]
      == HeaderMarks + PeriodMarks(data.dateRange, host) + CampaignMarks(data.campaignData, StartCursor(data.dateRange), host)
  {
    var (p, y) := AfterMetrics(data, options, metricsTable, host);
    var pages := BodyPages(data, options, metricsTable, campaignTable, host);
    assert pages == AddToLast(p, CampaignMarks(data.campaignData, y, host)) + Blank(campaignTable.extraPages);
    assert pages[..|p| - 1] == AddToLast(p, CampaignMarks(data.campaignData, y, host))[..|p| - 1];
  }

  // ---------------------------------------------------------------------------------------------
  // Footer

  /** The footer lines of page `i` of `n`. */
  function FooterMarks(i: nat, n: nat, range: Option<FullRange>, now: Instant, host: Host): seq<Mark> {
    [TextMark("Generated on " + host.formatStamp(now), 20.0, 285.0, 8, Grey)]
    + (match range
       case None => []
       case Some(r) =>
         [TextMark("Data range: " + host.formatLong(r.from.value) + " - " + host.formatLong(r.to.value), 20.0, 290.0, 8, Grey)])
    + [PageNumberMark(i, n)]
  }

  function PageNumberMark(i: nat, n: nat): Mark {
    TextMark("Page " + Text.NatToString(i) + " of " + Text.NatToString(n), 170.0, 285.0, 8, Grey)
  }

  /** Every page with its footer added. */
  function Footed(pages: seq<seq<Mark>>, range: Option<FullRange>, now: Instant, host: Host): (r: seq<seq<Mark>>)
    ensures |r| == |pages|
  {
    seq(|pages|, i requires 0 <= i < |pages| => pages[i] + FooterMarks(i + 1, |pages|, range, now, host))
  }

  /**
   * `addFooter`: visits pages 1..N and draws the footer on each; the pages end up as `Footed`.
   */
  method AddFooter(doc: PdfDocument, range: Option<FullRange>, now: Instant, host: Host)
    requires doc.Valid()
    modifies doc
    ensures doc.Valid()
    ensures doc.pages == Footed(old(doc.pages), range, now, host)
  {
    ghost var original := doc.pages;
    var pageCount := |doc.pages|;
    var i := 1;
    while i <= pageCount
      invariant 1 <= i <= pageCount + 1
      invariant doc.Valid() && |doc.pages| == pageCount
      invariant forall k :: 0 <= k < i - 1 ==> doc.pages[k] == Footed(original, range, now, host)[k]
      invariant forall k :: i - 1 <= k < pageCount ==> doc.pages[k] == original[k]
    {
      DrawFooter(doc, i, pageCount, range, now, host);
      i := i + 1;
    }
  }

  /** One turn of the footer loop: page `i` of `n` gains its footer lines, in 8pt grey. */
  method DrawFooter(doc: PdfDocument, i: nat, n: nat, range: Option<FullRange>, now: Instant, host: Host)
    requires doc.Valid() && 1 <= i <= n == |doc.pages|
    modifies doc
    ensures doc.Valid()
    ensures doc.pages == old(doc.pages)[i - 1 := old(doc.pages)[i - 1] + FooterMarks(i, n, range, now, host)]
  {
    doc.SetPage(i);
    doc.SetFontSize(8);
    doc.SetTextColor(Grey);
    doc.Text("Generated on " + host.formatStamp(now), 20.0, 285.0);
    if range.Some? {
      var r := range.value;
      doc.Text("Data range: " + host.formatLong(r.from.value) + " - " + host.formatLong(r.to.value), 20.0, 290.0);
    }
    doc.Text("Page " + Text.NatToString(i) + " of " + Text.NatToString(n), 170.0, 285.0);
    assert doc.pages[i - 1] == old(doc.pages)[i - 1] + FooterMarks(i, n, range, now, host);
  }

  /**
   * Every page keeps its content and ends with "Page i of N"; it gains three footer lines with a
   * range and two without, so the data-range line is there exactly when a range is.
   */
  lemma FooterOnEveryPage(pages: seq<seq<Mark>>, range: Option<FullRange>, now: Instant, host: Host, i: nat)
    requires i < |pages|
    ensures var f := Footed(pages, range, now, host)[i];
      |f| == |pages[i]| + (if range.Some? then 3 else 2)
      && f[..|pages[i]|] == pages[i]
      && f[|f| - 1] == PageNumberMark(i + 1, |pages|)
      && (range.Some? ==> f[|pages[i]| + 1].y == 290.0)
  {
    var f := Footed(pages, range, now, host)[i];
    assert f == pages[i] + FooterMarks(i + 1, |pages|, range, now, host);
  }

  /** Different pages carry different page numbers. */
  lemma PageNumbersDistinct(i: nat, j: nat, n: nat)
    requires i != j
    ensures PageNumberMark(i, n) != PageNumberMark(j, n)
  {
    var a := "Page " + Text.NatToString(i) + " of " + Text.NatToString(n);
    var b := "Page " + Text.NatToString(j) + " of " + Text.NatToString(n);
    if a == b {
      var ti, tj := Text.NatToString(i), Text.NatToString(j);
      assert |ti| == |tj|;
      assert ti == a[5..5 + |ti|];
      assert tj == b[5..5 + |tj|];
      Text.NatToStringRoundTrip(i);
      Text.NatToStringRoundTrip(j);
    }
  }

  // ---------------------------------------------------------------------------------------------
  // The export

  /** `generatePDFFilename`: "admybrand-insights-dashboard[_<from>-to-<to>]_<yyyy-MM-dd-HHmm>.pdf". */
  function GeneratePDFFilename(range: Option<FullRange>, now: Instant, host: Host): (name: string)
    ensures |name| > 32 && name[..28] == "admybrand-insights-dashboard" && name[|name| - 4..] == ".pdf"
    ensures range.None? ==> name == "admybrand-insights-dashboard_" + host.formatFileStamp(now) + ".pdf"
    ensures range.Some? ==>
      name == "admybrand-insights-dashboard_" + host.formatYmd(range.value.from.value) + "-to-"
              + host.formatYmd(range.value.to.value) + "_" + host.formatFileStamp(now) + ".pdf"
  {
    CsvExport.FilePrefix + "dashboard" + CsvExport.RangeSegment(range, host) + "_" + host.formatFileStamp(now) + ".pdf"
  }

  /** The PDF file is named like the dashboard CSV, with ".pdf" instead of ".csv". */
  lemma PdfNameMatchesCsvName(range: Option<FullRange>, now: Instant, host: Host)
    ensures var pdf := GeneratePDFFilename(range, now, host);
      var csv := CsvExport.GenerateCSVFilename(CsvExport.Dashboard, range, now, host);
      |pdf| == |csv| && pdf[..|pdf| - 4] == csv[..|csv| - 4] && pdf[|pdf| - 4..] == ".pdf" && csv[|csv| - 4..] == ".csv"
  {
    var stem := CsvExport.FilePrefix + "dashboard" + CsvExport.RangeSegment(range, host) + "_" + host.formatFileStamp(now);
    assert GeneratePDFFilename(range, now, host) == stem + ".pdf";
    assert CsvExport.GenerateCSVFilename(CsvExport.Dashboard, range, now, host) == stem + ".csv";
  }

  /** A non-empty `filename` option wins over the generated name. */
  function PdfFilename(option: Option<string>, range: Option<FullRange>, now: Instant, host: Host): (name: string)
    ensures Truthy(option) ==> name == option.value
    ensures !Truthy(option) ==> name == GeneratePDFFilename(range, now, host)
  {
    if Truthy(option) then option.value else GeneratePDFFilename(range, now, host)
  }

  /** `addMetricsSection`: title and table at the cursor; returns the cursor 20 below the table. */
  method AddMetricsSection(doc: PdfDocument, metrics: seq<MetricCard>, startY: real, outcome: TableOutcome, host: Host)
    returns (nextY: real)
    requires doc.Valid() && doc.current == |doc.pages| - 1
    modifies doc
    ensures doc.Valid() && doc.current == |doc.pages| - 1
    ensures doc.pages == AddToLast(old(doc.pages), MetricsMarks(metrics, startY, host)) + Blank(outcome.extraPages)
    ensures nextY == outcome.finalY + 20.0
  {
    doc.SetFontSize(16);
    doc.SetTextColor(Black);
    ghost var before := doc.pages;
    doc.Text("Key Performance Metrics", 20.0, startY);
    assert doc.pages == AddToLast(before, [TextMark("Key Performance Metrics", 20.0, startY, 16, Black)]);
    var finalY := AutoTable(doc, MetricsHead, MetricsPdfRows(metrics, host), startY + 10.0, 10, [], outcome);
    AddToLastTwice(before, [MetricsMarks(metrics, startY, host)[0]], [MetricsMarks(metrics, startY, host)[1]]);
    assert MetricsMarks(metrics, startY, host) == [MetricsMarks(metrics, startY, host)[0]] + [MetricsMarks(metrics, startY, host)[1]];
    nextY := finalY + 20.0;
  }

  /** `addCampaignTable`: title and table at the cursor; returns the cursor 20 below the table. */
  method AddCampaignTable(doc: PdfDocument, campaigns: seq<TableRow>, startY: real, outcome: TableOutcome, host: Host)
    returns (nextY: real)
    requires doc.Valid() && doc.current == |doc.pages| - 1
    modifies doc
    ensures doc.Valid() && doc.current == |doc.pages| - 1
    ensures doc.pages == AddToLast(old(doc.pages), CampaignMarks(campaigns, startY, host)) + Blank(outcome.extraPages)
    ensures nextY == outcome.finalY + 20.0
  {
    doc.SetFontSize(16);
    doc.SetTextColor(Black);
    ghost var before := doc.pages;
    doc.Text("Campaign Performance", 20.0, startY);
    assert doc.pages == AddToLast(before, [TextMark("Campaign Performance", 20.0, startY, 16, Black)]);
    var finalY := AutoTable(doc, CampaignHead, CampaignPdfRows(campaigns, host), startY + 10.0, 8, CampaignWidths, outcome);
    AddToLastTwice(before, [CampaignMarks(campaigns, startY, host)[0]], [CampaignMarks(campaigns, startY, host)[1]]);
    assert CampaignMarks(campaigns, startY, host) == [CampaignMarks(campaigns, startY, host)[0]] + [CampaignMarks(campaigns, startY, host)[1]];
    nextY := finalY + 20.0;
  }

  /**
   * `exportDashboardToPDF`: header, optional period line, the included sections with the page-break
   * rule, then the footer on every page; returns the document and the name it is saved under.
   */
  method ExportDashboardToPDF(data: PdfData, options: PdfOptions, metricsTable: TableOutcome,
                              campaignTable: TableOutcome, now: Instant, host: Host)
    returns (doc: PdfDocument, filename: string)
    ensures fresh(doc) && doc.Valid()
    ensures doc.pages == Footed(BodyPages(data, options, metricsTable, campaignTable, host), data.dateRange, now, host)
    ensures filename == PdfFilename(options.filename, data.dateRange, now, host)
  {
    doc := CreatePdfDocument();
    var currentY: real := 50.0;
    if data.dateRange.Some? {
      var r := data.dateRange.value;
      doc.SetFontSize(10);
      doc.SetTextColor(Grey);
      doc.Text("Report Period: " + host.formatLong(r.from.value) + " - " + host.formatLong(r.to.value), 20.0, 45.0);
      currentY := 60.0;
      assert |doc.pages| == 1;
      assert doc.pages[0] == HeaderMarks + PeriodMarks(data.dateRange, host);
    } else {
      assert HeaderMarks + PeriodMarks(data.dateRange, host) == HeaderMarks;
    }
    assert doc.pages == [HeaderMarks + PeriodMarks(data.dateRange, host)];
    if IncludesMetrics(data, options) {
      currentY := AddMetricsSection(doc, data.metrics, currentY, metricsTable, host);
    }
    assert (doc.pages, currentY) == AfterMetrics(data, options, metricsTable, host);
    if IncludesCampaigns(data, options) {
      if currentY > PageBreakThreshold {
        doc.AddPage();
        currentY := TopOfPage;
      }
      currentY := AddCampaignTable(doc, data.campaignData, currentY, campaignTable, host);
    }
    assert doc.pages == BodyPages(data, options, metricsTable, campaignTable, host);
    AddFooter(doc, data.dateRange, now, host);
    filename := PdfFilename(options.filename, data.dateRange, now, host);
  }
}
