/**
 * The export hook (src/hooks/use-export.ts): dispatches CSV exports by context, drives the PDF
 * export, and keeps `isExporting`/`exportProgress`. Every value `exportProgress` takes is logged,
 * and each file handed to the browser is recorded as a download. Whether the download or the save
 * throws is an input (`delivered`, `saved`); the `finally` block runs either way.
 */
module ExportHook {
  import opened Wrappers
  import opened Types
  import Text
  import opened CsvExport
  import opened PdfExport

  datatype Download =
    | CsvFile(name: string, content: string)
    | PdfFile(name: string, pages: seq<seq<Mark>>)

  /** The generated-name context: "campaigns" and "metrics" name themselves, all else is "dashboard". */
  function NamingContext(context: ExportContext): (named: ExportContext)
    ensures named.Charts? == false
    ensures named == context || (context in {Charts, Dashboard} && named == Dashboard)
  {
    match context
    case Campaigns => Campaigns
    case Metrics => Metrics
    case _ => Dashboard
  }

  /** The CSV document an export in `context` produces. */
  function CsvContent(context: ExportContext, data: ExportData, now: Instant, host: Host): string {
    match context
    case Campaigns => ExportCampaignsToCSV(data.campaignData, host)
    case Metrics => ExportMetricsToCSV(data.metrics, host)
    case _ => Text.Join(DashboardSections(data, now, host), "\n")
  }

  /** A truthy configured name wins; otherwise the name is generated for the naming context. */
  function CsvFilename(context: ExportContext, configName: Option<string>, range: Option<FullRange>, now: Instant, host: Host)
    : (name: string)
    ensures Truthy(configName) ==> name == configName.value
    ensures !Truthy(configName) ==> name == GenerateCSVFilename(NamingContext(context), range, now, host)
  {
    if Truthy(configName) then configName.value else GenerateCSVFilename(NamingContext(context), range, now, host)
  }

  /** "campaigns" serialises only the campaigns and "metrics" only the metrics. */
  lemma ContextReadsOnlyItsTable(context: ExportContext, a: ExportData, b: ExportData, now: Instant, host: Host)
    ensures context == Campaigns && a.campaignData == b.campaignData ==>
      CsvContent(context, a, now, host) == CsvContent(context, b, now, host)
    ensures context == Metrics && a.metrics == b.metrics ==>
      CsvContent(context, a, now, host) == CsvContent(context, b, now, host)
  {
  }

  /** "charts" falls through to the dashboard: same document, same generated name. */
  lemma ChartsExportsTheDashboard(data: ExportData, configName: Option<string>, now: Instant, host: Host)
    ensures CsvContent(Charts, data, now, host) == CsvContent(Dashboard, data, now, host)
    ensures CsvFilename(Charts, configName, data.dateRange, now, host)
         == CsvFilename(Dashboard, configName, data.dateRange, now, host)
    ensures !Truthy(configName) ==>
      CsvFilename(Charts, configName, data.dateRange, now, host)
      == FilePrefix + "dashboard" + RangeSegment(data.dateRange, host) + "_" + host.formatFileStamp(now) + ".csv"
  {
    var doc := Text.Join(DashboardSections(data, now, host), "\n");
    assert CsvContent(Charts, data, now, host) == doc;
    assert CsvContent(Dashboard, data, now, host) == doc;
    assert NamingContext(Charts) == Dashboard == NamingContext(Dashboard);
  }

  /** The PDF exporter receives the metrics, the campaigns and the range, nothing else. */
  function PdfDataOf(data: ExportData): PdfData {
    PdfData(data.metrics, data.campaignData, data.dateRange)
  }

  /** The name passed on to the PDF exporter: the configured one, or a generated one. */
  function HookPdfName(configName: Option<string>, range: Option<FullRange>, now: Instant, host: Host): string {
    if Truthy(configName) then configName.value else GeneratePDFFilename(range, now, host)
  }

  /** The options `exportToPDF` passes: its file name, metrics and campaigns on, charts off. */
  function HookPdfOptions(configName: Option<string>, range: Option<FullRange>, now: Instant, host: Host): PdfOptions {
    PdfOptions(Some(HookPdfName(configName, range, now, host)), Some(true), Some(false), Some(true), None)
  }

  /**
   * From the hook, each PDF section is drawn exactly when it has rows, and the file is saved under
   * the configured name when there is one, else under the generated one.
   */
  lemma HookPdfSectionsAndName(data: ExportData, configName: Option<string>, metricsTable: TableOutcome,
                                campaignTable: TableOutcome, now: Instant, host: Host)
    ensures var options := HookPdfOptions(configName, data.dateRange, now, host);
      (IncludesMetrics(PdfDataOf(data), options) <==> |data.metrics| > 0)
      && (IncludesCampaigns(PdfDataOf(data), options) <==> |data.campaignData| > 0)
    ensures var pages := BodyPages(PdfDataOf(data), HookPdfOptions(configName, data.dateRange, now, host),
                                   metricsTable, campaignTable, host);
      (Draws(pages, MetricsHead) <==> |data.metrics| > 0)
      && (Draws(pages, CampaignHead) <==> |data.campaignData| > 0)
    ensures var options := HookPdfOptions(configName, data.dateRange, now, host);
      PdfFilename(options.filename, data.dateRange, now, host)
         == (if Truthy(configName) then configName.value else GeneratePDFFilename(data.dateRange, now, host))
  {
    SectionDrawnIffIncluded(PdfDataOf(data), HookPdfOptions(configName, data.dateRange, now, host),
                            metricsTable, campaignTable, host);
    var stem := FilePrefix + "dashboard" + RangeSegment(data.dateRange, host) + "_" + host.formatFileStamp(now);
    assert GeneratePDFFilename(data.dateRange, now, host) == stem + ".pdf";
    assert |GeneratePDFFilename(data.dateRange, now, host)| > 0;
  }

  /** Data carrying only campaigns (`exportCampaigns`) or only metrics (`exportMetrics`). */
  function CampaignsOnly(campaigns: seq<TableRow>, range: Option<FullRange>): ExportData {
    ExportData([], [], [], campaigns, [], range)
  }

  function MetricsOnly(metrics: seq<MetricCard>, range: Option<FullRange>): ExportData {
    ExportData(metrics, [], [], [], [], range)
  }

  /** The `switch (context)` of `exportToCSV`: the document and the file name for the context. */
  method BuildCsv(data: ExportData, context: ExportContext, configName: Option<string>, now: Instant, host: Host)
    returns (content: string, filename: string)
    ensures content == CsvContent(context, data, now, host)
    ensures filename == CsvFilename(context, configName, data.dateRange, now, host)
  {
    match context {
      case Campaigns =>
        content := ExportCampaignsToCSV(data.campaignData, host);
        filename := if Truthy(configName) then configName.value else GenerateCSVFilename(Campaigns, data.dateRange, now, host);
      case Metrics =>
        content := ExportMetricsToCSV(data.metrics, host);
        filename := if Truthy(configName) then configName.value else GenerateCSVFilename(Metrics, data.dateRange, now, host);
      case _ =>
        content := ExportDashboardToCSV(data, now, host);
        filename := if Truthy(configName) then configName.value else GenerateCSVFilename(Dashboard, data.dateRange, now, host);
    }
  }

  /** The hook's state: `isExporting`, `exportProgress`, and what has been logged and downloaded. */
  class Exporter {
    var isExporting: bool
    var exportProgress: int
    var progressLog: seq<int>
    var downloads: seq<Download>

    constructor ()
      ensures !isExporting && exportProgress == 0 && progressLog == [] && downloads == []
    {
      isExporting := false;
      exportProgress := 0;
      progressLog := [];
      downloads := [];
    }

    method SetProgress(p: int)
      modifies this
      ensures exportProgress == p && progressLog == old(progressLog) + [p]
      ensures isExporting == old(isExporting) && downloads == old(downloads)
    {
      exportProgress := p;
      progressLog := progressLog + [p];
    }

    /**
     * `exportToCSV`: 25, build the document and its name, 75, download, 100; whatever happened,
     * `isExporting` ends false and the progress 0.
     */
    method ExportToCSV(data: ExportData, context: ExportContext, configName: Option<string>,
                       now: Instant, host: Host, delivered: bool)
      modifies this
      ensures !isExporting && exportProgress == 0
      ensures progressLog == old(progressLog) + [25] + [75] + (if delivered then [100] else []) + [0]
      ensures downloads == old(downloads)
        + (if delivered
           then [CsvFile(CsvFilename(context, configName, data.dateRange, now, host), CsvContent(context, data, now, host))]
           else [])
    {
      isExporting := true;
      SetProgress(25);
      var content, filename := BuildCsv(data, context, configName, now, host);
      SetProgress(75);
      if delivered {
        downloads := downloads + [CsvFile(filename, content)];
        SetProgress(100);
      }
      isExporting := false;
      SetProgress(0);
    }

    /**
     * `exportToPDF`: 25, build the options, 50, lay out and save, 100; whatever happened,
     * `isExporting` ends false and the progress 0.
     */
    method ExportToPDF(data: ExportData, configName: Option<string>, metricsTable: TableOutcome,
                       campaignTable: TableOutcome, now: Instant, host: Host, saved: bool)
      modifies this
      ensures !isExporting && exportProgress == 0
      ensures progressLog == old(progressLog) + [25] + [50] + (if saved then [100] else []) + [0]
      ensures downloads == old(downloads)
        + (if saved
           then [PdfFile(
                   PdfFilename(HookPdfOptions(configName, data.dateRange, now, host).filename, data.dateRange, now, host),
                   Footed(BodyPages(PdfDataOf(data), HookPdfOptions(configName, data.dateRange, now, host),
                                    metricsTable, campaignTable, host), data.dateRange, now, host))]
           else [])
    {
      isExporting := true;
      SetProgress(25);
      var pdfData := PdfData(data.metrics, data.campaignData, data.dateRange);
      var name := if Truthy(configName) then configName.value else GeneratePDFFilename(data.dateRange, now, host);
      var options := PdfOptions(Some(name), Some(true), Some(false), Some(true), None);
      SetProgress(50);
      var doc, filename := ExportDashboardToPDF(pdfData, options, metricsTable, campaignTable, now, host);
      if saved {
        downloads := downloads + [PdfFile(filename, doc.pages)];
        SetProgress(100);
      }
      isExporting := false;
      SetProgress(0);
    }

    /** `exportCampaigns`: only the campaigns, in the "campaigns" context. */
    method ExportCampaigns(campaigns: seq<TableRow>, range: Option<FullRange>, now: Instant, host: Host, delivered: bool)
      modifies this
      ensures !isExporting && exportProgress == 0
      ensures progressLog == old(progressLog) + [25] + [75] + (if delivered then [100] else []) + [0]
      ensures downloads == old(downloads)
        + (if delivered
           then [CsvFile(GenerateCSVFilename(Campaigns, range, now, host), ExportCampaignsToCSV(campaigns, host))]
           else [])
    {
      ExportToCSV(CampaignsOnly(campaigns, range), Campaigns, None, now, host, delivered);
    }

    /** `exportMetrics`: only the metrics, in the "metrics" context. */
    method ExportMetrics(metrics: seq<MetricCard>, range: Option<FullRange>, now: Instant, host: Host, delivered: bool)
      modifies this
      ensures !isExporting && exportProgress == 0
      ensures progressLog == old(progressLog) + [25] + [75] + (if delivered then [100] else []) + [0]
      ensures downloads == old(downloads)
        + (if delivered
           then [CsvFile(GenerateCSVFilename(Metrics, range, now, host), ExportMetricsToCSV(metrics, host))]
           else [])
    {
      ExportToCSV(MetricsOnly(metrics, range), Metrics, None, now, host, delivered);
    }
  }
}
