# ADmyBRAND Insights dashboard core, in Dafny

This project models the non-visual core of the ADmyBRAND Insights analytics dashboard and proves
properties of it. The core has four parts:

- **Date-range resolution and filtering.** A preset tag (`7d`, `30d`, `90d`, `1y`) or a custom
  `{from, to}` becomes a day-aligned interval. A small state machine decides when the custom
  range is in force. The period picks the datasets, and each dataset is filtered to the records
  whose parsed date lies in the interval.
- **Metrics derivation.** Totals, a first-to-last growth rate and a half-over-half trend are
  mapped onto the four metric cards.
- **Export.** CSV tables, the multi-section dashboard CSV, the PDF report layout with its page
  break and footers, the file names, and the export hook's progress state.
- **Number formatting.** Percentages and K/M compact numbers.

Modules, one per source file (plus shared ones):

| module | file | models |
|---|---|---|
| `Wrappers`, `Text` | wrappers.dfy, text.dfy | `Option`; decimal digits, joining, lower-casing |
| `Types` | types.dfy | JavaScript values and plain objects (ordered entry lists), `TableRow`, `MetricCard`, `DateRange`, and the `Host` of foreign routines |
| `Calendar` | calendar.dfy | day arithmetic on millisecond instants; the Gregorian calendar used to read "MMM dd, yyyy" |
| `DateUtils` | date_utils.dfy | src/lib/date-utils.ts |
| `DateRangeHook` | date_range_state.dfy | src/hooks/use-date-range.ts (a class: the hook's state is updated in place) |
| `DashboardData` | dashboard_data.dfy | src/hooks/use-dashboard-data.ts |
| `MetricsCalculation` | metrics.dfy | src/hooks/use-metrics-calculation.ts and the card template |
| `Formatters` | formatters.dfy | src/lib/formatters.ts |
| `Rfc4180` | csv.dfy | `Papa.unparse`, written as a section 2 RFC 4180 writer with Papa's quoting rule, plus a reader and the round trip |
| `CsvExport` | csv_export.dfy | src/lib/export/csv-export.ts |
| `PdfExport` | pdf_export.dfy | src/lib/export/pdf-export.ts (the jsPDF document is a class of pages of marks) |
| `ExportHook` | export_hook.dfy | src/hooks/use-export.ts (a class holding `isExporting`, `exportProgress` and what was downloaded) |

Representation choices:

- **Instants** are integer milliseconds in UTC. `startOfDay`, `endOfDay` and `subDays` are floor
  division and whole-day subtraction on the day length of 86 400 000 ms.
- **Foreign routines** are fields of a `Host` value that every operation receives: date-fns
  `format` with each pattern used, `parseISO`, the engine's generic `new Date(string)`, `toFixed`,
  `String(number)` and `toLocaleString`.
- **Year-less labels.** A label such as "Jan 15" is read by the model itself. When its letters name
  a month and its day is 1–31, the result is that day of the current year, and a day past the end
  of the month rolls over into the next month. Any other label-shaped string is passed to the
  generic parser as `label + ", " + year`, exactly as the source builds it.
- **The clock** (`new Date()`) is a parameter: `now`, or `year` for the current year.
- **Layout and failures.** autoTable's layout result (`finalY` and how many further pages a table
  fills) is an input. So is whether a download or a save throws.

## Model

| member | source | states |
|---|---|---|
| Calendar.StartOfDay | src/lib/date-utils.ts:48-49 | the start of the day is at or before the instant, less than a day before it, and on the same day |
| Calendar.EndOfDay | src/lib/date-utils.ts:10 | the last millisecond of the instant's day |
| Calendar.SubDays | src/lib/date-utils.ts:15 | moves the day number back by k and keeps the time of day |
| Calendar.MonthNumber | src/lib/date-utils.ts:63-66 | 0, or the month 1..12 whose English abbreviation the letters spell in any case |
| Calendar.MonthIndexFromScans | src/lib/date-utils.ts:63-66 | the scan from position i finds a month exactly when the lower-cased letters are among the abbreviations from i on |
| Calendar.MonthNumberRecognisesExactlyTheMonths | src/lib/date-utils.ts:63-66 | a month is recognised iff the lower-cased letters are one of the twelve abbreviations |
| Calendar.DayNumberInYear | src/lib/date-utils.ts:64-66 | day 1..31 of any month of year y lies inside year y (roll-over included) |
| DateUtils.GetPresetDateRange | src/lib/date-utils.ts:8-39 | both bounds are set; the range ends at the end of today and starts at a day start; it spans 7, 30, 90 or 365 calendar days inclusive, and 30 for any other tag |
| DateUtils.UnknownPresetIsThirtyDays | src/lib/date-utils.ts:33-37 | an unrecognised tag gives exactly the 30d range |
| DateUtils.IsDateInRange | src/lib/date-utils.ts:44-56 | true when a bound is missing; otherwise true iff day(from) ≤ day(date) ≤ day(to), both ends inclusive |
| DateUtils.ParseDate | src/lib/date-utils.ts:61-76 | the classification, in order: a "MMM dd" label is read in the current year, else a string with "T" or "-" goes to ISO parsing, else to generic parsing |
| DateUtils.IsoStringsAreNotLabels | src/lib/date-utils.ts:63-72 | a string holding "-" is never taken for a "MMM dd" label |
| DateUtils.LabelReadInCurrentYear | src/lib/date-utils.ts:62-67 | a label naming a month and a day 1..31 always parses, to a day start inside the current year |
| DateUtils.Filter | src/lib/date-utils.ts:88-97 | `filter` keeps exactly the elements the predicate accepts, as an order-preserving subsequence, each with its full multiplicity, and none it rejects |
| DateUtils.FilterIdempotent | src/lib/date-utils.ts:88-97 | filtering twice equals filtering once |
| DateUtils.FilterTimeSeriesData | src/lib/date-utils.ts:81-98 | the input unchanged without both bounds; otherwise the records whose date parses and lies in range, each as many times as in the input and in input order; unparsable dates are dropped |
| DateUtils.FilterTimeSeriesIdempotent | src/lib/date-utils.ts:81-98 | filtering a series twice by one range equals filtering it once |
| DateUtils.FilterTableData | src/lib/date-utils.ts:103-121 | as for series, on the row's `dateField`, which defaults to `dateCreated`: the input unchanged without both bounds, else exactly the in-range rows with their multiplicities, in order |
| DateUtils.FilterTableIdempotent | src/lib/date-utils.ts:103-121 | filtering a table twice by one range equals filtering it once |
| DateUtils.CalculateMetricsFromData | src/lib/date-utils.ts:126-165 | empty input gives four zeros; revenue and users sum each record's own numeric field, else its numeric `value`; conversions sum only `conversions`; growth is 0 when the first value is ≤ 0, otherwise the last value is the first grown by the rate, positive or negative exactly when the last is above or below the first |
| DateUtils.FieldIgnoresValueWhenPresent | src/lib/date-utils.ts:137-151 | where every record has a numeric `revenue` (or `users`), `value` plays no part in that total |
| DateUtils.FieldFallsBackToValue | src/lib/date-utils.ts:137-151 | where no record has a numeric `revenue` (or `users`), that total is the sum of `value` |
| DateUtils.FormatDateRange | src/lib/date-utils.ts:170-179 | a prompt without a start; the start alone without an end; otherwise "start - end" |
| DateRangeHook.DateRangeState.constructor | src/hooks/use-date-range.ts:14-16 | starts at preset "30d", not custom, with no custom range |
| DateRangeHook.DateRangeState.CurrentDateRange | src/hooks/use-date-range.ts:19-27 | the custom range exactly when the flag is on and both bounds are present, else the preset's range; never half-open |
| DateRangeHook.DateRangeState.HandlePresetChange | src/hooks/use-date-range.ts:30-34 | sets the preset and clears the flag and the custom range; afterwards the current range is that preset's, at every `now` |
| DateRangeHook.DateRangeState.HandleCustomDateChange | src/hooks/use-date-range.ts:37-42 | always stores the range; turns the flag on only for a complete range and never off; gives the resulting current range in both cases |
| DateRangeHook.HalfPickFallsBackToPreset | src/hooks/use-date-range.ts:19-42 | a pick with only a start, after a complete one, leaves the flag on but the current range back at the preset's |
| DashboardData.EffectivePeriod | src/hooks/use-dashboard-data.ts:28 | "custom" iff the custom flag is on, else the preset |
| DashboardData.LastN | src/hooks/use-dashboard-data.ts:41-42 | `slice(-n)`: the last min(n, length) elements, in order, for n ≥ 1; the whole sequence for n = 0, as `slice(-0)` is `slice(0)` |
| DashboardData.GetDatasetForPeriod | src/hooks/use-dashboard-data.ts:27-62 | 1y and custom take the yearly data; 90d takes the last 90 yearly revenue and user points with the full yearly campaigns and performance; every other tag takes the 30-day data |
| DashboardData.NinetyDaysTakesTheTail | src/hooks/use-dashboard-data.ts:39-45 | 90d reads at most 90 points, the most recent ones |
| DashboardData.UseDashboardData | src/hooks/use-dashboard-data.ts:65-83 | without a complete range every series and the campaigns are the period's dataset unchanged; with one, each holds exactly the dataset's points in range (campaigns by `dateCreated`), with their multiplicities and in order; conversions are returned unfiltered |
| MetricsCalculation.FieldValues | src/hooks/use-metrics-calculation.ts:15-18 | one value per record: the numeric field, or 0 when missing |
| MetricsCalculation.ConversionValues | src/hooks/use-metrics-calculation.ts:21 | each campaign's conversions |
| MetricsCalculation.MeanConstant | src/hooks/use-metrics-calculation.ts:37-38 | the mean of a constant series is that constant |
| MetricsCalculation.PercentChange | src/hooks/use-metrics-calculation.ts:26 | 0 for a base ≤ 0; otherwise `now = base·(1 + r/100)`, and r is positive or negative exactly when `now` is above or below the base |
| MetricsCalculation.GrowthRate | src/hooks/use-metrics-calculation.ts:24-26 | 0 for an empty series or a first value ≤ 0; otherwise the last value is the first grown by the rate |
| MetricsCalculation.Halves | src/hooks/use-metrics-calculation.ts:33-35 | the split at floor(n/2): both halves are non-empty and their concatenation is the input |
| MetricsCalculation.HalvesCoverSeries | src/hooks/use-metrics-calculation.ts:33-38 | the sums of the two halves add up to the sum of the series |
| MetricsCalculation.TrendChange | src/hooks/use-metrics-calculation.ts:29-41 | 0 below two points or when the first half's mean is ≤ 0; otherwise the second-half mean is the first grown by the trend |
| MetricsCalculation.FlatSeriesHasNoTrend | src/hooks/use-metrics-calculation.ts:29-41 | a constant series has trend 0 |
| MetricsCalculation.Round2 | src/hooks/use-metrics-calculation.ts:59 | `Number(x.toFixed(2))` for x ≥ 0: non-negative, a whole number of hundredths, and within half a hundredth of x |
| MetricsCalculation.Summarize | src/hooks/use-metrics-calculation.ts:14-46 | the totals are the sums of revenue, users and campaign conversions; growth is `GrowthRate` of the revenue series; each change is the `TrendChange` of its series |
| MetricsCalculation.UpdateCard | src/hooks/use-metrics-calculation.ts:48-90 | per id: "$" + total revenue / 1000 to one place + "K", users the same without "$", conversions localised, growth to two places + "%", each with its change rounded and its sign in `changeType`; other ids unchanged |
| MetricsCalculation.ChangeTypeOf | src/hooks/use-metrics-calculation.ts:55 | "increase" iff the signed change is ≥ 0 |
| MetricsCalculation.UseMetricsCalculation | src/hooks/use-metrics-calculation.ts:48-91 | one card per template card, in order, keeping id, title, icon and description; `change` is the rounded absolute signed change (≥ 0), with its sign kept in `changeType`; unknown ids are returned unchanged |
| MetricsCalculation.CardsShowTheirData | src/hooks/use-metrics-calculation.ts:13-91 | each card with a known id shows the value computed from its own data series and the trend (or growth) of that series |
| MetricsCalculation.TemplateCardOrder | src/lib/mock-data/metrics.ts:7-44 | on the real template the cards are revenue, users, conversions, growth, each with change ≥ 0 |
| MetricsCalculation.EmptyDataGivesZeroCards | src/hooks/use-metrics-calculation.ts:13-91 | with no data every card shows zero and "increase" |
| MetricsCalculation.FlatWeekOfRevenue | src/hooks/use-metrics-calculation.ts:53-61 | seven days of revenue 1000 give "$" + `toFixed(7, 1)` + "K" (the opaque `toFixed` routine; "$7.0K" in JavaScript), change 0, "increase" |
| Formatters.FormatPercentage | src/lib/formatters.ts:14-16 | the value to `decimals` places (default 2), then "%" |
| Formatters.GrowthCardIsAPercentage | src/hooks/use-metrics-calculation.ts:80-87 | the growth card's value is `formatPercentage` of the growth rate |
| Formatters.CompactParts | src/lib/formatters.ts:24-32 | "M" iff ≥ 1 000 000, "K" iff 1000 ≤ v < 1 000 000, no suffix below 1000; mantissa × scale gives back the value |
| Formatters.FormatCompactNumber | src/lib/formatters.ts:24-32 | the plain number below 1000, otherwise the mantissa to one place followed by "K" or "M" |
| Rfc4180.ParseWriteTable | src/lib/export/csv-export.ts:68 | reading back what the writer produced gives the records it was given |
| CsvExport.RowUnder | src/lib/export/csv-export.ts:142 | an object with no keys is written as an empty line without delimiters; any other object gives one cell per header key |
| CsvExport.UnparseUniform | src/lib/export/csv-export.ts:30 | objects sharing one distinct key list unparse to that header followed by each object's values |
| CsvExport.ExportMetricsToCSV | src/lib/export/csv-export.ts:21-31 | "" for no metrics; otherwise the header Metric, Value, Change (%), Change Type, Description and one row per metric, with a missing description as "" |
| CsvExport.MetricsCsvRoundTrip | src/lib/export/csv-export.ts:21-31 | parsing the metrics CSV gives the header and one row per metric |
| CsvExport.CampaignCells | src/lib/export/csv-export.ts:54-66 | one row has exactly 11 cells, as many as the header |
| CsvExport.ExportCampaignsToCSV | src/lib/export/csv-export.ts:53-69 | "" for no campaigns; otherwise the 11-column header Campaign … Date Created and one row per campaign |
| CsvExport.CampaignCsvRoundTrip | src/lib/export/csv-export.ts:53-69 | parsing the campaign CSV gives the header followed by exactly the campaigns' rows |
| CsvExport.ExportChartDataToCSV | src/lib/export/csv-export.ts:36-48 | "" for no data; otherwise the header is the keys of the first item's row, beginning Date, Value, Chart (for items whose keys are not array indices), followed by one row of cells per item under those keys |
| CsvExport.ChartCsvRoundTrip | src/lib/export/csv-export.ts:36-48 | parsing the chart CSV gives one more record than items, a header beginning Date, Value, Chart (for items whose keys are not array indices), and rows as wide as the header |
| CsvExport.PutShape | src/lib/export/csv-export.ts:44 | writing a key rewrites an entry in place, keeping every key, or appends the new entry (JavaScript's order for keys that are not array indices) |
| CsvExport.PutFresh | src/lib/export/csv-export.ts:44 | writing a key the object lacks appends it (for a key that is not an array index) |
| CsvExport.SpreadKeepsBaseKeys | src/lib/export/csv-export.ts:40-45 | a spread keeps the literal's keys first, in order (for spread keys that are not array indices) |
| CsvExport.SpreadFresh | src/lib/export/csv-export.ts:44 | spreading an object whose keys are new appends its entries (for keys that are not array indices) |
| CsvExport.ChartRowLayout | src/lib/export/csv-export.ts:40-45 | a chart row begins with Date, Value, Chart; when the item has no key of those names, its own fields follow (for items whose keys are not array indices) |
| CsvExport.AllChartRows | src/lib/export/csv-export.ts:80-89 | the row count is the sum of the series lengths |
| CsvExport.AllChartRowsAt | src/lib/export/csv-export.ts:80-89 | point j of chart i is the row after all points of the earlier charts: chart by chart, in input order |
| CsvExport.ExportMultipleChartsToCSV | src/lib/export/csv-export.ts:74-92 | the nested loops collect exactly `AllChartRows`, which is then unparsed |
| CsvExport.DashboardSectionOrder | src/lib/export/csv-export.ts:106-147 | the layout is metadata, KEY METRICS, REVENUE DATA, USER ANALYTICS, CAMPAIGN PERFORMANCE, each table followed by ""; CONVERSIONS BY CHANNEL and its table exactly when there is conversion data (16 sections, else 13) |
| CsvExport.PushedSections | src/lib/export/csv-export.ts:106-137 | the thirteen unconditional pushes build the layout without conversions |
| CsvExport.PushedConversions | src/lib/export/csv-export.ts:139-145 | the three conditional pushes complete the layout with conversions |
| CsvExport.MetadataReadsBack | src/lib/export/csv-export.ts:109-117 | the metadata block parses back to its four records; Date Range is "All Time" without a range |
| CsvExport.ExportDashboardToCSV | src/lib/export/csv-export.ts:97-148 | the pushed sections are `DashboardSections`, joined with "\n" |
| CsvExport.RangeSegment | src/lib/export/csv-export.ts:177-179 | empty exactly when there is no range |
| CsvExport.GenerateCSVFilename | src/lib/export/csv-export.ts:172-182 | "admybrand-insights-" + type + the range segment + "_" + timestamp + ".csv", with no range segment without a range |
| PdfExport.PdfDocument.constructor | src/lib/export/pdf-export.ts:23 | one empty page, in 16-point black |
| PdfExport.CreatePdfDocument | src/lib/export/pdf-export.ts:22-35 | a fresh one-page document carrying the two brand lines in their sizes and colours |
| PdfExport.MetricsPdfRow | src/lib/export/pdf-export.ts:49-54 | four cells, one per header |
| PdfExport.MetricsPdfRowMatchesCsv | src/lib/export/pdf-export.ts:49-54 | title, value and type are as in the CSV; the change has "+" exactly when positive, and "%" after it |
| PdfExport.CampaignPdfRow | src/lib/export/pdf-export.ts:80-111 | ten cells, as many as headers and column widths |
| PdfExport.CampaignPdfRowMatchesCsv | src/lib/export/pdf-export.ts:80-91 | the CSV row without Date Created: name, channel, status, conversions and ROAS the same text; impressions and clicks localised instead of `String`; "%" added to CTR and conversion rate; revenue localised after "$" |
| PdfExport.AddMetricsSection | src/lib/export/pdf-export.ts:40-66 | title and metrics table drawn at the cursor on the last page; the next cursor is the table's end + 20 |
| PdfExport.AddCampaignTable | src/lib/export/pdf-export.ts:71-115 | title and campaign table, with fixed widths, drawn at the cursor; the next cursor is the table's end + 20 |
| PdfExport.FirstPageLayout | src/lib/export/pdf-export.ts:156-171 | page 1 starts with the brand lines, then the period line exactly with a range; the metrics title is at y 50, or at 60 with a range |
| PdfExport.NoMetricsNoPageBreak | src/lib/export/pdf-export.ts:169-181 | without a metrics section the campaign table is never moved to a new page |
| PdfExport.PageCount | src/lib/export/pdf-export.ts:169-183 | pages = 1 + the tables' extra pages + 1 exactly when the cursor is > 200 before an included campaign table, which then starts at y 20 on the new page |
| PdfExport.TableHeadsMember | src/lib/export/pdf-export.ts:169-183 | a table head is listed exactly when some page draws a table under it |
| PdfExport.SectionTables | src/lib/export/pdf-export.ts:168-183 | the report's tables, in order: the metrics table exactly when metrics are included, then the campaign table exactly when campaigns are |
| PdfExport.SectionDrawnIffIncluded | src/lib/export/pdf-export.ts:168-183 | some page draws the metrics table iff `includeMetrics !== false` and there are metrics; likewise the campaign table |
| PdfExport.CursorAfterMetrics | src/lib/export/pdf-export.ts:157-171 | without metrics the first page holds only the header (and period line) and the cursor is 50, or 60 with a range; with metrics the cursor is the table's end + 20 |
| PdfExport.CampaignsStayOnPage | src/lib/export/pdf-export.ts:176-183 | an included campaign section that is not moved is drawn at the cursor on the page the metrics ended on, and without metrics right below the header on page 1 |
| PdfExport.AddFooter | src/lib/export/pdf-export.ts:122-143 | the loop over pages 1..N leaves the pages as `Footed` |
| PdfExport.DrawFooter | src/lib/export/pdf-export.ts:126-141 | page i of n gains its footer lines (timestamp, the data range when there is one, "Page i of n") and no other page changes |
| PdfExport.FooterOnEveryPage | src/lib/export/pdf-export.ts:122-143 | every page keeps its content, gains three footer lines with a range and two without, and ends with "Page i of N" |
| PdfExport.PageNumbersDistinct | src/lib/export/pdf-export.ts:141 | different pages carry different page labels |
| PdfExport.PdfFilename | src/lib/export/pdf-export.ts:189 | a non-empty `filename` option wins, else the generated name |
| PdfExport.GeneratePDFFilename | src/lib/export/pdf-export.ts:198-205 | "admybrand-insights-dashboard", then "_from-to-to" exactly when there is a range, then "_" + timestamp + ".pdf" |
| PdfExport.PdfNameMatchesCsvName | src/lib/export/pdf-export.ts:198-205 | the PDF name is the dashboard CSV name with ".pdf" for ".csv" |
| PdfExport.ExportDashboardToPDF | src/lib/export/pdf-export.ts:148-191 | the document is `BodyPages` with a footer on every page, saved under `PdfFilename`; `SectionTables` and `CampaignsStayOnPage` say which tables those pages hold and where |
| ExportHook.NamingContext | src/hooks/use-export.ts:58-74 | "campaigns" and "metrics" name themselves; "dashboard" and every other context are named "dashboard" |
| ExportHook.CsvFilename | src/hooks/use-export.ts:61-72 | a truthy configured name wins, else the name generated for the naming context |
| ExportHook.ContextReadsOnlyItsTable | src/hooks/use-export.ts:58-67 | "campaigns" serialises only the campaigns, "metrics" only the metrics |
| ExportHook.ChartsExportsTheDashboard | src/hooks/use-export.ts:69-73 | "charts" yields the dashboard document under a "dashboard" name |
| ExportHook.HookPdfSectionsAndName | src/hooks/use-export.ts:105-116 | from the hook each PDF section is included, and its table drawn on some page, iff it has rows; the file is named by the config or else generated |
| ExportHook.BuildCsv | src/hooks/use-export.ts:56-74 | the document and file name chosen for the context: `CsvContent` and `CsvFilename` |
| ExportHook.Exporter.constructor | src/hooks/use-export.ts:40-41 | not exporting, progress 0 |
| ExportHook.Exporter.ExportToCSV | src/hooks/use-export.ts:46-92 | progress 25, 75, 100, 0 on success or 25, 75, 0 on failure; one download of the context's document on success; ends not exporting with progress 0 |
| ExportHook.Exporter.ExportToPDF | src/hooks/use-export.ts:97-133 | progress 25, 50, 100, 0 or 25, 50, 0; the saved PDF holds only metrics, campaigns and range; ends not exporting with progress 0 |
| ExportHook.Exporter.ExportCampaigns | src/hooks/use-export.ts:140-155 | downloads exactly the campaign CSV under the "campaigns" name |
| ExportHook.Exporter.ExportMetrics | src/hooks/use-export.ts:160-175 | downloads exactly the metrics CSV under the "metrics" name |

## Left out

- Time zones and daylight saving: instants are UTC milliseconds, so "start of day" is the UTC day.
- date-fns `format`, `parseISO` and the engine's generic date parser are opaque `Host` routines. So are `toFixed`, `String(number)` and `toLocaleString`. Only the year-less "MMM dd" labels are read by the model.
- JavaScript numbers are exact reals. NaN, infinities and floating-point rounding are not modelled.
- Round2: the model rounds exact reals half-up; `toFixed(2)` on doubles can round a halfway case the other way.
- Property order of objects: an object keeps every key in insertion order, whereas JavaScript's `Object.keys` lists keys that are array indices (such as "0" or "2024") first, in numeric order. Papa takes the CSV header from `Object.keys`, so for a chart item with such a key the source's header starts with that key, not with Date.
- ChartCsvRoundTrip: its header beginning Date, Value, Chart holds only for items whose keys are not array indices (see the property-order line above).
- ExportChartDataToCSV: the header beginning Date, Value, Chart holds only for items whose keys are not array indices.
- ChartRowLayout: a chart row begins with Date, Value, Chart only for items whose keys are not array indices.
- PutShape: a new array-index key is appended here, whereas JavaScript places it before the other keys.
- PutFresh: as for PutShape, the appended position is JavaScript's only for keys that are not array indices.
- SpreadKeepsBaseKeys: in JavaScript, array-index keys of the spread object come before the literal's keys; not modelled.
- SpreadFresh: the appended order is JavaScript's only for keys that are not array indices.
- Object values that are strings where numbers are expected count as absent. In the source, `sum + "5"` would concatenate; this is outside the model.
- MetricCard `value`, typed `string | number`, is always a string here.
- Exporters take a complete range (`FullRange`). `types.ts` declares both bounds required, so the half-open ranges that the filters guard against never reach them.
- `ExportData.performanceMetrics` is not modelled: no exporter reads it.
- `PDFExportOptions.dateRange` and `includeCharts` are carried but never read, as in the source.
- jsPDF and autoTable drawing: a document is a list of pages of text and table marks. Table layout (`finalY`, extra pages) is an input. A table spilling onto further pages is recorded on its first page only.
- I/O is not modelled: Blob creation, the DOM anchor click, `doc.save`, toasts and console logging. A download or save that throws is an input flag. A successful one is recorded in `Exporter.downloads`.
- React memoisation, asynchronous scheduling and concurrent export calls are not modelled. Each hook method runs to completion.
- The clock: the footer timestamp uses one `now` for all pages, whereas the source reads the clock once per page.
- UI components, chart rendering and the mock-data generators are not modelled. The datasets are opaque inputs. Only the four-card template is a constant.
- `formatCurrency`, `formatNumber` and `formatDate` in formatters.ts are thin wrappers over `Intl` and are not modelled.
