/**
 * Dataset selection and filtering (src/hooks/use-dashboard-data.ts): the period picks which mock
 * datasets to use, and each is filtered by the current range on its own.
 */
module DashboardData {
  import opened Types
  import opened DateUtils

  datatype PerformanceData = PerformanceData(
    ctr: seq<TimeSeriesData>, conversionRate: seq<TimeSeriesData>, roas: seq<TimeSeriesData>)

  /** The datasets one period works on. */
  datatype Datasets = Datasets(
    revenueData: seq<TimeSeriesData>, userData: seq<TimeSeriesData>,
    campaignData: seq<TableRow>, performanceData: PerformanceData)

  /** The mock data source the hook reads (its contents are opaque inputs here). */
  datatype Sources = Sources(
    revenueChartData: seq<TimeSeriesData>, userChartData: seq<TimeSeriesData>,
    campaignTableData: seq<TableRow>, performanceMetrics: PerformanceData,
    yearlyRevenueData: seq<TimeSeriesData>, yearlyUserData: seq<TimeSeriesData>,
    yearlyCampaignData: seq<TableRow>, yearlyPerformanceMetrics: PerformanceData,
    conversionData: seq<Obj>)

  /** The hook's result. */
  datatype DashboardView = DashboardView(
    filteredRevenueData: seq<TimeSeriesData>, filteredUserData: seq<TimeSeriesData>,
    filteredCampaignData: seq<TableRow>, filteredConversionData: seq<Obj>,
    filteredPerformanceMetrics: PerformanceData)

  /** The period the datasets are chosen by: "custom" while the custom flag is on, else the preset. */
  function EffectivePeriod(selectedPreset: string, isCustomRange: bool): (p: string)
    ensures isCustomRange ==> p == "custom"
    ensures !isCustomRange ==> p == selectedPreset
  {
    if isCustomRange then "custom" else selectedPreset
  }

  /**
   * `s.slice(-n)`: the last `n` elements, or all of them when there are fewer; `-0` is `0`, so
   * `slice(-0)` is the whole array.
   */
  function LastN<T>(s: seq<T>, n: nat): (r: seq<T>)
    ensures n == 0 ==> r == s
    ensures n > 0 ==> |r| == if |s| < n then |s| else n
    ensures forall i :: 0 <= i < |r| ==> r[i] == s[|s| - |r| + i]
  {
    if n == 0 || |s| <= n then s else s[|s| - n..]
  }

  function Monthly(src: Sources): Datasets {
    Datasets(src.revenueChartData, src.userChartData, src.campaignTableData, src.performanceMetrics)
  }

  function Yearly(src: Sources): Datasets {
    Datasets(src.yearlyRevenueData, src.yearlyUserData, src.yearlyCampaignData, src.yearlyPerformanceMetrics)
  }

  /** `getDatasetForPeriod`. */
  function GetDatasetForPeriod(selectedPreset: string, isCustomRange: bool, src: Sources): (d: Datasets)
    ensures var p := EffectivePeriod(selectedPreset, isCustomRange);
      (p == "1y" || p == "custom" ==> d == Yearly(src))
      && (p == "90d" ==>
            d == Datasets(LastN(src.yearlyRevenueData, 90), LastN(src.yearlyUserData, 90),
                          src.yearlyCampaignData, src.yearlyPerformanceMetrics))
      && (p !in {"90d", "1y", "custom"} ==> d == Monthly(src))
  {
    var period := EffectivePeriod(selectedPreset, isCustomRange);
    if period == "7d" || period == "30d" then Monthly(src)
    else if period == "90d" then
      Datasets(LastN(src.yearlyRevenueData, 90), LastN(src.yearlyUserData, 90),
               src.yearlyCampaignData, src.yearlyPerformanceMetrics)
    else if period == "1y" || period == "custom" then Yearly(src)
    else Monthly(src)
  }

  /** The 90-day period reads at most 90 revenue and user points, the most recent ones. */
  lemma NinetyDaysTakesTheTail(selectedPreset: string, src: Sources)
    requires selectedPreset == "90d"
    ensures var d := GetDatasetForPeriod(selectedPreset, false, src);
      |d.revenueData| <= 90 && |d.userData| <= 90
      && d.revenueData == src.yearlyRevenueData[|src.yearlyRevenueData| - |d.revenueData|..]
      && d.userData == src.yearlyUserData[|src.yearlyUserData| - |d.userData|..]
      && d.campaignData == src.yearlyCampaignData
  {
  }

  /**
   * `out` is `input` narrowed to `range`: untouched while the range lacks a bound, otherwise
   * exactly the in-range points, each as often as in `input`, in their original order.
   */
  ghost predicate SeriesNarrowed(out: seq<TimeSeriesData>, input: seq<TimeSeriesData>, range: DateRange, year: int, host: Host) {
    && (!range.Complete() ==> out == input)
    && (range.Complete() ==> forall p :: p in out <==> p in input && PointInRange(p, range, year, host))
    && (range.Complete() ==>
          forall p :: multiset(out)[p] == if PointInRange(p, range, year, host) then multiset(input)[p] else 0)
    && IsSubsequence(out, input)
  }

  /** The same for table rows, dated by their `dateCreated` field. */
  ghost predicate RowsNarrowed(out: seq<TableRow>, input: seq<TableRow>, range: DateRange, year: int, host: Host) {
    && (!range.Complete() ==> out == input)
    && (range.Complete() ==> forall row :: row in out <==> row in input && RowInRange(row, "dateCreated", range, year, host))
    && (range.Complete() ==>
          forall row :: multiset(out)[row] ==
            if RowInRange(row, "dateCreated", range, year, host) then multiset(input)[row] else 0)
    && IsSubsequence(out, input)
  }

  /**
   * `useDashboardData`: every dataset of the selected period narrowed to the current range
   * (or left whole while the range lacks a bound), conversions left as they are.
   */
  function UseDashboardData(selectedPreset: string, isCustomRange: bool, currentDateRange: DateRange,
                            src: Sources, year: int, host: Host): (v: DashboardView)
    ensures var d := GetDatasetForPeriod(selectedPreset, isCustomRange, src);
      && SeriesNarrowed(v.filteredRevenueData, d.revenueData, currentDateRange, year, host)
      && SeriesNarrowed(v.filteredUserData, d.userData, currentDateRange, year, host)
      && RowsNarrowed(v.filteredCampaignData, d.campaignData, currentDateRange, year, host)
      && SeriesNarrowed(v.filteredPerformanceMetrics.ctr, d.performanceData.ctr, currentDateRange, year, host)
      && SeriesNarrowed(v.filteredPerformanceMetrics.conversionRate, d.performanceData.conversionRate,
                        currentDateRange, year, host)
      && SeriesNarrowed(v.filteredPerformanceMetrics.roas, d.performanceData.roas, currentDateRange, year, host)
    ensures v.filteredConversionData == src.conversionData
  {
    var d := GetDatasetForPeriod(selectedPreset, isCustomRange, src);
    DashboardView(
      FilterTimeSeriesData(d.revenueData, currentDateRange, year, host),
      FilterTimeSeriesData(d.userData, currentDateRange, year, host),
      FilterTableData(d.campaignData, currentDateRange, year, host, "dateCreated"),
      src.conversionData,
      PerformanceData(
        FilterTimeSeriesData(d.performanceData.ctr, currentDateRange, year, host),
        FilterTimeSeriesData(d.performanceData.conversionRate, currentDateRange, year, host),
        FilterTimeSeriesData(d.performanceData.roas, currentDateRange, year, host)))
  }
}
