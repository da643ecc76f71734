/** Number display helpers (src/lib/formatters.ts): percentages and K/M compact numbers. */
module Formatters {
  import opened Types
  import MetricsCalculation

  /** `formatPercentage(value, decimals = 2)`: the value to `decimals` places followed by "%". */
  function FormatPercentage(value: real, host: Host, decimals: nat := 2): (r: string)
    ensures |r| > 0 && r[|r| - 1] == '%'
    ensures r[..|r| - 1] == host.toFixed(value, decimals)
  {
    host.toFixed(value, decimals) + "%"
  }

  /** The growth card shows its rate as `formatPercentage` would, with the default two places. */
  lemma GrowthCardIsAPercentage(revenueData: seq<Obj>, userData: seq<Obj>, campaignData: seq<TableRow>, host: Host)
    ensures MetricsCalculation.UseMetricsCalculation(revenueData, userData, campaignData, host)[3].value
         == FormatPercentage(MetricsCalculation.Summarize(revenueData, userData, campaignData).growthRate, host)
  {
    MetricsCalculation.TemplateCardOrder(revenueData, userData, campaignData, host);
  }

  /** A compact number split into the mantissa that is printed and its suffix. */
  datatype Compact = Compact(mantissa: real, suffix: string)

  function Scale(suffix: string): real {
    if suffix == "M" then 1000000.0 else if suffix == "K" then 1000.0 else 1.0
  }

  /**
   * The scale `formatCompactNumber` picks: "M" from one million up, "K" from one thousand up,
   * no suffix below. The mantissa times the scale gives back the value, and a suffixed mantissa
   * is at least 1 (and below 1000 for "K").
   */
  function CompactParts(value: real): (c: Compact)
    ensures c.mantissa * Scale(c.suffix) == value
    ensures c.suffix == "M" <==> value >= 1000000.0
    ensures c.suffix == "K" <==> 1000.0 <= value < 1000000.0
    ensures c.suffix == "" <==> value < 1000.0
    ensures c.suffix != "" ==> c.mantissa >= 1.0
    ensures c.suffix == "K" ==> c.mantissa < 1000.0
  {
    if value >= 1000000.0 then Compact(value / 1000000.0, "M")
    else if value >= 1000.0 then Compact(value / 1000.0, "K")
    else Compact(value, "")
  }

  /** `formatCompactNumber`: a suffixed value to one place, or the plain number below 1000. */
  function FormatCompactNumber(value: real, host: Host): (r: string)
    ensures value < 1000.0 ==> r == host.numberToString(value)
    ensures value >= 1000.0 ==>
      var c := CompactParts(value);
      r == host.toFixed(c.mantissa, 1) + c.suffix && |r| > 0 && r[|r| - 1] in {'K', 'M'}
  {
    var c := CompactParts(value);
    if c.suffix == "" then host.numberToString(value) else host.toFixed(c.mantissa, 1) + c.suffix
  }
}
