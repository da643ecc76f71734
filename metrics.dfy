/**
 * KPI derivation (src/hooks/use-metrics-calculation.ts): totals, the first-to-last growth rate,
 * the half-over-half trend and their mapping onto the four metric cards
 * (template: src/lib/mock-data/metrics.ts).
 */
module MetricsCalculation {
  import opened Wrappers
  import opened Types

  // ---------------------------------------------------------------------------------------------
  // Series arithmetic

  /** `item[key] || 0`: a numeric field, with a missing (or non-numeric) one counted as 0. */
  function FieldOrZero(o: Obj, key: string): real {
    match Get(o, key)
    case Num(n) => n
    case _ => 0.0
  }

  /** The values of one field along a series. */
  function FieldValues(data: seq<Obj>, key: string): (xs: seq<real>)
    ensures |xs| == |data|
    ensures forall i :: 0 <= i < |data| ==> xs[i] == FieldOrZero(data[i], key)
  {
    seq(|data|, i requires 0 <= i < |data| => FieldOrZero(data[i], key))
  }

  /** The `conversions` of each campaign row. */
  function ConversionValues(rows: seq<TableRow>): (xs: seq<real>)
    ensures |xs| == |rows|
    ensures forall i :: 0 <= i < |rows| ==> xs[i] == rows[i].conversions
  {
    seq(|rows|, i requires 0 <= i < |rows| => rows[i].conversions)
  }

  /** `reduce((sum, x) => sum + x, 0)`. */
  function Sum(xs: seq<real>): real
    decreases |xs|
  {
    if xs == [] then 0.0 else xs[0] + Sum(xs[1..])
  }

  /** A sum over a concatenation is the sum of the two sums. */
  lemma {:induction false} SumAppend(a: seq<real>, b: seq<real>)
    ensures Sum(a + b) == Sum(a) + Sum(b)
    decreases |a|
  {
    if a != [] {
      assert (a + b)[1..] == a[1..] + b;
      SumAppend(a[1..], b);
    } else {
      assert a + b == b;
    }
  }

  /** A series of `n` equal values sums to `n` times that value. */
  lemma {:induction false} SumConstant(xs: seq<real>, c: real)
    requires forall i :: 0 <= i < |xs| ==> xs[i] == c
    ensures Sum(xs) == |xs| as real * c
    decreases |xs|
  {
    if xs != [] {
      SumConstant(xs[1..], c);
    }
  }

  function Mean(xs: seq<real>): real
    requires |xs| > 0
  {
    Sum(xs) / |xs| as real
  }

  /** The mean of a constant series is that constant. */
  lemma MeanConstant(xs: seq<real>, c: real)
    requires |xs| > 0
    requires forall i :: 0 <= i < |xs| ==> xs[i] == c
    ensures Mean(xs) == c
  {
    SumConstant(xs, c);
  }

  // ---------------------------------------------------------------------------------------------
  // Growth and trend

  /** The relative change from `base` to `now`, in percent; 0 when `base` is not positive. */
  function PercentChange(base: real, now: real): (r: real)
    ensures base <= 0.0 ==> r == 0.0
    ensures base > 0.0 ==> now == base * (1.0 + r / 100.0)
    ensures base > 0.0 ==> (r > 0.0 <==> now > base) && (r < 0.0 <==> now < base)
  {
    if base > 0.0 then (now - base) / base * 100.0 else 0.0
  }

  /**
   * The growth rate of a revenue series: first against last value, with an empty series or a
   * first value <= 0 giving 0.
   */
  function GrowthRate(revenue: seq<real>): (g: real)
    ensures revenue == [] ==> g == 0.0
    ensures revenue != [] && revenue[0] <= 0.0 ==> g == 0.0
    ensures revenue != [] && revenue[0] > 0.0 ==>
      revenue[|revenue| - 1] == revenue[0] * (1.0 + g / 100.0)
  {
    var first := if revenue == [] then 0.0 else revenue[0];
    var last := if revenue == [] then 0.0 else revenue[|revenue| - 1];
    PercentChange(first, last)
  }

  /** The split `calculateTrendChange` makes: the first floor(n/2) points and the rest. */
  function Halves(xs: seq<real>): (h: (seq<real>, seq<real>))
    requires |xs| >= 2
    ensures h.0 + h.1 == xs
    ensures |h.0| == |xs| / 2
    ensures 0 < |h.0| <= |h.1| <= |h.0| + 1
  {
    (xs[..|xs| / 2], xs[|xs| / 2..])
  }

  /** The two halves together hold every point once: their sums add up to the series' sum. */
  lemma HalvesCoverSeries(xs: seq<real>)
    requires |xs| >= 2
    ensures Sum(Halves(xs).0) + Sum(Halves(xs).1) == Sum(xs)
  {
    SumAppend(Halves(xs).0, Halves(xs).1);
  }

  /**
   * `calculateTrendChange`: 0 for fewer than two points; otherwise the percent change from the
   * first half's mean to the second half's, or 0 when the first half's mean is not positive.
   */
  function TrendChange(xs: seq<real>): (t: real)
    ensures |xs| < 2 ==> t == 0.0
    ensures |xs| >= 2 ==>
      var (a, b) := Halves(xs);
      (Mean(a) <= 0.0 ==> t == 0.0)
      && (Mean(a) > 0.0 ==> Mean(b) == Mean(a) * (1.0 + t / 100.0))
  {
    if |xs| < 2 then 0.0
    else
      var (firstHalf, secondHalf) := Halves(xs);
      PercentChange(Mean(firstHalf), Mean(secondHalf))
  }

  /** A flat series has no trend. */
  lemma {:induction false} FlatSeriesHasNoTrend(xs: seq<real>, c: real)
    requires forall i :: 0 <= i < |xs| ==> xs[i] == c
    ensures TrendChange(xs) == 0.0
  {
    if |xs| >= 2 {
      var (a, b) := Halves(xs);
      MeanConstant(a, c);
      MeanConstant(b, c);
    }
  }

  // ---------------------------------------------------------------------------------------------
  // Cards

  /** The four metric cards' template, in display order. */
  const MetricsCards: seq<MetricCard> := [
    MetricCard("revenue", "Total Revenue", "$847,392", 12.5, Increase, "DollarSign",
               Some("Total revenue this month")),
    MetricCard("users", "Active Users", "24,891", 8.2, Increase, "Users",
               Some("Monthly active users")),
    MetricCard("conversions", "Conversions", "3,247", -2.1, Decrease, "Target",
               Some("Total conversions this month")),
    MetricCard("growth", "Growth Rate", "15.3%", 4.7, Increase, "TrendingUp",
               Some("Month-over-month growth"))
  ]

  /** Everything the cards are recomputed from. */
  datatype Summary = Summary(
    totalRevenue: real, totalUsers: real, totalConversions: real, growthRate: real,
    revenueChange: real, usersChange: real, conversionsChange: real)

  /**
   * The totals are the sums of each series, the growth rate is the first-to-last revenue growth,
   * and each change is its series' trend.
   */
  function Summarize(revenueData: seq<Obj>, userData: seq<Obj>, campaignData: seq<TableRow>): (s: Summary)
    ensures s.totalRevenue == Sum(FieldValues(revenueData, "revenue"))
    ensures s.totalUsers == Sum(FieldValues(userData, "users"))
    ensures s.totalConversions == Sum(ConversionValues(campaignData))
    ensures s.growthRate == GrowthRate(FieldValues(revenueData, "revenue"))
    ensures s.revenueChange == TrendChange(FieldValues(revenueData, "revenue"))
    ensures s.usersChange == TrendChange(FieldValues(userData, "users"))
    ensures s.conversionsChange == TrendChange(ConversionValues(campaignData))
  {
    var revenue := FieldValues(revenueData, "revenue");
    var users := FieldValues(userData, "users");
    var conversions := ConversionValues(campaignData);
    Summary(Sum(revenue), Sum(users), Sum(conversions), GrowthRate(revenue),
            TrendChange(revenue), TrendChange(users), TrendChange(conversions))
  }

  function Abs(x: real): real {
    if x < 0.0 then -x else x
  }

  /**
   * `Number(x.toFixed(2))` for x >= 0, on exact reals: the nearest hundredth, halves rounded up.
   */
  function Round2(x: real): (r: real)
    requires x >= 0.0
    ensures r >= 0.0
    ensures x - 0.005 < r <= x + 0.005
    ensures (r * 100.0).Floor as real == r * 100.0
  {
    ((x * 100.0 + 0.5).Floor as real) / 100.0
  }

  /** "increase" for a signed change >= 0, otherwise "decrease". */
  function ChangeTypeOf(x: real): (c: ChangeType)
    ensures c == Increase <==> x >= 0.0
  {
    if x >= 0.0 then Increase else Decrease
  }

  const KnownIds: set<string> := {"revenue", "users", "conversions", "growth"}

  /** The signed change a card with a known id shows: its trend, or the growth rate. */
  function SignedChange(id: string, s: Summary): real {
    if id == "revenue" then s.revenueChange
    else if id == "users" then s.usersChange
    else if id == "conversions" then s.conversionsChange
    else s.growthRate
  }

  /** The displayed value of a card with a known id. */
  function CardValue(id: string, s: Summary, host: Host): string {
    if id == "revenue" then "$" + host.toFixed(s.totalRevenue / 1000.0, 1) + "K"
    else if id == "users" then host.toFixed(s.totalUsers / 1000.0, 1) + "K"
    else if id == "conversions" then host.toLocaleString(s.totalConversions)
    else host.toFixed(s.growthRate, 2) + "%"
  }

  /**
   * A card shows `value` and the absolute value of `signed`, rounded to hundredths, with the
   * sign kept as "increase" (>= 0) or "decrease".
   */
  predicate Shows(c: MetricCard, value: string, signed: real) {
    c.value == value && c.change == Round2(Abs(signed)) && (c.changeType == Increase <==> signed >= 0.0)
  }

  /** One card of the `metricsCards.map(...)` step. */
  function UpdateCard(card: MetricCard, s: Summary, host: Host): (c: MetricCard)
    ensures c.id == card.id && c.title == card.title && c.icon == card.icon && c.description == card.description
    ensures card.id == "revenue" ==>
      Shows(c, "$" + host.toFixed(s.totalRevenue / 1000.0, 1) + "K", s.revenueChange)
    ensures card.id == "users" ==> Shows(c, host.toFixed(s.totalUsers / 1000.0, 1) + "K", s.usersChange)
    ensures card.id == "conversions" ==> Shows(c, host.toLocaleString(s.totalConversions), s.conversionsChange)
    ensures card.id == "growth" ==> Shows(c, host.toFixed(s.growthRate, 2) + "%", s.growthRate)
    ensures card.id !in KnownIds ==> c == card
  {
    if card.id in KnownIds then
      var signed := SignedChange(card.id, s);
      card.(value := CardValue(card.id, s, host), change := Round2(Abs(signed)),
            changeType := ChangeTypeOf(signed))
    else card
  }

  /**
   * `useMetricsCalculation`: one card per template card, in template order. A known card keeps its
   * id, title, icon and description and shows the absolute value of its signed change, with the
   * sign kept in `changeType`; a card with another id is returned unchanged. Revenue and users
   * show their totals in thousands with one decimal, conversions its total in locale format, and
   * growth the first-to-last revenue growth with two decimals.
   */
  function UseMetricsCalculation(revenueData: seq<Obj>, userData: seq<Obj>, campaignData: seq<TableRow>,
                                 host: Host, template: seq<MetricCard> := MetricsCards)
    : (cards: seq<MetricCard>)
    ensures |cards| == |template|
    ensures forall i :: 0 <= i < |cards| ==>
      cards[i].id == template[i].id && cards[i].title == template[i].title
      && cards[i].icon == template[i].icon && cards[i].description == template[i].description
    ensures forall i :: 0 <= i < |cards| && template[i].id in KnownIds ==>
      var signed := SignedChange(template[i].id, Summarize(revenueData, userData, campaignData));
      cards[i].change >= 0.0 && cards[i].change == Round2(Abs(signed))
      && (cards[i].changeType == Increase <==> signed >= 0.0)
    ensures forall i :: 0 <= i < |cards| && template[i].id !in KnownIds ==> cards[i] == template[i]
  {
    var s := Summarize(revenueData, userData, campaignData);
    seq(|template|, i requires 0 <= i < |template| => UpdateCard(template[i], s, host))
  }

  /**
   * What each known card shows, in terms of the data: revenue and users their totals in thousands
   * with one decimal and their trend, conversions its total in locale format and its trend, growth
   * the first-to-last revenue growth with two decimals, as value and as change.
   */
  lemma CardsShowTheirData(revenueData: seq<Obj>, userData: seq<Obj>, campaignData: seq<TableRow>,
                           host: Host, template: seq<MetricCard>)
    ensures var cards := UseMetricsCalculation(revenueData, userData, campaignData, host, template);
      forall i :: 0 <= i < |cards| && template[i].id == "revenue" ==>
        var revenue := FieldValues(revenueData, "revenue");
        Shows(cards[i], "$" + host.toFixed(Sum(revenue) / 1000.0, 1) + "K", TrendChange(revenue))
    ensures var cards := UseMetricsCalculation(revenueData, userData, campaignData, host, template);
      forall i :: 0 <= i < |cards| && template[i].id == "users" ==>
        var users := FieldValues(userData, "users");
        Shows(cards[i], host.toFixed(Sum(users) / 1000.0, 1) + "K", TrendChange(users))
    ensures var cards := UseMetricsCalculation(revenueData, userData, campaignData, host, template);
      forall i :: 0 <= i < |cards| && template[i].id == "conversions" ==>
        var conversions := ConversionValues(campaignData);
        Shows(cards[i], host.toLocaleString(Sum(conversions)), TrendChange(conversions))
    ensures var cards := UseMetricsCalculation(revenueData, userData, campaignData, host, template);
      forall i :: 0 <= i < |cards| && template[i].id == "growth" ==>
        var growth := GrowthRate(FieldValues(revenueData, "revenue"));
        Shows(cards[i], host.toFixed(growth, 2) + "%", growth)
  {
    var s := Summarize(revenueData, userData, campaignData);
    var cards := UseMetricsCalculation(revenueData, userData, campaignData, host, template);
    assert forall i :: 0 <= i < |cards| ==> cards[i] == UpdateCard(template[i], s, host);
  }

  /** On the real template the cards come out as revenue, users, conversions, growth. */
  lemma TemplateCardOrder(revenueData: seq<Obj>, userData: seq<Obj>, campaignData: seq<TableRow>, host: Host)
    ensures var cards := UseMetricsCalculation(revenueData, userData, campaignData, host);
      |cards| == 4
      && cards[0].id == "revenue" && cards[1].id == "users"
      && cards[2].id == "conversions" && cards[3].id == "growth"
      && forall i :: 0 <= i < 4 ==> cards[i].change >= 0.0
  {
  }

  /** No data at all: every card reads zero and "increase". */
  lemma {:induction false} EmptyDataGivesZeroCards(host: Host)
    ensures var cards := UseMetricsCalculation([], [], [], host);
      |cards| == 4
      && cards[0].value == "$" + host.toFixed(0.0, 1) + "K"
      && cards[1].value == host.toFixed(0.0, 1) + "K"
      && cards[2].value == host.toLocaleString(0.0)
      && cards[3].value == host.toFixed(0.0, 2) + "%"
      && forall i :: 0 <= i < 4 ==> cards[i].change == 0.0 && cards[i].changeType == Increase
  {
    var s := Summarize([], [], []);
    assert FieldValues([], "revenue") == [];
    assert FieldValues([], "users") == [];
    assert ConversionValues([]) == [];
    assert s == Summary(0.0, 0.0, 0.0, 0.0, 0.0, 0.0, 0.0);
  }

  /** Seven days of flat revenue 1000: "$7.0K", no change, "increase". */
  lemma {:induction false} FlatWeekOfRevenue(revenueData: seq<Obj>, host: Host)
    requires |revenueData| == 7
    requires forall i :: 0 <= i < 7 ==> Get(revenueData[i], "revenue") == Num(1000.0)
    ensures var card := UseMetricsCalculation(revenueData, [], [], host)[0];
      card.value == "$" + host.toFixed(7.0, 1) + "K" && card.change == 0.0 && card.changeType == Increase
  {
    var xs := FieldValues(revenueData, "revenue");
    assert forall i :: 0 <= i < |xs| ==> xs[i] == 1000.0;
    SumConstant(xs, 1000.0);
    FlatSeriesHasNoTrend(xs, 1000.0);
  }
}
