/**
 * The Portfolio Value card (`src/components/dashboard/PortfolioSummary.tsx`):
 * the selected range picks which fixed change is shown and which caption
 * goes with it, and choosing a range regenerates the chart from the
 * portfolio's total value.
 */
module PortfolioSummary {
  import opened Numbers
  import opened MockSeries
  import opened MockData
  import opened LineChart

  /** The `TimeRange` values. */
  predicate IsTimeRange(range: string)
  {
    range in {"1D", "1W", "1M", "3M", "1Y", "5Y"}
  }

  /** The change and percentage shown under the total value. */
  datatype ChangeDisplay = ChangeDisplay(change: real, percent: real)

  /**
   * `getChangeDisplay`: the daily, weekly, monthly or yearly change of the
   * range; five years shows the yearly one, and three months, having no case
   * of its own, falls back to the daily one like any other value.
   */
  function ChangeDisplayFor(range: string, perf: Performance): (d: ChangeDisplay)
    ensures range == "1W" ==> d == ChangeDisplay(perf.weeklyChange, perf.weeklyChangePercent)
    ensures range == "1M" ==> d == ChangeDisplay(perf.monthlyChange, perf.monthlyChangePercent)
    ensures range == "1Y" || range == "5Y" ==> d == ChangeDisplay(perf.yearlyChange, perf.yearlyChangePercent)
    ensures range !in {"1W", "1M", "1Y", "5Y"} ==> d == ChangeDisplay(perf.dailyChange, perf.dailyChangePercent)
  {
    match range
    case "1D" => ChangeDisplay(perf.dailyChange, perf.dailyChangePercent)
    case "1W" => ChangeDisplay(perf.weeklyChange, perf.weeklyChangePercent)
    case "1M" => ChangeDisplay(perf.monthlyChange, perf.monthlyChangePercent)
    case "1Y" => ChangeDisplay(perf.yearlyChange, perf.yearlyChangePercent)
    case "5Y" => ChangeDisplay(perf.yearlyChange, perf.yearlyChangePercent)
    case _ => ChangeDisplay(perf.dailyChange, perf.dailyChangePercent)
  }

  /** The caption beside the change; anything not listed reads "Past 5 years". */
  function Caption(range: string): (c: string)
    ensures range == "1D" <==> c == "Today"
    ensures range == "1W" <==> c == "Past week"
    ensures range == "1M" <==> c == "Past month"
    ensures range == "3M" <==> c == "Past 3 months"
    ensures range == "1Y" <==> c == "Past year"
    ensures range !in {"1D", "1W", "1M", "3M", "1Y"} <==> c == "Past 5 years"
  {
    if range == "1D" then "Today"
    else if range == "1W" then "Past week"
    else if range == "1M" then "Past month"
    else if range == "3M" then "Past 3 months"
    else if range == "1Y" then "Past year"
    else "Past 5 years"
  }

  /**
   * Three months is captioned "Past 3 months" but shows the daily change, the
   * same figures as one day, and not the monthly ones whenever they differ.
   */
  lemma ThreeMonthsShowsTheDailyChange(perf: Performance)
    ensures Caption("3M") == "Past 3 months"
    ensures ChangeDisplayFor("3M", perf) == ChangeDisplayFor("1D", perf)
    ensures perf.dailyChange != perf.monthlyChange ==> ChangeDisplayFor("3M", perf) != ChangeDisplayFor("1M", perf)
  {
  }

  /** `changeIsPositive`: a change of zero counts as a gain. */
  function ChangeIsPositive(d: ChangeDisplay): (r: bool)
    ensures r <==> d.change >= 0.0
  {
    d.change >= 0.0
  }

  /** `gainLossClass`: the colour of the total gain or loss, from its sign alone. */
  function GainLossClass(perf: Performance): (c: string)
    ensures c == "text-apple-gain" <==> perf.totalGainLoss >= 0.0
    ensures c == "text-apple-loss" <==> perf.totalGainLoss < 0.0
  {
    if perf.totalGainLoss >= 0.0 then "text-apple-gain" else "text-apple-loss"
  }

  /** The card's state: the selected range and the chart drawn for it. */
  class SummaryView {
    /** `portfolioPerformance`, which the card only reads. */
    const perf: Performance
    var selectedRange: string
    var chartData: seq<TimePoint>

    /** The card opens on one month, with that range's chart of the total value. */
    constructor (perf: Performance, draws: seq<real>)
      requires |draws| == PeriodParamsOf("1M").steps + 1
      ensures this.perf == perf && selectedRange == "1M"
      ensures chartData == PeriodSeries("1M", perf.totalValue, draws)
    {
      var data := GeneratePeriodData("1M", perf.totalValue, draws);
      this.perf := perf;
      selectedRange := "1M";
      chartData := data;
    }

    /** `changeTimeRange`: the range is selected and its chart regenerated from the total value. */
    method ChangeTimeRange(range: string, draws: seq<real>)
      requires IsTimeRange(range) && |draws| == PeriodParamsOf(range).steps + 1
      modifies this
      ensures selectedRange == range
      ensures chartData == PeriodSeries(range, perf.totalValue, draws)
      ensures |chartData| == PeriodParamsOf(range).steps + 1
    {
      var data := GeneratePeriodData(range, perf.totalValue, draws);
      selectedRange := range;
      chartData := data;
    }

    /** The change shown for the selected range. */
    function Shown(): (d: ChangeDisplay)
      reads this
      ensures d == ChangeDisplayFor(selectedRange, perf)
    {
      ChangeDisplayFor(selectedRange, perf)
    }

    /** The chart is drawn in the default colour on a gain and in red on a loss of the shown change. */
    function ChartLineColor(): (c: string)
      reads this
      ensures ChangeIsPositive(Shown()) ==> c == "#9b87f5"
      ensures !ChangeIsPositive(Shown()) ==> c == "#ea384c"
    {
      ChartColor(ChangeIsPositive(Shown()), "#9b87f5")
    }
  }

  /** With the fixed changes of `portfolioPerformance`, every range shows a gain, so every chart is drawn in the default colour. */
  lemma MockChangesArePositive(perf: Performance, range: string)
    requires perf.dailyChange == 245.68 && perf.weeklyChange == 532.25
    requires perf.monthlyChange == 1245.75 && perf.yearlyChange == 3721.50
    ensures ChangeIsPositive(ChangeDisplayFor(range, perf))
  {
  }
}
