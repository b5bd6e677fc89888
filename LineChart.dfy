/**
 * The computations of the line chart (`src/components/charts/LineChart.tsx`):
 * the colour of the line, the granularity of the x-axis labels, and the
 * y-axis domain with its 10% margin.
 */
module LineChart {
  import opened Numbers
  import opened MockSeries

  /** `chartColor`: the given colour for a positive chart, red otherwise. */
  function ChartColor(isPositive: bool, lineColor: string): (c: string)
    ensures isPositive ==> c == lineColor
    ensures !isPositive ==> c == "#ea384c"
  {
    if isPositive then lineColor else "#ea384c"
  }

  /** What `formatXAxis` prints for a tick: a time of day, a day, a month or a year. */
  datatype Granularity = TimeOfDay | DayOfMonth | Month | Year

  function Rank(g: Granularity): nat
  {
    match g
    case TimeOfDay => 0
    case DayOfMonth => 1
    case Month => 2
    case Year => 3
  }

  /** The label format is chosen by the number of points: up to 24, 31, 365, or more. */
  function XAxisGranularity(points: nat): (g: Granularity)
    ensures g == TimeOfDay <==> points <= 24
    ensures g == DayOfMonth <==> 24 < points <= 31
    ensures g == Month <==> 31 < points <= 365
    ensures g == Year <==> 365 < points
  {
    if points <= 24 then TimeOfDay
    else if points <= 31 then DayOfMonth
    else if points <= 365 then Month
    else Year
  }

  /** More points never give finer labels. */
  lemma GranularityMonotone(a: nat, b: nat)
    requires a <= b
    ensures Rank(XAxisGranularity(a)) <= Rank(XAxisGranularity(b))
  {
  }

  /**
   * The labels each chart range gets: times for a day and a week, days for a
   * month, months for three months, and years for one and five years (the
   * year's series has 366 points).
   */
  lemma RangeGranularities(v: real, draws: seq<real>)
    ensures |draws| == 7 ==> XAxisGranularity(|PeriodSeries("1D", v, draws)|) == TimeOfDay
    ensures |draws| == 8 ==> XAxisGranularity(|PeriodSeries("1W", v, draws)|) == TimeOfDay
    ensures |draws| == 31 ==> XAxisGranularity(|PeriodSeries("1M", v, draws)|) == DayOfMonth
    ensures |draws| == 91 ==> XAxisGranularity(|PeriodSeries("3M", v, draws)|) == Month
    ensures |draws| == 366 ==> XAxisGranularity(|PeriodSeries("1Y", v, draws)|) == Year
    ensures |draws| == 1826 ==> XAxisGranularity(|PeriodSeries("5Y", v, draws)|) == Year
  {
    PeriodPointCounts(v, draws);
  }

  /** `Math.min(...values)` for a non-empty list. */
  function MinOf(values: seq<real>): (m: real)
    requires |values| > 0
    ensures m in values
    ensures forall i :: 0 <= i < |values| ==> m <= values[i]
  {
    if |values| == 1 then values[0]
    else
      var rest := MinOf(values[1..]);
      assert forall i :: 1 <= i < |values| ==> values[i] == values[1..][i - 1];
      if values[0] <= rest then values[0] else rest
  }

  /** `Math.max(...values)` for a non-empty list. */
  function MaxOf(values: seq<real>): (m: real)
    requires |values| > 0
    ensures m in values
    ensures forall i :: 0 <= i < |values| ==> values[i] <= m
  {
    if |values| == 1 then values[0]
    else
      var rest := MaxOf(values[1..]);
      assert forall i :: 1 <= i < |values| ==> values[i] == values[1..][i - 1];
      if values[0] >= rest then values[0] else rest
  }

  function Values(data: seq<TimePoint>): (vs: seq<real>)
    ensures |vs| == |data| && forall i :: 0 <= i < |data| ==> vs[i] == data[i].value
  {
    seq(|data|, i requires 0 <= i < |data| => data[i].value)
  }

  datatype Domain = Domain(lower: real, upper: real)

  /**
   * `yDomain`: `[0, 0]` for no data; otherwise the range of the values
   * widened by a tenth of its width on each side, with the lower end
   * clamped at zero.
   */
  function YDomain(data: seq<TimePoint>): (d: Domain)
    ensures data == [] ==> d == Domain(0.0, 0.0)
    ensures d.lower >= 0.0
    ensures data != [] ==> d.lower == MaxReal(0.0, MinOf(Values(data)) - (MaxOf(Values(data)) - MinOf(Values(data))) * 0.1)
    ensures data != [] ==> d.upper == MaxOf(Values(data)) + (MaxOf(Values(data)) - MinOf(Values(data))) * 0.1
    ensures forall i :: 0 <= i < |data| ==> data[i].value <= d.upper
    ensures (forall i :: 0 <= i < |data| ==> data[i].value >= 0.0) ==>
      d.lower <= d.upper && forall i :: 0 <= i < |data| ==> d.lower <= data[i].value
  {
    if |data| == 0 then Domain(0.0, 0.0)
    else
      var values := Values(data);
      var lo := MinOf(values);
      var hi := MaxOf(values);
      var margin := (hi - lo) * 0.1;
      assert lo <= hi by { assert lo <= values[0] <= hi; }
      assert (forall i :: 0 <= i < |data| ==> data[i].value >= 0.0) ==> lo >= 0.0 by {
        var k :| 0 <= k < |values| && values[k] == lo;
        assert data[k].value == lo;
      }
      Domain(MaxReal(0.0, lo - margin), hi + margin)
  }

  /** Every series the generators produce lies within its chart's y-axis domain. */
  lemma SeriesFitsDomain(unit: Unit, steps: nat, v: real, volatility: real, trend: real, draws: seq<real>)
    requires |draws| == steps + 1
    ensures var s := WalkSeries(unit, steps, v, volatility, trend, draws);
      forall i :: 0 <= i < |s| ==> YDomain(s).lower <= s[i].value <= YDomain(s).upper
  {
    var s := WalkSeries(unit, steps, v, volatility, trend, draws);
    assert forall i :: 0 <= i < |s| ==> s[i].value >= 0.0;
  }
}
