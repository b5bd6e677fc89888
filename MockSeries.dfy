/**
 * The synthetic price series of `src/utils/mockData.ts`: a random walk with
 * an optional trend, sampled daily or hourly, and the table that picks its
 * parameters for a chart range.
 *
 * Each `Math.random()` call is the next element of a `draws` sequence, and a
 * point's date is its distance from now in whole days or hours (`ago`).
 */
module MockSeries {
  import opened Numbers

  datatype Unit = Day | Hour

  /** One chart point: `ago` units before now, with a value rounded to cents. */
  datatype TimePoint = TimePoint(unit: Unit, ago: nat, value: real)

  /** The lowest value the walk may reach. */
  const Floor: real := 0.1

  /** One step of the walk: `max(0.1, v + (r - 0.5 + trend) * volatility * v)`. */
  function Step(v: real, r: real, volatility: real, trend: real): (w: real)
    ensures w >= Floor
  {
    MaxReal(Floor, v + (r - 0.5 + trend) * volatility * v)
  }

  /** The walk's value after consuming `draws` in order, starting from `v`. */
  function ValueAfter(v: real, draws: seq<real>, volatility: real, trend: real): (w: real)
    ensures |draws| > 0 ==> w >= Floor
  {
    if draws == [] then v
    else Step(ValueAfter(v, draws[..|draws| - 1], volatility, trend), draws[|draws| - 1], volatility, trend)
  }

  /**
   * The series a generator emits for `steps`: `steps + 1` points from `steps`
   * units ago up to now, the k-th carrying the walk's value after k + 1 draws.
   */
  function WalkSeries(unit: Unit, steps: nat, v: real, volatility: real, trend: real, draws: seq<real>): (s: seq<TimePoint>)
    requires |draws| == steps + 1
    ensures |s| == steps + 1
    ensures s[0].ago == steps && s[steps].ago == 0
    ensures forall j, k :: 0 <= j < k < |s| ==> s[j].ago > s[k].ago
    ensures forall k :: 0 <= k < |s| ==> s[k].unit == unit && s[k].value >= Floor
  {
    var s := seq(steps + 1, k requires 0 <= k <= steps =>
      TimePoint(unit, steps - k, Round2(ValueAfter(v, draws[..k + 1], volatility, trend))));
    forall k | 0 <= k < |s| ensures s[k].value >= Floor {
      Round2OfCents(10);
      Round2Monotone(Floor, ValueAfter(v, draws[..k + 1], volatility, trend));
    }
    s
  }

  /**
   * Without a trend, one step moves the walk by at most half the volatility
   * times the current value, in either direction, before the floor applies.
   */
  lemma StepWithoutTrendBound(v: real, r: real, volatility: real)
    requires 0.0 <= r < 1.0 && 0.0 <= volatility && 0.0 <= v
    ensures -(volatility * v) / 2.0 <= (r - 0.5) * volatility * v <= (volatility * v) / 2.0
  {
    var b := volatility * v;
    assert b >= 0.0;
    assert (r - 0.5) * volatility * v == (r - 0.5) * b;
    assert -0.5 <= r - 0.5 <= 0.5;
    assert (r - 0.5) * b <= 0.5 * b;
    assert -0.5 * b <= (r - 0.5) * b;
  }

  /** One more draw moves the walk by one `Step`. */
  lemma StepUnfold(v: real, draws: seq<real>, n: nat, volatility: real, trend: real, before: real, after: real)
    requires n < |draws|
    requires before == ValueAfter(v, draws[..n], volatility, trend)
    requires after == MaxReal(0.1, before + (draws[n] - 0.5 + trend) * volatility * before)
    ensures after == ValueAfter(v, draws[..n + 1], volatility, trend)
  {
    var d := draws[..n + 1];
    assert d[..|d| - 1] == draws[..n] && d[|d| - 1] == draws[n];
    assert ValueAfter(v, d, volatility, trend) == Step(before, draws[n], volatility, trend);
  }

  /** A sequence that agrees point by point with the walk is the walk's series. */
  lemma SeriesIsWalk(unit: Unit, steps: nat, v: real, volatility: real, trend: real, draws: seq<real>, data: seq<TimePoint>)
    requires |draws| == steps + 1 && |data| == steps + 1
    requires forall k :: 0 <= k < |data| ==>
      data[k] == TimePoint(unit, steps - k, Round2(ValueAfter(v, draws[..k + 1], volatility, trend)))
    ensures data == WalkSeries(unit, steps, v, volatility, trend, draws)
  {
  }

  /** `generateTimeSeriesData(days, initialValue, volatility, trend)`: one point per day. */
  method GenerateTimeSeriesData(days: nat, initialValue: real, volatility: real, trend: real, draws: seq<real>)
    returns (data: seq<TimePoint>)
    requires |draws| == days + 1
    ensures data == WalkSeries(Day, days, initialValue, volatility, trend, draws)
  {
    data := [];
    var currentValue := initialValue;
    var i: int := days;
    while i >= 0
      invariant -1 <= i <= days
      invariant |data| == days - i
      invariant currentValue == ValueAfter(initialValue, draws[..days - i], volatility, trend)
      invariant forall k :: 0 <= k < |data| ==>
        data[k] == TimePoint(Day, days - k, Round2(ValueAfter(initialValue, draws[..k + 1], volatility, trend)))
    {
      var n := days - i;
      ghost var before := currentValue;
      var change := (draws[n] - 0.5 + trend) * volatility * currentValue;
      currentValue := MaxReal(0.1, currentValue + change);
      StepUnfold(initialValue, draws, n, volatility, trend, before, currentValue);
      data := data + [TimePoint(Day, i, Round2(currentValue))];
      i := i - 1;
    }
    SeriesIsWalk(Day, days, initialValue, volatility, trend, draws, data);
  }

  /** `generateIntradayData(hours, initialValue, volatility)`: one point per hour, no trend term. */
  method GenerateIntradayData(hours: nat, initialValue: real, volatility: real, draws: seq<real>)
    returns (data: seq<TimePoint>)
    requires |draws| == hours + 1
    ensures data == WalkSeries(Hour, hours, initialValue, volatility, 0.0, draws)
  {
    data := [];
    var currentValue := initialValue;
    var i: int := hours;
    while i >= 0
      invariant -1 <= i <= hours
      invariant |data| == hours - i
      invariant currentValue == ValueAfter(initialValue, draws[..hours - i], volatility, 0.0)
      invariant forall k :: 0 <= k < |data| ==>
        data[k] == TimePoint(Hour, hours - k, Round2(ValueAfter(initialValue, draws[..k + 1], volatility, 0.0)))
    {
      var n := hours - i;
      ghost var before := currentValue;
      var change := (draws[n] - 0.5) * volatility * currentValue;
      currentValue := MaxReal(0.1, currentValue + change);
      StepUnfold(initialValue, draws, n, volatility, 0.0, before, currentValue);
      data := data + [TimePoint(Hour, i, Round2(currentValue))];
      i := i - 1;
    }
    SeriesIsWalk(Hour, hours, initialValue, volatility, 0.0, draws, data);
  }

  /** The generator arguments `generatePeriodData` passes for one chart range. */
  datatype PeriodParams = PeriodParams(unit: Unit, steps: nat, volatility: real, trend: real)

  /** The ranges served by the daily generator; every other value gets the intraday one. */
  predicate IsDailyRange(period: string)
  {
    period in {"1W", "1M", "3M", "1Y", "5Y"}
  }

  /** The `switch` of `generatePeriodData`, with the generators' default arguments filled in. */
  function PeriodParamsOf(period: string): (p: PeriodParams)
    ensures p.unit == Day <==> IsDailyRange(period)
    ensures p.trend > 0.0 <==> period == "1Y" || period == "5Y"
    ensures p.volatility > 0.0
  {
    match period
    case "1D" => PeriodParams(Hour, 6, 0.005, 0.0)
    case "1W" => PeriodParams(Day, 7, 0.015, 0.0)
    case "1M" => PeriodParams(Day, 30, 0.02, 0.0)
    case "3M" => PeriodParams(Day, 90, 0.025, 0.0)
    case "1Y" => PeriodParams(Day, 365, 0.03, 0.001)
    case "5Y" => PeriodParams(Day, 365 * 5, 0.04, 0.002)
    case _ => PeriodParams(Hour, 6, 0.005, 0.0)
  }

  /** The series `generatePeriodData(period, initialValue)` returns for these draws. */
  function PeriodSeries(period: string, initialValue: real, draws: seq<real>): (s: seq<TimePoint>)
    requires |draws| == PeriodParamsOf(period).steps + 1
    ensures |s| == PeriodParamsOf(period).steps + 1
  {
    var p := PeriodParamsOf(period);
    WalkSeries(p.unit, p.steps, initialValue, p.volatility, p.trend, draws)
  }

  /** Number of points each range's chart holds. */
  lemma PeriodPointCounts(v: real, draws: seq<real>)
    ensures |draws| == 7 ==> |PeriodSeries("1D", v, draws)| == 7
    ensures |draws| == 8 ==> |PeriodSeries("1W", v, draws)| == 8
    ensures |draws| == 31 ==> |PeriodSeries("1M", v, draws)| == 31
    ensures |draws| == 91 ==> |PeriodSeries("3M", v, draws)| == 91
    ensures |draws| == 366 ==> |PeriodSeries("1Y", v, draws)| == 366
    ensures |draws| == 1826 ==> |PeriodSeries("5Y", v, draws)| == 1826
  {
  }

  /** `generatePeriodData(period, initialValue)`. */
  method GeneratePeriodData(period: string, initialValue: real, draws: seq<real>) returns (data: seq<TimePoint>)
    requires |draws| == PeriodParamsOf(period).steps + 1
    ensures data == PeriodSeries(period, initialValue, draws)
  {
    match period
    case "1D" =>
      data := GenerateIntradayData(6, initialValue, 0.005, draws);
    case "1W" =>
      data := GenerateTimeSeriesData(7, initialValue, 0.015, 0.0, draws);
    case "1M" =>
      data := GenerateTimeSeriesData(30, initialValue, 0.02, 0.0, draws);
    case "3M" =>
      data := GenerateTimeSeriesData(90, initialValue, 0.025, 0.0, draws);
    case "1Y" =>
      data := GenerateTimeSeriesData(365, initialValue, 0.03, 0.001, draws);
    case "5Y" =>
      data := GenerateTimeSeriesData(365 * 5, initialValue, 0.04, 0.002, draws);
    case _ =>
      data := GenerateIntradayData(6, initialValue, 0.005, draws);
  }
}
