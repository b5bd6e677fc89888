/**
 * The computations of the stock page (`src/pages/StockDetails.tsx`): the
 * live quote that a timer nudges every five seconds, the analyst price
 * targets and consensus, the related stocks, and the upside shown beside
 * the target price.
 */
module StockDetails {
  import opened Numbers
  import opened Seqs
  import opened MockSeries
  import opened MockData

  /** `mockStocks.find(s => s.symbol === symbol)`; without a match the page stays on "Loading". */
  function FindStock(stocks: seq<Stock>, symbol: string): (r: Option<Stock>)
    ensures r.None? <==> forall i :: 0 <= i < |stocks| ==> stocks[i].symbol != symbol
    ensures r.Some? ==>
      exists i :: 0 <= i < |stocks| && stocks[i] == r.value && stocks[i].symbol == symbol
                  && forall k :: 0 <= k < i ==> stocks[k].symbol != symbol
  {
    FindFirst(stocks, (s: Stock) => s.symbol == symbol)
  }

  // ---------------------------------------------------------------------
  // Live quote
  // ---------------------------------------------------------------------

  /** `(Math.random() * 2 - 1) * 0.2`: a change between -0.2% and 0.2%. */
  function TickRandomChange(draw: real): (r: real)
    requires 0.0 <= draw < 1.0
    ensures -0.2 <= r < 0.2
  {
    (draw * 2.0 - 1.0) * 0.2
  }

  /** The quote the header shows: price, change since the previous close, and that change in percent. */
  datatype Quote = Quote(price: real, change: real, changePercent: Option<real>)

  /** The tick's new price: moved by the random percentage and rounded to cents. */
  function TickPrice(current: real, draw: real): (p: real)
    requires 0.0 <= draw < 1.0
    ensures var m := current * (1.0 + TickRandomChange(draw) / 100.0); m - 0.005 <= p <= m + 0.005
    ensures current >= 0.0 ==> current * 0.998 - 0.005 <= p <= current * 1.002 + 0.005
    ensures p == Round2(p)
  {
    var moved := current * (1.0 + TickRandomChange(draw) / 100.0);
    TickMoveBound(current, TickRandomChange(draw), moved);
    Round2Idempotent(moved);
    Round2(moved)
  }

  /** The change since the previous close, rounded to cents. */
  function TickChange(price: real, prevClose: real): (c: real)
    ensures price - prevClose - 0.005 <= c <= price - prevClose + 0.005
    ensures c == Round2(c)
    ensures price == Round2(price) && prevClose == Round2(prevClose) ==> c == price - prevClose
  {
    Round2Idempotent(price - prevClose);
    CentsDifference(price, prevClose);
    Round2(price - prevClose)
  }

  /** Two amounts in whole cents differ by whole cents. */
  lemma CentsDifference(x: real, y: real)
    ensures x == Round2(x) && y == Round2(y) ==> Round2(x - y) == x - y
  {
    if x == Round2(x) && y == Round2(y) {
      assert x - y == (Cents(x) - Cents(y)) as real / 100.0;
      Round2OfCents(Cents(x) - Cents(y));
    }
  }

  /** The rounded change over the previous close in percent, rounded again; `None` for a zero close. */
  function TickChangePercent(change: real, prevClose: real): (r: Option<real>)
    ensures r.Some? <==> prevClose != 0.0
    ensures r.Some? ==> r.value == Round2(r.value)
    ensures r.Some? ==> change / prevClose * 100.0 - 0.005 <= r.value <= change / prevClose * 100.0 + 0.005
  {
    match Ratio(change, prevClose)
    case Some(q) =>
      Round2Idempotent(q * 100.0);
      Some(Round2(q * 100.0))
    case None => None
  }

  /** One timer tick: the new price, then the change and percent change against the previous close. */
  function TickQuote(current: real, prevClose: real, draw: real): (q: Quote)
    requires 0.0 <= draw < 1.0
  {
    var newPrice := TickPrice(current, draw);
    var newChange := TickChange(newPrice, prevClose);
    Quote(newPrice, newChange, TickChangePercent(newChange, prevClose))
  }

  /**
   * A tick keeps the quote consistent: for a previous close in cents, the
   * change is exactly the new price minus that close, and the price stays
   * within 0.2% (and half a cent) of the old one.
   */
  lemma TickKeepsQuoteConsistent(current: real, prevClose: real, draw: real)
    requires 0.0 <= draw < 1.0 && current >= 0.0 && prevClose == Round2(prevClose)
    ensures TickQuote(current, prevClose, draw).change == TickQuote(current, prevClose, draw).price - prevClose
    ensures current * 0.998 - 0.005 <= TickQuote(current, prevClose, draw).price <= current * 1.002 + 0.005
    ensures prevClose != 0.0 ==> TickQuote(current, prevClose, draw).changePercent.Some?
  {
  }

  lemma TickMoveBound(current: real, randomChange: real, moved: real)
    requires -0.2 <= randomChange < 0.2 && moved == current * (1.0 + randomChange / 100.0)
    ensures current >= 0.0 ==> current * 0.998 - 0.005 <= Round2(moved) <= current * 1.002 + 0.005
  {
    if current >= 0.0 {
      var f := 1.0 + randomChange / 100.0;
      assert 0.998 <= f <= 1.002;
      assert moved == current * f;
      ScaleMonotone(current, 0.998, f);
      ScaleMonotone(current, f, 1.002);
      assert current * 0.998 <= moved <= current * 1.002;
      assert moved - 0.005 <= Round2(moved) <= moved + 0.005;
    }
  }

  /** Rounding a value that is already rounded changes nothing. */
  lemma Round2Idempotent(x: real)
    ensures Round2(Round2(x)) == Round2(x)
  {
    Round2OfCents(Cents(x));
  }

  /** The stock page's state: the stock shown, its live quote, and the chart for the selected range. */
  class StockPage {
    const stock: Stock
    var currentPrice: real
    var priceChange: real
    var priceChangePercent: Option<real>
    var selectedRange: string
    var chartData: seq<TimePoint>

    /**
     * The effect that runs once the stock is found: the quote starts at the
     * fixture's price and change, and the chart is drawn for the initial
     * range "1M" from the stock's price.
     */
    constructor (s: Stock, draws: seq<real>)
      requires |draws| == PeriodParamsOf("1M").steps + 1
      ensures stock == s && selectedRange == "1M"
      ensures currentPrice == s.price && priceChange == s.change && priceChangePercent == Some(s.changePercent)
      ensures chartData == PeriodSeries("1M", s.price, draws)
    {
      var data := GeneratePeriodData("1M", s.price, draws);
      stock := s;
      currentPrice := s.price;
      priceChange := s.change;
      priceChangePercent := Some(s.changePercent);
      selectedRange := "1M";
      chartData := data;
    }

    /** The interval body: one tick of the live quote; the stock and chart stay as they were. */
    method Tick(draw: real)
      requires 0.0 <= draw < 1.0
      modifies this
      ensures Quote(currentPrice, priceChange, priceChangePercent) == TickQuote(old(currentPrice), stock.prevClose, draw)
      ensures selectedRange == old(selectedRange) && chartData == old(chartData)
    {
      var newPrice := TickPrice(currentPrice, draw);
      var newChange := TickChange(newPrice, stock.prevClose);
      var newChangePercent := TickChangePercent(newChange, stock.prevClose);
      currentPrice := newPrice;
      priceChange := newChange;
      priceChangePercent := newChangePercent;
    }

    /** A range button: the chart is regenerated for that range from the stock's fixture price. */
    method SelectRange(range: string, draws: seq<real>)
      requires |draws| == PeriodParamsOf(range).steps + 1
      modifies this
      ensures selectedRange == range && chartData == PeriodSeries(range, stock.price, draws)
      ensures currentPrice == old(currentPrice) && priceChange == old(priceChange)
      ensures priceChangePercent == old(priceChangePercent)
    {
      selectedRange := range;
      chartData := GeneratePeriodData(range, stock.price, draws);
    }

    /** `isPositive`: the quote is up or unchanged since the previous close. */
    function IsPositive(): (r: bool)
      reads this
      ensures r <==> priceChange >= 0.0
    {
      priceChange >= 0.0
    }

    /** The chart's line colour: green when positive, red otherwise. */
    function LineColor(): (c: string)
      reads this
      ensures c == "#34c759" <==> IsPositive()
      ensures c == "#ff3b30" <==> !IsPositive()
    {
      if priceChange >= 0.0 then "#34c759" else "#ff3b30"
    }
  }

  // ---------------------------------------------------------------------
  // Analyst ratings
  // ---------------------------------------------------------------------

  datatype AnalystRatings = AnalystRatings(
    buy: int, hold: int, sell: int, targetPrice: real, highTarget: real, lowTarget: real)

  /**
   * The ratings object every render of the page builds: 18 buy, 7 hold,
   * 3 sell and all three targets zero. The effect that computes the targets
   * writes them into the first render's object, which that render never
   * shows (it is still loading); every later render builds this object anew.
   */
  function RenderedAnalystRatings(): (r: AnalystRatings)
    ensures r.buy + r.hold + r.sell == 28
    ensures r.targetPrice == 0.0 && r.highTarget == 0.0 && r.lowTarget == 0.0
  {
    AnalystRatings(18, 7, 3, 0.0, 0.0, 0.0)
  }

  /** The ratings with the targets the effect computes for `price`: 115%, 135% and 90% of it, in cents. */
  function AnalystRatingsFor(price: real): (r: AnalystRatings)
    ensures r.buy == 18 && r.hold == 7 && r.sell == 3
    ensures price * 1.15 - 0.005 <= r.targetPrice <= price * 1.15 + 0.005
    ensures price * 1.35 - 0.005 <= r.highTarget <= price * 1.35 + 0.005
    ensures price * 0.9 - 0.005 <= r.lowTarget <= price * 0.9 + 0.005
    ensures price >= 0.0 ==> 0.0 <= r.lowTarget <= r.targetPrice <= r.highTarget
  {
    TargetsInOrder(price);
    AnalystRatings(18, 7, 3, Round2(price * 1.15), Round2(price * 1.35), Round2(price * 0.9))
  }

  lemma TargetsInOrder(price: real)
    ensures price >= 0.0 ==> Round2(price * 0.9) <= Round2(price * 1.15) <= Round2(price * 1.35)
  {
    if price >= 0.0 {
      Round2Monotone(price * 0.9, price * 1.15);
      Round2Monotone(price * 1.15, price * 1.35);
    }
  }

  /** From five cents up the three targets are distinct cents: low below target below high. */
  lemma AnalystTargetsOrdered(price: real)
    requires price >= 0.05
    ensures AnalystRatingsFor(price).lowTarget < AnalystRatingsFor(price).targetPrice < AnalystRatingsFor(price).highTarget
  {
    Round2StrictlyApart(price * 0.9, price * 1.15);
    Round2StrictlyApart(price * 1.15, price * 1.35);
  }

  /** At one cent all three targets round to the same cent. */
  lemma AnalystTargetsCollapseAtOneCent()
    ensures AnalystRatingsFor(0.01).lowTarget == AnalystRatingsFor(0.01).targetPrice == AnalystRatingsFor(0.01).highTarget == 0.01
  {
    assert Cents(0.01 * 1.15) == 1 && Cents(0.01 * 1.35) == 1 && Cents(0.01 * 0.9) == 1;
  }

  /** The consensus label: "Buy" on a buy majority, else "Sell" on a sell majority, else "Hold". */
  function Consensus(buy: int, hold: int, sell: int): (c: string)
    ensures c == "Buy" <==> buy > hold + sell
    ensures c == "Sell" <==> sell > buy + hold && !(buy > hold + sell)
    ensures c == "Hold" <==> !(buy > hold + sell) && !(sell > buy + hold)
  {
    if buy > hold + sell then "Buy" else if sell > buy + hold then "Sell" else "Hold"
  }

  /** With no negative counts, a buy majority and a sell majority cannot both hold. */
  lemma MajoritiesExclusive(buy: nat, hold: nat, sell: nat)
    ensures !(buy > hold + sell && sell > buy + hold)
  {
  }

  /** The page's 18 / 7 / 3 split reads "Buy". */
  lemma PageConsensusIsBuy()
    ensures Consensus(RenderedAnalystRatings().buy, RenderedAnalystRatings().hold, RenderedAnalystRatings().sell) == "Buy"
  {
  }

  /** `(target / current - 1) * 100`; `None` for the NaN or Infinity of a zero current price. */
  function Upside(target: real, current: real): (r: Option<real>)
    ensures r.Some? <==> current != 0.0
    ensures current > 0.0 ==> (r.value > 0.0 <==> UpsideIsGain(target, current))
    ensures current > 0.0 ==> (r.value == 0.0 <==> target == current)
    ensures r.Some? ==> r.value * current == (target - current) * 100.0
  {
    match Ratio(target, current)
    case None => None
    case Some(q) =>
      assert q * current == target;
      assert (q - 1.0) * 100.0 * current == (q * current - current) * 100.0;
      assert current > 0.0 ==> (q > 1.0 <==> target > current) by {
        if current > 0.0 {
          assert q * current == target;
          if q > 1.0 { assert (q - 1.0) * current > 0.0; }
          if target > current { assert (q - 1.0) * current > 0.0; }
        }
      }
      Some((q - 1.0) * 100.0)
  }

  /**
   * `targetPrice > currentPrice ? "text-apple-gain" : "text-apple-loss"`: for a
   * positive price, exactly when the printed upside `target / current - 1` is positive.
   */
  predicate UpsideIsGain(target: real, current: real): (r: bool)
    ensures current > 0.0 ==> (r <==> target / current - 1.0 > 0.0)
  {
    target > current
  }

  /**
   * Where the target sits on the low-to-high bar, in percent;
   * `None` for the NaN of an empty range.
   */
  function TargetBarPosition(r: AnalystRatings): (p: Option<real>)
    ensures p.Some? <==> r.highTarget != r.lowTarget
    ensures p.Some? && r.lowTarget <= r.targetPrice <= r.highTarget ==> 0.0 <= p.value <= 100.0
  {
    if r.highTarget == r.lowTarget then None
    else
      FractionInUnit(r.targetPrice - r.lowTarget, r.highTarget - r.lowTarget);
      Some((r.targetPrice - r.lowTarget) / (r.highTarget - r.lowTarget) * 100.0)
  }

  /** A part of a positive whole is a fraction between 0 and 1, strictly so for a proper part. */
  lemma FractionInUnit(a: real, d: real)
    requires d != 0.0
    ensures 0.0 <= a <= d ==> 0.0 <= a / d <= 1.0
    ensures 0.0 < a < d ==> 0.0 < a / d < 1.0
  {
  }

  /**
   * As the page renders: whatever the current price, the targets show $0.00,
   * the upside reads -100% in the loss colour, and the target bar has no
   * position.
   */
  lemma RenderedTargetsShowTotalLoss(current: real)
    requires current > 0.0
    ensures Upside(RenderedAnalystRatings().targetPrice, current) == Some(-100.0)
    ensures !UpsideIsGain(RenderedAnalystRatings().targetPrice, current)
    ensures TargetBarPosition(RenderedAnalystRatings()).None?
  {
    assert 0.0 / current == 0.0;
  }

  /**
   * With the targets computed for the stock's price, the upside at that price
   * is positive and coloured as a gain, and the target sits inside the bar.
   */
  lemma ComputedTargetsShowUpside(price: real)
    requires price >= 0.05
    ensures Upside(AnalystRatingsFor(price).targetPrice, price).value > 0.0
    ensures UpsideIsGain(AnalystRatingsFor(price).targetPrice, price)
    ensures TargetBarPosition(AnalystRatingsFor(price)).Some?
    ensures 0.0 < TargetBarPosition(AnalystRatingsFor(price)).value < 100.0
  {
    var r := AnalystRatingsFor(price);
    AnalystTargetsOrdered(price);
    FractionInUnit(r.targetPrice - r.lowTarget, r.highTarget - r.lowTarget);
  }

  // ---------------------------------------------------------------------
  // Related stocks
  // ---------------------------------------------------------------------

  /** Other stocks of the same sector, in fixture order. */
  function SameSector(stocks: seq<Stock>, stock: Stock): (r: seq<Stock>)
    ensures forall s :: s in r <==> s in stocks && s.sector == stock.sector && s.symbol != stock.symbol
    ensures IsSublist(r, stocks)
  {
    Filter(stocks, (s: Stock) => s.sector == stock.sector && s.symbol != stock.symbol)
  }

  /**
   * `relatedStocks`: at most three other stocks of the same sector, the first
   * ones in the order of `stocks`.
   */
  function RelatedStocks(stocks: seq<Stock>, stock: Stock): (r: seq<Stock>)
    ensures |r| <= 3
    ensures forall s :: s in r ==> s in stocks && s.sector == stock.sector && s.symbol != stock.symbol
    ensures IsSublist(r, stocks)
    ensures |r| == Min(3, |SameSector(stocks, stock)|) && r == SameSector(stocks, stock)[..|r|]
    ensures |r| < 3 ==> forall s :: s in stocks && s.sector == stock.sector && s.symbol != stock.symbol ==> s in r
  {
    var all := SameSector(stocks, stock);
    var r := Take(all, 3);
    PrefixOfSublist(all, stocks, |r|);
    assert forall s :: s in r ==> s in all;
    r
  }
}
