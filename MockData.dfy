/**
 * The records, fixtures and portfolio totals of `src/utils/mockData.ts`.
 *
 * Logos, image links, article summaries and profile data are display-only
 * and are not part of the records. Dates of transactions and articles are
 * whole days before now.
 */
module MockData {
  import opened Numbers
  import opened MockSeries

  /** `StockData`: a quote and the company it belongs to. */
  datatype Stock = Stock(
    symbol: string, name: string,
    price: real, change: real, changePercent: real,
    marketCap: int, volume: int, avgVolume: int,
    pe: real, dividend: real, eps: real,
    high52: real, low52: real, open: real, prevClose: real,
    sector: string)

  /** `PortfolioHolding`: a position and its value at the current price. */
  datatype Holding = Holding(
    symbol: string, name: string,
    shares: real, averageCost: real, currentPrice: real,
    change: real, changePercent: real, value: real,
    sector: string, color: string)

  datatype TransactionKind = Buy | Sell

  /** `Transaction`, dated `daysAgo` days before now. */
  datatype Transaction = Transaction(
    id: string, kind: TransactionKind, symbol: string, name: string,
    shares: real, price: real, daysAgo: nat, total: real)

  /** `Article`, with the fields the dashboard filters and orders by. */
  datatype Article = Article(id: string, title: string, source: string, daysAgo: nat)

  /** One entry of `financialGlossary`. */
  datatype GlossaryTerm = GlossaryTerm(term: string, definition: string)

  /** One slice of the `sectorAllocation` pie, `value` in percent. */
  datatype SectorSlice = SectorSlice(name: string, value: int, color: string)

  /** A fixture quote: its change is price minus previous close, its percentage that change over the close in cents, and the price lies within the 52-week range. */
  ghost predicate ConsistentQuote(s: Stock)
  {
    && s.prevClose > 0.0
    && s.change == s.price - s.prevClose
    && s.changePercent == Round2(s.change / s.prevClose * 100.0)
    && s.low52 <= s.price <= s.high52
  }

  /** `mockStocks`. */
  function MockStocks(): (r: seq<Stock>)
    ensures |r| == 10
    ensures forall i :: 0 <= i < |r| ==> r[i].low52 <= r[i].price <= r[i].high52 && r[i].prevClose > 0.0
    ensures forall i, j :: 0 <= i < j < |r| ==> r[i].symbol != r[j].symbol
  {
    [ Stock("AAPL", "Apple Inc.", 182.52, 1.25, 0.69, 2850000000000, 52500000, 60000000,
            28.5, 0.92, 6.40, 199.62, 143.90, 181.27, 181.27, "Technology"),
      Stock("MSFT", "Microsoft Corporation", 417.88, 2.45, 0.59, 3100000000000, 22300000, 26000000,
            35.8, 0.75, 11.65, 430.82, 309.35, 415.43, 415.43, "Technology"),
      Stock("GOOGL", "Alphabet Inc.", 175.98, -0.72, -0.41, 2200000000000, 21000000, 28000000,
            26.4, 0.0, 6.67, 178.12, 120.21, 176.70, 176.70, "Technology"),
      Stock("AMZN", "Amazon.com Inc.", 186.45, 1.18, 0.64, 1950000000000, 35000000, 42000000,
            59.2, 0.0, 3.15, 189.77, 118.35, 185.27, 185.27, "Consumer Cyclical"),
      Stock("META", "Meta Platforms Inc.", 506.78, 3.45, 0.69, 1300000000000, 18500000, 22000000,
            27.3, 0.0, 18.57, 531.49, 274.38, 503.33, 503.33, "Technology"),
      Stock("TSLA", "Tesla Inc.", 172.63, -2.88, -1.64, 550000000000, 103000000, 115000000,
            46.8, 0.0, 3.69, 299.29, 138.80, 175.51, 175.51, "Consumer Cyclical"),
      Stock("NVDA", "NVIDIA Corporation", 942.89, 13.56, 1.46, 2320000000000, 42000000, 49000000,
            88.1, 0.04, 10.70, 974.00, 300.95, 929.33, 929.33, "Technology"),
      Stock("JPM", "JPMorgan Chase & Co.", 198.44, 0.75, 0.38, 570000000000, 8500000, 9500000,
            12.1, 4.20, 16.40, 200.94, 135.19, 197.69, 197.69, "Financial Services"),
      Stock("V", "Visa Inc.", 273.58, 1.22, 0.45, 560000000000, 5200000, 6700000,
            30.5, 2.08, 8.97, 290.96, 227.78, 272.36, 272.36, "Financial Services"),
      Stock("JNJ", "Johnson & Johnson", 147.62, -0.35, -0.24, 355000000000, 6800000, 7300000,
            9.2, 4.76, 16.05, 169.45, 143.29, 147.97, 147.97, "Healthcare") ]
  }

  /** Every stock fixture's change and percent change agree with its price and previous close. */
  lemma MockStocksConsistent()
    ensures forall i :: 0 <= i < |MockStocks()| ==> ConsistentQuote(MockStocks()[i])
  {
    var r := MockStocks();
    forall i | 0 <= i < |r| ensures ConsistentQuote(r[i]) {
      QuoteAt(r, i);
    }
  }

  lemma QuoteAt(r: seq<Stock>, i: nat)
    requires r == MockStocks() && i < |r|
    ensures ConsistentQuote(r[i])
  {
    var s := r[i];
    assert s.change == s.price - s.prevClose;
    var x := s.change / s.prevClose * 100.0;
    assert Cents(x) as real / 100.0 == s.changePercent;
  }

  /** A holding's value is its shares at the current price. */
  ghost predicate ValuedAtCurrentPrice(h: Holding)
  {
    h.value == h.shares * h.currentPrice
  }

  /** A holding quotes the same name, sector, price and change as the stock `s`. */
  predicate QuotedLike(h: Holding, s: Stock)
  {
    s.symbol == h.symbol && s.name == h.name && s.sector == h.sector
    && s.price == h.currentPrice && s.change == h.change && s.changePercent == h.changePercent
  }

  /** `mockPortfolio`. */
  function MockPortfolio(): (r: seq<Holding>)
    ensures |r| == 6
    ensures forall i :: 0 <= i < |r| ==> ValuedAtCurrentPrice(r[i]) && r[i].shares > 0.0 && r[i].averageCost > 0.0
    ensures forall i, j :: 0 <= i < j < |r| ==> r[i].symbol != r[j].symbol
  {
    [ Holding("AAPL", "Apple Inc.", 25.0, 165.75, 182.52, 1.25, 0.69, 4563.00, "Technology", "#E35756"),
      Holding("MSFT", "Microsoft Corporation", 10.0, 390.25, 417.88, 2.45, 0.59, 4178.80, "Technology", "#3D87FC"),
      Holding("NVDA", "NVIDIA Corporation", 5.0, 750.50, 942.89, 13.56, 1.46, 4714.45, "Technology", "#78B954"),
      Holding("AMZN", "Amazon.com Inc.", 15.0, 170.30, 186.45, 1.18, 0.64, 2796.75, "Consumer Cyclical", "#F7C75C"),
      Holding("JPM", "JPMorgan Chase & Co.", 12.0, 180.15, 198.44, 0.75, 0.38, 2381.28, "Financial Services", "#9B87F5"),
      Holding("JNJ", "Johnson & Johnson", 10.0, 152.75, 147.62, -0.35, -0.24, 1476.20, "Healthcare", "#5DD9D4") ]
  }

  /** Every holding quotes its stock exactly as the `mockStocks` entry of the same symbol does. */
  lemma MockPortfolioQuotesMockStocks()
    ensures forall i :: 0 <= i < |MockPortfolio()| ==>
      exists j :: 0 <= j < |MockStocks()| && QuotedLike(MockPortfolio()[i], MockStocks()[j])
  {
    var p, s := MockPortfolio(), MockStocks();
    assert QuotedLike(p[0], s[0]) && QuotedLike(p[1], s[1]) && QuotedLike(p[2], s[6]);
    assert QuotedLike(p[3], s[3]) && QuotedLike(p[4], s[7]) && QuotedLike(p[5], s[9]);
  }

  /** `mockTransactions`. */
  function MockTransactions(): (r: seq<Transaction>)
    ensures |r| == 8
    ensures forall i :: 0 <= i < |r| ==> r[i].total == r[i].shares * r[i].price && r[i].shares > 0.0
    ensures forall i, j :: 0 <= i < j < |r| ==> r[i].daysAgo > r[j].daysAgo
  {
    [ Transaction("tx-1", Buy, "AAPL", "Apple Inc.", 5.0, 168.82, 55, 844.10),
      Transaction("tx-2", Buy, "MSFT", "Microsoft Corporation", 3.0, 395.45, 43, 1186.35),
      Transaction("tx-3", Sell, "TSLA", "Tesla Inc.", 2.0, 195.21, 38, 390.42),
      Transaction("tx-4", Buy, "NVDA", "NVIDIA Corporation", 2.0, 802.75, 30, 1605.50),
      Transaction("tx-5", Buy, "AMZN", "Amazon.com Inc.", 5.0, 175.35, 22, 876.75),
      Transaction("tx-6", Buy, "JPM", "JPMorgan Chase & Co.", 4.0, 185.23, 15, 740.92),
      Transaction("tx-7", Buy, "AAPL", "Apple Inc.", 3.0, 180.15, 7, 540.45),
      Transaction("tx-8", Buy, "NVDA", "NVIDIA Corporation", 1.0, 900.50, 3, 900.50) ]
  }

  /** `mockArticles`, newest first. */
  function MockArticles(): (r: seq<Article>)
    ensures |r| == 5
    ensures forall i, j :: 0 <= i < j < |r| ==> r[i].daysAgo < r[j].daysAgo
  {
    [ Article("article-1", "Apple Announces New AI Features for iOS 18", "TechCrunch", 1),
      Article("article-2", "NVIDIA Surpasses $2.3 Trillion Market Cap on AI Boom", "Bloomberg", 2),
      Article("article-3", "Fed Signals Potential Rate Cuts After Inflation Eases", "Wall Street Journal", 3),
      Article("article-4", "Microsoft's Cloud Revenue Surges, Boosting Quarterly Results", "CNBC", 4),
      Article("article-5", "Amazon Expands Healthcare Initiative with New Acquisition", "Reuters", 5) ]
  }

  /** `financialGlossary`, in the order the glossary tab lists it. */
  function FinancialGlossary(): seq<GlossaryTerm>
  {
    [ GlossaryTerm("Bear Market",
        "A market condition in which the prices of securities are falling, and widespread pessimism causes the negative sentiment to be self-sustaining."),
      GlossaryTerm("Bull Market",
        "A financial market of a group of securities in which prices are rising or are expected to rise."),
      GlossaryTerm("Dividend",
        "A distribution of a portion of a company's earnings, decided by the board of directors, to a class of its shareholders."),
      GlossaryTerm("ETF (Exchange-Traded Fund)",
        "A type of investment fund and exchange-traded product, with shares that trade on stock exchanges."),
      GlossaryTerm("Market Capitalization",
        "The total dollar market value of a company's outstanding shares, calculated by multiplying the total number of a company's outstanding shares by the current market price of one share."),
      GlossaryTerm("P/E Ratio (Price-to-Earnings Ratio)",
        "A valuation ratio of a company's current share price compared to its per-share earnings."),
      GlossaryTerm("Volatility",
        "A statistical measure of the dispersion of returns for a given security or market index."),
      GlossaryTerm("Yield",
        "The income return on an investment, such as the interest or dividends received from holding a particular security."),
      GlossaryTerm("Blue Chip",
        "A nationally recognized, well-established, and financially sound company that typically offers reliable products or services, significant dividends, and consistent growth."),
      GlossaryTerm("Capital Gain",
        "An increase in the value of a capital asset that gives it a higher worth than the purchase price.") ]
  }

  function SlicePercentSum(slices: seq<SectorSlice>): int
  {
    if slices == [] then 0 else SlicePercentSum(slices[..|slices| - 1]) + slices[|slices| - 1].value
  }

  /** `sectorAllocation`: a fixed table whose percentages add up to 100. */
  function SectorAllocation(): (r: seq<SectorSlice>)
    ensures |r| == 4
    ensures SlicePercentSum(r) == 100
    ensures forall i :: 0 <= i < |r| ==> r[i].value > 0
  {
    var r := [ SectorSlice("Technology", 70, "#9b87f5"),
               SectorSlice("Consumer Cyclical", 15, "#F7C75C"),
               SectorSlice("Financial Services", 10, "#5DD9D4"),
               SectorSlice("Healthcare", 5, "#E35756") ];
    assert SlicePercentSum(r[..1]) == 70 by { assert r[..1][..0] == []; }
    assert SlicePercentSum(r[..2]) == 85 by { assert r[..2][..1] == r[..1]; }
    assert SlicePercentSum(r[..3]) == 95 by { assert r[..3][..2] == r[..2]; }
    assert r[..4][..3] == r[..3] && r[..4] == r;
    r
  }

  /** `portfolioPulseMetrics`: the fixed health scores the pulse card shows. */
  datatype PulseMetrics = PulseMetrics(
    diversificationScore: int, riskScore: int, performanceScore: int, overallHealth: int,
    recommendations: seq<string>)

  function PortfolioPulseMetrics(): (m: PulseMetrics)
    ensures |m.recommendations| == 3
    ensures 0 <= m.riskScore <= 100 && 0 <= m.overallHealth <= 100
  {
    PulseMetrics(65, 72, 85, 76, [
      "Consider adding more healthcare stocks to improve diversification",
      "Your technology exposure is relatively high",
      "Add some bonds to reduce overall portfolio risk"])
  }

  // ---------------------------------------------------------------------
  // Portfolio totals: the `reduce` sums, folded left to right.
  // ---------------------------------------------------------------------

  /** `portfolioValue`: the sum of the holdings' values. */
  function PortfolioValue(hs: seq<Holding>): (r: real)
    ensures (forall i :: 0 <= i < |hs| ==> hs[i].value >= 0.0) ==> r >= 0.0
  {
    if hs == [] then 0.0 else PortfolioValue(hs[..|hs| - 1]) + hs[|hs| - 1].value
  }

  /** `totalInvested`: the sum of shares times average cost. */
  function TotalInvested(hs: seq<Holding>): (r: real)
    ensures (forall i :: 0 <= i < |hs| ==> hs[i].shares > 0.0 && hs[i].averageCost > 0.0) && hs != [] ==> r > 0.0
  {
    if hs == [] then 0.0
    else
      var h := hs[|hs| - 1];
      assert h.shares > 0.0 && h.averageCost > 0.0 ==> h.shares * h.averageCost > 0.0;
      TotalInvested(hs[..|hs| - 1]) + h.shares * h.averageCost
  }

  /** `totalGainLoss`: the sum of shares times the gain per share. */
  function TotalGainLoss(hs: seq<Holding>): (r: real)
    ensures (forall i :: 0 <= i < |hs| ==> hs[i].shares >= 0.0 && hs[i].currentPrice >= hs[i].averageCost) ==> r >= 0.0
    ensures (forall i :: 0 <= i < |hs| ==> hs[i].shares >= 0.0 && hs[i].currentPrice <= hs[i].averageCost) ==> r <= 0.0
  {
    if hs == [] then 0.0
    else
      var h := hs[|hs| - 1];
      assert h.shares >= 0.0 && h.currentPrice >= h.averageCost ==> h.shares * (h.currentPrice - h.averageCost) >= 0.0;
      LossNotAboveZero(h.shares, h.currentPrice, h.averageCost);
      TotalGainLoss(hs[..|hs| - 1]) + h.shares * (h.currentPrice - h.averageCost)
  }

  /** Shares bought above the current price lose money or break even. */
  lemma LossNotAboveZero(shares: real, price: real, cost: real)
    ensures shares >= 0.0 && price <= cost ==> shares * (price - cost) <= 0.0
  {
    if shares >= 0.0 && price <= cost {
      ScaleMonotone(shares, price, cost);
    }
  }

  /** When every holding is valued at its current price, gain/loss is value minus amount invested. */
  lemma {:induction false} GainLossIsValueMinusInvested(hs: seq<Holding>)
    requires forall i :: 0 <= i < |hs| ==> ValuedAtCurrentPrice(hs[i])
    ensures TotalGainLoss(hs) == PortfolioValue(hs) - TotalInvested(hs)
  {
    if hs != [] {
      var h := hs[|hs| - 1];
      GainLossIsValueMinusInvested(hs[..|hs| - 1]);
      assert h.shares * (h.currentPrice - h.averageCost) == h.value - h.shares * h.averageCost;
    }
  }

  /** Taking one holding out lowers the portfolio value by exactly that holding's value. */
  lemma {:induction false} PortfolioValueWithout(hs: seq<Holding>, i: nat)
    requires i < |hs|
    ensures PortfolioValue(hs) == PortfolioValue(hs[..i] + hs[i + 1..]) + hs[i].value
  {
    var rest := hs[..i] + hs[i + 1..];
    if i == |hs| - 1 {
      assert rest == hs[..|hs| - 1];
    } else {
      var init := hs[..|hs| - 1];
      PortfolioValueWithout(init, i);
      assert rest[..|rest| - 1] == init[..i] + init[i + 1..];
      assert rest[|rest| - 1] == hs[|hs| - 1];
    }
  }

  /** `totalGainLossPercent`: gain/loss over amount invested, in percent; `None` when nothing is invested. */
  function GainLossPercent(gainLoss: real, invested: real): (r: Option<real>)
    ensures r.Some? <==> invested != 0.0
    ensures invested > 0.0 ==> (r.value >= 0.0 <==> gainLoss >= 0.0)
    ensures r.Some? ==> r.value * invested == gainLoss * 100.0
  {
    match Ratio(gainLoss, invested)
    case None => None
    case Some(q) =>
      assert q * 100.0 * invested == q * invested * 100.0;
      Some(q * 100.0)
  }

  /** `portfolioPerformance`: derived totals, fixed period changes and a year of history. */
  datatype Performance = Performance(
    totalValue: real, totalInvested: real, totalGainLoss: real, totalGainLossPercent: Option<real>,
    dailyChange: real, dailyChangePercent: real, weeklyChange: real, weeklyChangePercent: real,
    monthlyChange: real, monthlyChangePercent: real, yearlyChange: real, yearlyChangePercent: real,
    historicalData: seq<TimePoint>)

  /**
   * Builds `portfolioPerformance` from the holdings: the percentage is first
   * zero and is then overwritten with gain/loss over amount invested.
   */
  method BuildPortfolioPerformance(holdings: seq<Holding>, draws: seq<real>) returns (perf: Performance)
    requires |draws| == 366
    ensures perf.totalValue == PortfolioValue(holdings)
    ensures perf.totalInvested == TotalInvested(holdings)
    ensures perf.totalGainLoss == TotalGainLoss(holdings)
    ensures perf.totalGainLossPercent == GainLossPercent(TotalGainLoss(holdings), TotalInvested(holdings))
    ensures perf.dailyChange == 245.68 && perf.dailyChangePercent == 1.23
    ensures perf.weeklyChange == 532.25 && perf.weeklyChangePercent == 2.75
    ensures perf.monthlyChange == 1245.75 && perf.monthlyChangePercent == 6.65
    ensures perf.yearlyChange == 3721.50 && perf.yearlyChangePercent == 22.89
    ensures perf.historicalData == WalkSeries(Day, 365, PortfolioValue(holdings) * 0.75, 0.01, 0.0012, draws)
  {
    var portfolioValue := PortfolioValue(holdings);
    var history := GenerateTimeSeriesData(365, portfolioValue * 0.75, 0.01, 0.0012, draws);
    perf := Performance(portfolioValue, TotalInvested(holdings), TotalGainLoss(holdings), Some(0.0),
                        245.68, 1.23, 532.25, 2.75, 1245.75, 6.65, 3721.50, 22.89, history);
    perf := perf.(totalGainLossPercent := GainLossPercent(perf.totalGainLoss, perf.totalInvested));
  }

  /** The fixture's totals: 20110.48 held, 18042.55 invested, 2067.93 gained. */
  lemma MockPortfolioTotals()
    ensures PortfolioValue(MockPortfolio()) == 20110.48
    ensures TotalInvested(MockPortfolio()) == 18042.55
    ensures TotalGainLoss(MockPortfolio()) == 2067.93
  {
    var p := MockPortfolio();
    assert p[..1][..0] == [] && p[..2][..1] == p[..1] && p[..3][..2] == p[..2];
    assert p[..4][..3] == p[..3] && p[..5][..4] == p[..4] && p[..6][..5] == p[..5] && p[..6] == p;
    assert PortfolioValue(p[..1]) == 4563.00;
    assert PortfolioValue(p[..2]) == 8741.80;
    assert PortfolioValue(p[..3]) == 13456.25;
    assert PortfolioValue(p[..4]) == 16253.00;
    assert PortfolioValue(p[..5]) == 18634.28;
    assert TotalInvested(p[..1]) == 4143.75;
    assert TotalInvested(p[..2]) == 8046.25;
    assert TotalInvested(p[..3]) == 11798.75;
    assert TotalInvested(p[..4]) == 14353.25;
    assert TotalInvested(p[..5]) == 16515.05;
    GainLossIsValueMinusInvested(p);
  }
}
