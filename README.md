# Apple Finance Pulse: the dashboard's computations, modelled in Dafny

Apple Finance Pulse is a React finance dashboard that runs on mock data. The
components contain small computations, and this project models them:

- **Mock series.** `generateTimeSeriesData` and `generateIntradayData` build random walks with a floor of 0.1. `generatePeriodData` maps a chart range to a generator.
- **Fixtures and portfolio totals.** These are the stock, holding, transaction, article and glossary fixtures, the sector table and the health scores, plus the value, invested and gain/loss sums with the derived percentage.
- **Portfolio page.**
  - The one-holding scenario projected onto the portfolio total.
  - The holdings table, filtered case-insensitively and sorted by one of four keys in either order.
  - The sort-order toggle.
  - The "Most Valuable" cell, which sorts the shared holdings array in place.
- **Stock page.**
  - The five-second price tick.
  - The analyst targets, the consensus and the upside.
  - The related stocks.
  - The range buttons that regenerate the chart.
- **Watchlist card.** The price refresh and its loading flag.
- **News carousel.** The index with wrap-around, and the autoplay flag that manual navigation switches off.
- **Line chart.** The line colour, the x-axis label granularity and the y-axis domain.
- **Insights page.** The glossary search, the top gainers and losers, the news category filter, the count label and the tip badges.
- **Stocks page.** The search and sector filter, Clear Filters and the empty-result message.
- **Top Holdings card.** It sorts the shared holdings array in place and shows four holdings.
- **Portfolio Pulse card.** The score, progress, health-label and risk colour bands.
- **Portfolio Value card.** The range-to-change dispatch, the caption and the chart regeneration.

### Modelling conventions

- **Numbers.** JavaScript numbers are Dafny `real`s. `parseFloat(x.toFixed(2))` is `Numbers.Round2`, which rounds half away from zero to whole cents.
- **Division.** A division that JavaScript would turn into `NaN` or `Infinity` yields `None`.
- **Randomness.** Each `Math.random()` result is a parameter in [0, 1). A series takes a sequence of such draws, consumed in order.
- **Dates.** A date is a whole number of days or hours before now.
- **Strings.**
  - `toLowerCase` lowers ASCII letters.
  - `localeCompare` compares character codes.
  - Chart ranges, sort keys and filter values stay strings, so the source's `default` branches remain reachable.
- **State.** Component state the source updates in place is a `class` whose methods change its fields: the carousel, the watchlist card, the stock page quote, the portfolio page's controls, the Stocks page's filters and the Portfolio Value card's range. The two generators are `while` loops proved equal to a function of their draws. The shared `mockPortfolio` array is sorted in place by an insertion sort on an `array`.

The code has no error paths, and the model adds none:

- A scenario on a symbol that is not held changes nothing. It raises no error.
- `totalGainLossPercent` is a plain division. It is undefined (`None`) when nothing is invested.
- There is no cash field, no ticker object with subscribers, and no error type. Buying and selling only show a message.

## Model

| member | source | states |
|---|---|---|
| MockSeries.WalkSeries | src/utils/mockData.ts:91-103 | a series for `steps` has `steps + 1` points dated from `steps` units ago down to now in strictly decreasing distance, all of the given unit, and every value is at least 0.1 |
| MockSeries.Step | src/utils/mockData.ts:95-96 | one step of the walk never goes below the floor of 0.1 |
| MockSeries.StepWithoutTrendBound | src/utils/mockData.ts:95-96 | with a draw in [0, 1) and no trend, one step moves the value by at most half of volatility times value, up or down, before the floor applies |
| MockSeries.GenerateTimeSeriesData | src/utils/mockData.ts:82-104 | the daily loop's output equals the walk series for its draws, with a trend |
| MockSeries.GenerateIntradayData | src/utils/mockData.ts:108-130 | the hourly loop's output equals the walk series with no trend term |
| MockSeries.PeriodParamsOf | src/utils/mockData.ts:133-150 | the daily generator exactly for 1W, 1M, 3M, 1Y and 5Y and the hourly one for 1D and every other value; a positive trend exactly for 1Y and 5Y; always a positive volatility |
| MockSeries.PeriodPointCounts | src/utils/mockData.ts:135-148 | each range's chart has 7, 8, 31, 91, 366 or 1826 points |
| MockSeries.GeneratePeriodData | src/utils/mockData.ts:133-150 | the switch returns the walk series of the range's parameters |
| MockData.MockStocks | src/utils/mockData.ts:153-344 | ten stocks with distinct symbols, each priced within its 52-week range and with a positive previous close |
| MockData.MockStocksConsistent | src/utils/mockData.ts:153-344 | every stock's change is price minus previous close, and its percent change is that change over the close, rounded to cents |
| MockData.MockPortfolio | src/utils/mockData.ts:347-426 | six holdings with distinct symbols; each is valued at shares times current price, with positive shares and cost |
| MockData.MockPortfolioQuotesMockStocks | src/utils/mockData.ts:347-426 | every holding repeats the name, sector, price and change of the stock of the same symbol |
| MockData.MockTransactions | src/utils/mockData.ts:453-534 | eight transactions, each totalling shares times price, listed from oldest to newest |
| MockData.MockArticles | src/utils/mockData.ts:537-583 | five articles, newest first |
| MockData.SectorAllocation | src/utils/mockData.ts:669-674 | four positive slices whose percentages add up to 100 |
| MockData.PortfolioPulseMetrics | src/utils/mockData.ts:677-687 | the risk score and the overall health lie in 0..100, and there are three recommendations |
| MockData.PortfolioValue | src/utils/mockData.ts:429 | the sum of holding values is non-negative when every value is |
| MockData.TotalInvested | src/utils/mockData.ts:434 | the amount invested is positive for a non-empty portfolio of positive positions |
| MockData.GainLossIsValueMinusInvested | src/utils/mockData.ts:434-435 | when every holding is valued at its current price, total gain/loss equals value minus amount invested |
| MockData.TotalGainLoss | src/utils/mockData.ts:435 | with every holding at or above its cost the total gain/loss is not negative; with every holding at or below its cost it is not positive |
| MockData.PortfolioValueWithout | src/utils/mockData.ts:429 | taking one holding out of the sum lowers it by exactly that holding's value |
| MockData.GainLossPercent | src/utils/mockData.ts:449-450 | the percentage is defined exactly when something is invested, and then times the investment it is gain/loss times 100, i.e. gain/loss / invested * 100; for a positive investment it is non-negative exactly on a gain |
| MockData.BuildPortfolioPerformance | src/utils/mockData.ts:432-450 | the performance record carries the three sums, the percentage computed after construction, the fixed period changes and a year of history from 75% of the value |
| MockData.MockPortfolioTotals | src/utils/mockData.ts:347-435 | the fixture portfolio is worth 20110.48, of which 18042.55 invested and 2067.93 gained |
| PortfolioPage.Find | src/pages/Portfolio.tsx:48 | no holding is found exactly when no symbol matches; otherwise the first matching holding is returned |
| PortfolioPage.ScenarioChange | src/pages/Portfolio.tsx:47 | a slider position in -100..100 becomes a fraction in [-1, 1] that is one hundredth of it |
| PortfolioPage.ProjectScenario | src/pages/Portfolio.tsx:46-51 | the change is the holding's value times the slider percent, or 0 for a symbol not held; the new total is the old total plus the change; the percentage is change over total, undefined for a zero total |
| PortfolioPage.ScenarioAtZero | src/pages/Portfolio.tsx:47-51 | at slider 0 the projected total is the current total and the change is 0% |
| PortfolioPage.ScenarioUnknownSymbol | src/pages/Portfolio.tsx:48-50 | a symbol that is not held leaves the total unchanged |
| PortfolioPage.ScenarioWipesHolding | src/pages/Portfolio.tsx:47-50 | at -100% the projected total is the value of the other holdings |
| PortfolioPage.ScenarioNeverNegative | src/pages/Portfolio.tsx:47-50 | with non-negative holding values, no slider position projects a negative total |
| PortfolioPage.Shock | src/pages/Portfolio.tsx:47-49 | a held symbol's value change is its value times the slider's percent |
| PortfolioPage.PercentOf | src/pages/Portfolio.tsx:51 | the change in percent of the total is defined exactly for a non-zero total, and times the total it is the change times 100 |
| PortfolioPage.ShockAtMostWholeValue | src/pages/Portfolio.tsx:47-50 | a scenario on a held symbol of non-negative value loses at most that holding's whole value |
| PortfolioPage.FilteredHoldings | src/pages/Portfolio.tsx:55-58 | a holding is kept iff its lowercased name or symbol contains the lowercased filter, every copy of a kept holding stays, in portfolio order |
| PortfolioPage.MatchesFilter | src/pages/Portfolio.tsx:55-58 | a holding matches exactly when the lowercased filter occurs at some position of its lowercased name or symbol; the empty filter matches every holding |
| PortfolioPage.EmptyFilterKeepsAll | src/pages/Portfolio.tsx:55-58 | an empty filter keeps every holding in order |
| PortfolioPage.NumericKey | src/pages/Portfolio.tsx:62-80 | "price" sorts by current price, "change" by percent change, and "value" and every other key by value |
| PortfolioPage.AscCompare | src/pages/Portfolio.tsx:83-92 | ascending, a holding may precede another exactly when its symbol compares no later, or its numeric key is no larger; the comparison is 0 exactly for equal symbols or equal keys |
| PortfolioPage.Compare | src/pages/Portfolio.tsx:83-92 | ascending as `AscCompare`; descending, a holding may precede another exactly when the other's symbol compares no later, or its key is no smaller |
| PortfolioPage.Toggled | src/pages/Portfolio.tsx:139 | the toggle always changes the order |
| PortfolioPage.ToggleTwiceRestores | src/pages/Portfolio.tsx:139 | toggling twice gives back the original order |
| PortfolioPage.DescNegatesAsc | src/pages/Portfolio.tsx:84-92 | the descending comparator is the negation of the ascending one, for symbols as well as numbers |
| PortfolioPage.CompareIsTotalPreorder | src/pages/Portfolio.tsx:59-93 | for every sort key and order the comparator is total and transitive |
| PortfolioPage.SortedAndFilteredHoldings | src/pages/Portfolio.tsx:54-93 | the table holds exactly the filtered holdings, each as often as before, ordered by the chosen comparator |
| PortfolioPage.DefaultSortIsValueDescending | src/pages/Portfolio.tsx:76-80 | with the default "value" key, or any key the switch does not know, descending order lists values from largest to smallest |
| PortfolioPage.PortfolioView.constructor | src/pages/Portfolio.tsx:40-44 | the page opens sorted by value, descending, with no filter and the slider at 0 on AAPL |
| PortfolioPage.PortfolioView.Rows | src/pages/Portfolio.tsx:54-93 | the rows are the holdings matching the filter, sorted under the current key and order |
| PortfolioPage.PortfolioView.Projection | src/pages/Portfolio.tsx:46-51 | the projected total is the portfolio value plus the scenario's value change |
| PortfolioPage.PortfolioView.ToggleSortOrder | src/pages/Portfolio.tsx:139 | the order flips and every other control keeps its value |
| PortfolioPage.PortfolioView.SetSortBy | src/pages/Portfolio.tsx:124 | the sort key is replaced and every other control keeps its value |
| PortfolioPage.PortfolioView.SetFilter | src/pages/Portfolio.tsx:119 | the filter text is replaced and every other control keeps its value |
| PortfolioPage.PortfolioView.SetScenarioValue | src/pages/Portfolio.tsx:293-299 | the slider takes a whole percent in -100..100 and every other control keeps its value |
| PortfolioPage.PortfolioView.SetScenarioStock | src/pages/Portfolio.tsx:274 | the scenario symbol is replaced and every other control keeps its value |
| PortfolioPage.MostValuable | src/pages/Portfolio.tsx:398 | the shared array is permuted in place into non-increasing value order, holdings of equal value keeping their order; the symbol shown is that of a holding at least as valuable as every holding, and every holding the array had before it is worth strictly less, so it is the first of the largest |
| ValueOrder.SortByValueDesc | src/pages/Portfolio.tsx:398 | the in-place sort leaves exactly the list of the stable functional sort by value, largest first: the same holdings, each as often as before, values non-increasing, and the holdings of each value in the order they had |
| ValueOrder.SinkInto | src/pages/Portfolio.tsx:398 | one insertion step of the in-place sort makes the first i + 1 elements the functional insertion of element i into the first i, and leaves the rest alone |
| ValueOrder.SortedByValue | src/pages/Portfolio.tsx:398 | the functional sort by value is a permutation, non-increasing in value, and keeps each value's holdings in list order |
| ValueOrder.HeadIsLargest | src/pages/Portfolio.tsx:398 | the first holding after the sort is worth at least as much as every holding |
| ValueOrder.FirstOfLargest | src/pages/Portfolio.tsx:398 | the first holding after the sort is the first holding of the largest value in the original order: every holding before it there is worth strictly less |
| TopStocks.TopHoldings | src/components/dashboard/TopStocks.tsx:9-11 | the shared array is permuted into value order, holdings of equal value keeping their order; the card shows its first min(4, n) holdings, in non-increasing value, none left out is worth more than one shown, and the shown holdings of each value are the first of that value in the original order |
| StockDetails.FindStock | src/pages/StockDetails.tsx:63-65 | no stock is found exactly when no symbol matches; otherwise the first stock of that symbol in list order is returned |
| StockDetails.TickRandomChange | src/pages/StockDetails.tsx:96 | the random change lies in [-0.2, 0.2) percent |
| StockDetails.TickPrice | src/pages/StockDetails.tsx:96-97 | the new price is the old one moved by the drawn percentage, rounded to whole cents (within half a cent of the moved price), so also within 0.2% of the old one, give or take half a cent |
| StockDetails.TickChange | src/pages/StockDetails.tsx:98 | the change is in whole cents, within half a cent of price minus previous close, and exactly that when both are in cents |
| StockDetails.TickChangePercent | src/pages/StockDetails.tsx:99 | the percentage is defined exactly for a non-zero close, is in whole cents, and is within half a cent of change over close times 100 |
| StockDetails.TickKeepsQuoteConsistent | src/pages/StockDetails.tsx:96-103 | after a tick on a close in cents, the change is exactly the new price minus the close, and the price stays within 0.2% (and half a cent) of the old one |
| StockDetails.StockPage.constructor | src/pages/StockDetails.tsx:65-77 | the quote starts at the fixture's price and change, and the chart is the 1M series from the stock's price |
| StockDetails.StockPage.Tick | src/pages/StockDetails.tsx:95-104 | the quote becomes the tick of the old price against the previous close; the range and chart are unchanged |
| StockDetails.StockPage.SelectRange | src/pages/StockDetails.tsx:84-89 | the chart is regenerated for the new range from the stock's fixture price, and the quote is unchanged |
| StockDetails.StockPage.IsPositive | src/pages/StockDetails.tsx:137 | the quote is positive exactly when the change is at least 0 |
| StockDetails.StockPage.LineColor | src/pages/StockDetails.tsx:218 | the chart is green exactly when positive and red otherwise |
| StockDetails.RenderedAnalystRatings | src/pages/StockDetails.tsx:52-59 | the ratings the page renders: 28 votes and all three targets at zero |
| StockDetails.AnalystRatingsFor | src/pages/StockDetails.tsx:72-74 | the targets are within half a cent of 115%, 135% and 90% of the price, and for a non-negative price low <= target <= high |
| StockDetails.AnalystTargetsOrdered | src/pages/StockDetails.tsx:72-74 | from a price of 0.05 upwards, low < target < high strictly |
| StockDetails.AnalystTargetsCollapseAtOneCent | src/pages/StockDetails.tsx:72-74 | at a price of 0.01 all three targets are 0.01 |
| StockDetails.Consensus | src/pages/StockDetails.tsx:477-481 | "Buy" iff buys outnumber the rest, "Sell" iff sells outnumber the rest without a buy majority, "Hold" otherwise |
| StockDetails.MajoritiesExclusive | src/pages/StockDetails.tsx:477-481 | for non-negative counts, a buy majority and a sell majority never hold together |
| StockDetails.PageConsensusIsBuy | src/pages/StockDetails.tsx:475-481 | the page's 18 / 7 / 3 split reads "Buy" |
| StockDetails.Upside | src/pages/StockDetails.tsx:491-495 | the upside is defined exactly for a non-zero price, and then times the price it is (target - price) * 100, i.e. (target / price - 1) * 100; at a positive price it is positive exactly when it is coloured as a gain, and 0 exactly at the target |
| StockDetails.UpsideIsGain | src/pages/StockDetails.tsx:491-495 | at a positive price the gain colour is chosen exactly when the printed upside target / price - 1 is positive |
| StockDetails.TargetBarPosition | src/pages/StockDetails.tsx:414-421 | the position is defined exactly for a non-empty target range, and lies in 0..100 when the target is within the range |
| StockDetails.RenderedTargetsShowTotalLoss | src/pages/StockDetails.tsx:487-495 | as rendered, the upside is -100% in the loss colour at every positive price, and the target bar has no position |
| StockDetails.ComputedTargetsShowUpside | src/pages/StockDetails.tsx:72-74 | with computed targets, the upside at the stock's price is positive and a gain, and the target sits strictly inside the bar |
| StockDetails.SameSector | src/pages/StockDetails.tsx:141 | the other stocks of the same sector, an order-preserving sublist of the list |
| StockDetails.RelatedStocks | src/pages/StockDetails.tsx:140-142 | at most three stocks of the same sector other than the stock itself, the first ones in list order, and all of them when there are fewer than three |
| Watchlist.RefreshRandomChange | src/components/dashboard/WatchlistCard.tsx:21 | the random change lies in [-0.5, 0.5) percent |
| Watchlist.RefreshStock | src/components/dashboard/WatchlistCard.tsx:20-29 | every field but the quote is kept; change is new price minus previous close; percent change is that over the close; the new price is the old one moved by exactly the drawn percentage, without rounding, so by at most 0.5% |
| Watchlist.RefreshAll | src/components/dashboard/WatchlistCard.tsx:20-30 | the list keeps its length, order, symbols and closes, and each change is recomputed from the close |
| Watchlist.RefreshKeepsIdentity | src/components/dashboard/WatchlistCard.tsx:24-29 | each refreshed stock equals the old one apart from price, change and percent change |
| Watchlist.WatchlistCard.constructor | src/components/dashboard/WatchlistCard.tsx:12-13 | the card starts with the first five stocks, not loading |
| Watchlist.WatchlistCard.CanRefresh | src/components/dashboard/WatchlistCard.tsx:51 | the button is enabled exactly while not loading |
| Watchlist.WatchlistCard.BeginRefresh | src/components/dashboard/WatchlistCard.tsx:15-16 | the card is loading, and the current list is what the timeout will refresh |
| Watchlist.WatchlistCard.CompleteRefresh | src/components/dashboard/WatchlistCard.tsx:19-34 | the refreshed list is installed and loading ends |
| Watchlist.RefreshPrices | src/components/dashboard/WatchlistCard.tsx:15-35 | after a whole refresh the list is the refresh, with the given draws, of the list the click started on; the button is enabled again, with the same symbols in the same order |
| NewsCarousel.NextIndex | src/components/dashboard/NewsCarousel.tsx:13-15 | the next index stays in range: one on, and from the last back to the first |
| NewsCarousel.PrevIndex | src/components/dashboard/NewsCarousel.tsx:17-21 | the previous index stays in range |
| NewsCarousel.PrevNextInverse | src/components/dashboard/NewsCarousel.tsx:13-21 | back after forward, and forward after back, return to the same index |
| NewsCarousel.NextTimesIsShift | src/components/dashboard/NewsCarousel.tsx:13-15 | up to a full round, k steps forward land k places on, wrapping once past the end |
| NewsCarousel.FullRoundReturns | src/components/dashboard/NewsCarousel.tsx:13-15 | n steps forward return to the start |
| NewsCarousel.Carousel.constructor | src/components/dashboard/NewsCarousel.tsx:10-11 | the carousel starts on the first article, playing |
| NewsCarousel.Carousel.ClickNext | src/components/dashboard/NewsCarousel.tsx:89-92 | the index moves one on and autoplay stops |
| NewsCarousel.Carousel.ClickPrev | src/components/dashboard/NewsCarousel.tsx:77-80 | the index moves one back and autoplay stops |
| NewsCarousel.Carousel.SelectDot | src/components/dashboard/NewsCarousel.tsx:105-108 | the index is set directly and autoplay stops |
| NewsCarousel.Carousel.AutoTick | src/components/dashboard/NewsCarousel.tsx:23-31 | the timer advances the index only while autoplay is on |
| LineChart.ChartColor | src/components/charts/LineChart.tsx:56 | the line colour is the given one when positive and "#ea384c" otherwise |
| LineChart.XAxisGranularity | src/components/charts/LineChart.tsx:62-77 | times up to 24 points, days up to 31, months up to 365, years beyond |
| LineChart.GranularityMonotone | src/components/charts/LineChart.tsx:62-77 | more points never give finer labels |
| LineChart.RangeGranularities | src/components/charts/LineChart.tsx:62-77 | 1D and 1W charts get times, 1M days, 3M months, and 1Y (366 points) and 5Y years |
| LineChart.MinOf | src/components/charts/LineChart.tsx:85 | the minimum is one of the values and no value is below it |
| LineChart.MaxOf | src/components/charts/LineChart.tsx:86 | the maximum is one of the values and no value is above it |
| LineChart.YDomain | src/components/charts/LineChart.tsx:81-90 | [0, 0] for no data; the lower end is never negative and is the clamped min minus a tenth of the spread; the upper end is the max plus a tenth of the spread, so no value exceeds it; for non-negative data lower <= every value and lower <= upper |
| LineChart.SeriesFitsDomain | src/components/charts/LineChart.tsx:81-90 | every generated series lies inside its own y-axis domain |
| Insights.FilteredGlossary | src/pages/Insights.tsx:36-39 | an entry is kept iff its lowercased term or definition contains the lowercased query, every copy of a kept entry stays, in glossary order |
| Insights.GlossaryMatches | src/pages/Insights.tsx:36-39 | an entry matches exactly when the lowercased query occurs at some position of its lowercased term or definition |
| Insights.EmptyQueryShowsWholeGlossary | src/pages/Insights.tsx:36-39 | an empty query keeps the whole glossary in order |
| Insights.PrefixOfSortedLeadsRest | src/pages/Insights.tsx:42-48 | every stock left out of the sorted prefix comes after each shown one in the sort order |
| Insights.TopOfSortedCopyDrawnFromList | src/pages/Insights.tsx:42-48 | the first k of a sorted copy are min(k, n) stocks taken from the list |
| Insights.TopOfSortedCopyInOrder | src/pages/Insights.tsx:42-48 | the first k of a copy sorted by a total preorder are in that order |
| Insights.GainerFirst | src/pages/Insights.tsx:43 | `b.changePercent - a.changePercent <= 0` lets `a` stay ahead exactly when it changed at least as much as `b` |
| Insights.LoserFirst | src/pages/Insights.tsx:47 | `a.changePercent - b.changePercent <= 0` lets `a` stay ahead exactly when it changed at most as much as `b` |
| Insights.MoversKeepTiesInOrder | src/pages/Insights.tsx:42-48 | under an order that lets equal changes stand either way, the shown stocks of each percent change are the first of them in list order |
| Insights.TopGainers | src/pages/Insights.tsx:42-44 | min(3, n) stocks drawn from the list, in non-increasing percent change; none left out changed more than one shown |
| Insights.TopGainersKeepTiesInOrder | src/pages/Insights.tsx:42-44 | gainers of equal percent change appear in list order, and only the first of them are shown (AAPL ahead of META at 0.69) |
| Insights.TopLosers | src/pages/Insights.tsx:46-48 | min(3, n) stocks drawn from the list, in non-decreasing percent change; none left out changed less than one shown |
| Insights.TopLosersKeepTiesInOrder | src/pages/Insights.tsx:46-48 | losers of equal percent change appear in list order, and only the first of them are shown |
| Insights.LeadingGainerAboveLeadingLoser | src/pages/Insights.tsx:42-48 | the first loser never changed more than the first gainer |
| Insights.FilteredNews | src/pages/Insights.tsx:51-57 | an article is kept iff the filter's callback keeps it, every copy of a kept article stays, in feed order |
| Insights.NewsKeeps | src/pages/Insights.tsx:51-57 | "all" keeps every article; "market", "tech" and "finance" keep exactly the articles whose lowercased title contains the word; any other value keeps none |
| Insights.AllShowsEveryArticle | src/pages/Insights.tsx:52 | "all" keeps every article in order |
| Insights.CategoryIsTitleSearch | src/pages/Insights.tsx:53-55 | "market", "tech" and "finance" keep exactly the articles whose lowercased title contains that word |
| Insights.UnknownFilterShowsNothing | src/pages/Insights.tsx:56 | any other filter value keeps no article |
| Insights.ArticleCountLabel | src/pages/Insights.tsx:121 | the label is singular exactly for one article |
| Insights.TipBadge | src/pages/Insights.tsx:305-309 | gain for the first tip, amber for the second, primary for every later one |
| StocksPage.FilteredStocks | src/pages/Stocks.tsx:180-185 | a listing is shown iff its symbol or name contains the query case-insensitively and the sector is "All" or its own, every copy of a shown listing stays, as an order-preserving sublist |
| StocksPage.MatchesSearch | src/pages/Stocks.tsx:181-182 | a listing matches exactly when the lowercased query occurs at some position of its lowercased symbol or name; the empty query matches every listing |
| StocksPage.MatchesSector | src/pages/Stocks.tsx:183 | "All" lets every listing through, any other value exactly the listings of that sector |
| StocksPage.StockSectors | src/pages/Stocks.tsx:22-24 | seven sector buttons, "All" first |
| StocksPage.PopularStocks | src/pages/Stocks.tsx:26-127 | ten popular listings, none of them industrial |
| StocksPage.TrendingStocks | src/pages/Stocks.tsx:129-170 | four trending listings |
| StocksPage.ClearedFiltersShowAll | src/pages/Stocks.tsx:298-301 | an empty query under "All" shows every listing in order |
| StocksPage.IndustrialMatchesNothing | src/pages/Stocks.tsx:180-185 | no popular stock is industrial, so that button always shows the empty message |
| StocksPage.StocksView.constructor | src/pages/Stocks.tsx:173-174 | the page opens on the popular list with an empty query and "All" |
| StocksPage.StocksView.Rows | src/pages/Stocks.tsx:180-185 | the rows are the popular listings passing both filters, as a sublist |
| StocksPage.StocksView.TrendingRows | src/pages/Stocks.tsx:313 | the trending tab lists its four stocks whatever the filters |
| StocksPage.StocksView.ShowsEmptyMessage | src/pages/Stocks.tsx:292-294 | the message shows exactly when no popular listing passes both filters |
| StocksPage.StocksView.SetSearch | src/pages/Stocks.tsx:176-178 | typing replaces the query and keeps the sector |
| StocksPage.StocksView.SelectSector | src/pages/Stocks.tsx:205-210 | a sector button selects its sector and keeps the query |
| StocksPage.StocksView.ClearFilters | src/pages/Stocks.tsx:292-301 | both filters reset, every popular listing is shown, and the message goes away |
| PortfolioPulse.ScoreColor | src/components/dashboard/PortfolioPulse.tsx:13-17 | gain exactly from 80, amber exactly from 60 to 79, loss below 60 |
| PortfolioPulse.ProgressColor | src/components/dashboard/PortfolioPulse.tsx:20-24 | the same three bands on the bar classes |
| PortfolioPulse.ScoreAndBarAgree | src/components/dashboard/PortfolioPulse.tsx:13-24 | a score's text and bar are in the same band for every score |
| PortfolioPulse.ScoreColorMonotone | src/components/dashboard/PortfolioPulse.tsx:13-24 | a higher score never gets a worse band |
| PortfolioPulse.HealthLabel | src/components/dashboard/PortfolioPulse.tsx:44-47 | Excellent from 80, Very Good from 70, Good from 60, Fair from 50, Needs Attention below |
| PortfolioPulse.HealthLabelMonotone | src/components/dashboard/PortfolioPulse.tsx:44-47 | better health never gets a worse label |
| PortfolioPulse.RiskTextColor | src/components/dashboard/PortfolioPulse.tsx:69 | coloured as the score 100 - risk: gain up to 20, amber up to 40, loss above |
| PortfolioPulse.RiskBarColor | src/components/dashboard/PortfolioPulse.tsx:75-76 | gain up to 30, amber up to 70, loss above |
| PortfolioPulse.RiskColorsMonotone | src/components/dashboard/PortfolioPulse.tsx:69-76 | more risk never gets a better colour, on the number or on the bar |
| PortfolioPulse.RiskNumberAndBarAgreement | src/components/dashboard/PortfolioPulse.tsx:69-76 | the risk number and bar show the same band exactly up to 20, from 31 to 40, and above 70 |
| PortfolioPulse.MockPulseDisplay | src/components/dashboard/PortfolioPulse.tsx:38-91 | the fixture's health 76 reads "Very Good" in amber, diversification is amber, performance is gain, and risk 72 is loss on number and bar |
| PortfolioSummary.ChangeDisplayFor | src/components/dashboard/PortfolioSummary.tsx:31-60 | weekly for 1W, monthly for 1M, yearly for 1Y and 5Y, daily for 1D, 3M and every other value |
| PortfolioSummary.Caption | src/components/dashboard/PortfolioSummary.tsx:85-89 | each of 1D, 1W, 1M, 3M and 1Y has its phrase, and exactly every other value reads "Past 5 years" |
| PortfolioSummary.ThreeMonthsShowsTheDailyChange | src/components/dashboard/PortfolioSummary.tsx:31-60 | 3M is captioned "Past 3 months" but shows the daily figures, not the monthly ones whenever they differ |
| PortfolioSummary.ChangeIsPositive | src/components/dashboard/PortfolioSummary.tsx:63 | positive exactly when the change is at least 0 |
| PortfolioSummary.GainLossClass | src/components/dashboard/PortfolioSummary.tsx:18-19 | the gain/loss colour follows the sign of total gain/loss alone |
| PortfolioSummary.SummaryView.constructor | src/components/dashboard/PortfolioSummary.tsx:13-16 | the card opens on 1M, with the 1M series of the total value |
| PortfolioSummary.SummaryView.ChangeTimeRange | src/components/dashboard/PortfolioSummary.tsx:26-29 | the range is selected and the chart regenerated from the total value, with that range's point count |
| PortfolioSummary.SummaryView.ChartLineColor | src/components/dashboard/PortfolioSummary.tsx:95-98 | the chart uses the default colour when the shown change is a gain and red otherwise |
| PortfolioSummary.MockChangesArePositive | src/components/dashboard/PortfolioSummary.tsx:31-63 | with the fixed period changes, every range shows a gain |
| Seqs.Sort | src/pages/Insights.tsx:42-48 | the sort of a copy keeps the same elements, each as often as before, and is ordered whenever the comparator is a total preorder |
| Seqs.SortKeepsTiesInOrder | src/pages/Insights.tsx:42-44 | the sort is stable: elements of a class that the order lets stand either way keep their list order |
| Seqs.TakeOfSortKeepsTiesInOrder | src/pages/Insights.tsx:42-44 | the elements of such a class among the first k of the sorted copy are a prefix of that class in list order |
| Seqs.Filter | src/pages/Stocks.tsx:180-185 | filtering keeps exactly the elements that pass, every copy of each, as an order-preserving sublist no longer than the input |
| Seqs.FilterAppend | src/pages/Stocks.tsx:180-185 | filtering a concatenation is the concatenation of the filtered parts |
| Seqs.FindFirst | src/pages/Portfolio.tsx:48 | `find` returns nothing exactly when no element passes, and otherwise the first element that passes |
| Seqs.Take | src/pages/Insights.tsx:44 | `slice(0, k)` is the prefix of length min(k, n) |
| Seqs.FirstKept | src/pages/Portfolio.tsx:398 | the first element a filter keeps is the first element of the list that passes, and none before it passes |
| Text.Includes | src/pages/Insights.tsx:37-38 | `includes` holds exactly when the substring occurs at some position |
| Text.Lower | src/pages/Stocks.tsx:181-182 | `toLowerCase` keeps the length and lowers each ASCII capital, leaving every other character as it is |
| Text.LocaleCompare | src/pages/Portfolio.tsx:86-87 | the comparison returns -1, 0 or 1, and 0 exactly for equal strings |
| Text.LocaleCompareTransitive | src/pages/Portfolio.tsx:86-87 | "sorts no later than" is transitive |
| Numbers.Round2 | src/pages/StockDetails.tsx:97 | rounding to cents moves a value by at most half a cent and keeps non-negative values non-negative |
| Numbers.Round2Monotone | src/pages/StockDetails.tsx:72-74 | rounding to cents never reverses the order of two values |

## Left out

- Rendering: JSX, Tailwind classes, icons, dialogs, toasts, the recharts components and the pie chart. These draw what the model computes.
- Timers: `setInterval` and `setTimeout` are not modelled. Each callback body is one atomic step: `StockPage.Tick`, `Carousel.AutoTick`, `WatchlistCard.BeginRefresh` and `CompleteRefresh`.
- Date formatting with `date-fns`, and number formatting with `toLocaleString`. Dates are whole days or hours before now.
- IEEE floating point: numbers are exact reals. `toFixed(2)` is exact rounding to cents, half away from zero.
- Locale-aware string comparison and Unicode case mapping. Ordinal comparison and ASCII lowering stand in for them.
- Routing, layout, theme, settings, profile and the market overview. They hold no computation of the dashboard's own.
- The random watchlist membership on the stock page, and the buy/sell dialogs, which only show a message.
- The glossary fixture's length: stating it about the long definition texts is beyond the verifier's budget. `MockData.FinancialGlossary` carries no contract.
- The Stocks page's initial rows: `StocksView.constructor` states the list (`popular == PopularStocks()`), the empty query and "All", but not the rows. That every listing is shown then is stated for every list by `StocksPage.ClearedFiltersShowAll`.
- Watchlist.RefreshStock: requires a non-zero previous close. The source would divide by zero and store `NaN` there; every fixture has a positive close.
- StockDetails.AnalystTargetsOrdered: proves low < target < high only from a price of 0.05. Below that, rounding to cents can merge the targets, as `AnalystTargetsCollapseAtOneCent` shows at 0.01.
- PortfolioPulse: scores are whole numbers, as every metric of the card is.
- The scenario, the holdings table and "Most Valuable" read the holdings they are given. That `mockPortfolio` is one array shared by the Portfolio page and the Top Holdings card appears only in that both use `ValueOrder.SortByValueDesc` on an array.

## Findings

| source | as written | input that shows it | evidently intended | confidence | as-written member | corrected member |
|---|---|---|---|---|---|---|
| src/pages/StockDetails.tsx:52-74 | `analystRatings` is a plain object rebuilt with zero targets on every render. The effect writes the targets into the first render's object, which shows only "Loading". The target bar (lines 407-425) and the upside (lines 487-495) read the zero targets. | Any stock, e.g. AAPL at 182.52: targets $0.00, upside (0 / 182.52 - 1) * 100 = -100% in the loss colour, target bar position 0/0 = NaN. | Targets of 115%, 135% and 90% of the price: upside +15%, coloured as a gain, with the target inside the bar. | not executed | StockDetails.RenderedTargetsShowTotalLoss | StockDetails.ComputedTargetsShowUpside |
