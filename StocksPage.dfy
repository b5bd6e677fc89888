/**
 * The Stocks page (`src/pages/Stocks.tsx`): a search box and a row of sector
 * buttons filter the popular list; the trending list is shown as it is; when
 * nothing matches, a message and a Clear Filters button appear.
 */
module StocksPage {
  import opened Text
  import opened Seqs

  /** A row of the page's own lists; market cap and volume are display strings. */
  datatype Listing = Listing(
    symbol: string, name: string,
    price: real, change: real, changePercent: real,
    sector: string, marketCap: string, volume: string)

  /** `stockSectors`: the sector buttons, "All" first. */
  function StockSectors(): (r: seq<string>)
    ensures |r| == 7 && r[0] == "All"
  {
    ["All", "Technology", "Healthcare", "Financial", "Consumer", "Energy", "Industrial"]
  }

  /** `popularStocks`. */
  function PopularStocks(): (r: seq<Listing>)
    ensures |r| == 10
    ensures forall i :: 0 <= i < |r| ==> r[i].sector != "Industrial"
  {
    [ Listing("AAPL", "Apple Inc.", 173.72, 1.12, 0.65, "Technology", "2.71T", "52.4M"),
      Listing("MSFT", "Microsoft Corp.", 425.52, 2.76, 0.65, "Technology", "3.16T", "18.2M"),
      Listing("GOOGL", "Alphabet Inc.", 148.74, 0.31, 0.21, "Technology", "1.87T", "15.9M"),
      Listing("AMZN", "Amazon.com Inc.", 178.95, 0.68, 0.38, "Consumer", "1.86T", "30.1M"),
      Listing("NVDA", "NVIDIA Corp.", 880.08, -12.30, -1.38, "Technology", "2.17T", "40.8M"),
      Listing("META", "Meta Platforms", 474.99, 1.21, 0.26, "Technology", "1.21T", "12.6M"),
      Listing("BRK.B", "Berkshire Hathaway", 406.15, -1.13, -0.28, "Financial", "891.5B", "3.2M"),
      Listing("JPM", "JPMorgan Chase", 191.20, -0.52, -0.27, "Financial", "551.2B", "7.1M"),
      Listing("JNJ", "Johnson & Johnson", 151.48, 0.87, 0.58, "Healthcare", "364.5B", "5.4M"),
      Listing("XOM", "Exxon Mobil Corp.", 118.64, -1.02, -0.85, "Energy", "471.8B", "13.2M") ]
  }

  /** `trendingStocks`. */
  function TrendingStocks(): (r: seq<Listing>)
    ensures |r| == 4
  {
    [ Listing("TSLA", "Tesla Inc.", 171.05, -4.32, -2.46, "Consumer", "544.7B", "96.3M"),
      Listing("AMD", "Advanced Micro Devices", 164.17, 3.61, 2.25, "Technology", "265.2B", "57.8M"),
      Listing("CRM", "Salesforce Inc.", 301.91, 4.56, 1.53, "Technology", "292.4B", "8.7M"),
      Listing("PFE", "Pfizer Inc.", 26.63, -0.22, -0.82, "Healthcare", "150.4B", "34.5M") ]
  }

  /** `matchesSearch`: the symbol or the name contains the query, ignoring case. */
  predicate MatchesSearch(l: Listing, query: string): (r: bool)
    ensures r <==> (exists i :: OccursAt(Lower(l.symbol), Lower(query), i))
                   || (exists i :: OccursAt(Lower(l.name), Lower(query), i))
    ensures query == "" ==> r
  {
    IncludesEmpty(Lower(l.symbol));
    Includes(Lower(l.symbol), Lower(query)) || Includes(Lower(l.name), Lower(query))
  }

  /** `matchesSector`: "All" lets every sector through, any other value only its own. */
  predicate MatchesSector(l: Listing, sector: string): (r: bool)
    ensures sector == "All" ==> r
    ensures sector != "All" ==> (r <==> l.sector == sector)
  {
    sector == "All" || l.sector == sector
  }

  /** `filteredStocks`: the listings that match both the search and the sector, in list order. */
  function FilteredStocks(stocks: seq<Listing>, query: string, sector: string): (r: seq<Listing>)
    ensures forall l :: l in r <==> l in stocks && MatchesSearch(l, query) && MatchesSector(l, sector)
    ensures forall l :: MatchesSearch(l, query) && MatchesSector(l, sector) ==> multiset(r)[l] == multiset(stocks)[l]
    ensures IsSublist(r, stocks)
  {
    Filter(stocks, (l: Listing) => MatchesSearch(l, query) && MatchesSector(l, sector))
  }

  /** With the filters cleared, every listing is shown, in order. */
  lemma ClearedFiltersShowAll(stocks: seq<Listing>)
    ensures FilteredStocks(stocks, "", "All") == stocks
  {
    forall l | l in stocks ensures MatchesSearch(l, "") && MatchesSector(l, "All") {
      IncludesEmpty(Lower(l.symbol));
    }
    FilterKeepsAll(stocks, (l: Listing) => MatchesSearch(l, "") && MatchesSector(l, "All"));
  }

  /** No popular stock is industrial, so the Industrial button shows the empty message whatever the search. */
  lemma IndustrialMatchesNothing(query: string)
    ensures FilteredStocks(PopularStocks(), query, "Industrial") == []
  {
    var stocks := PopularStocks();
    forall l | l in stocks ensures !(MatchesSearch(l, query) && MatchesSector(l, "Industrial")) {
      var i :| 0 <= i < |stocks| && stocks[i] == l;
    }
    FilterKeepsNone(stocks, (l: Listing) => MatchesSearch(l, query) && MatchesSector(l, "Industrial"));
  }

  /** The page's filter state: the search box and the selected sector button, over the popular list. */
  class StocksView {
    /** The list the popular tab filters, `popularStocks`. */
    const popular: seq<Listing>
    var searchQuery: string
    var selectedSector: string

    /**
     * The page opens with an empty search and "All" selected, which by
     * `ClearedFiltersShowAll` lists every popular stock.
     */
    constructor ()
      ensures popular == PopularStocks()
      ensures searchQuery == "" && selectedSector == "All"
    {
      popular := PopularStocks();
      searchQuery := "";
      selectedSector := "All";
    }

    /** The popular tab's rows under the current filters. */
    function Rows(): (r: seq<Listing>)
      reads this
      ensures forall l :: l in r <==> l in popular && MatchesSearch(l, searchQuery) && MatchesSector(l, selectedSector)
      ensures IsSublist(r, popular)
    {
      FilteredStocks(popular, searchQuery, selectedSector)
    }

    /** The trending tab lists its four stocks whatever the search and the sector. */
    function TrendingRows(): (r: seq<Listing>)
      ensures |r| == 4 && r == TrendingStocks()
    {
      TrendingStocks()
    }

    /** "No stocks match your search criteria." appears exactly when the popular tab is empty. */
    function ShowsEmptyMessage(): (r: bool)
      reads this
      ensures r <==> forall l :: l in popular ==> !(MatchesSearch(l, searchQuery) && MatchesSector(l, selectedSector))
    {
      Rows() == []
    }

    /** `handleSearch`: typing replaces the query; the sector is kept. */
    method SetSearch(query: string)
      modifies this
      ensures searchQuery == query && selectedSector == old(selectedSector)
    {
      searchQuery := query;
    }

    /** A sector button selects its sector; the query is kept. */
    method SelectSector(sector: string)
      requires sector in StockSectors()
      modifies this
      ensures selectedSector == sector && searchQuery == old(searchQuery)
    {
      selectedSector := sector;
    }

    /**
     * The Clear Filters button, shown only with the empty message: both
     * filters reset, and every popular stock is back.
     */
    method ClearFilters()
      requires ShowsEmptyMessage()
      modifies this
      ensures searchQuery == "" && selectedSector == "All"
      ensures Rows() == popular
      ensures popular != [] ==> !ShowsEmptyMessage()
    {
      searchQuery := "";
      selectedSector := "All";
      ClearedFiltersShowAll(popular);
    }
  }
}
