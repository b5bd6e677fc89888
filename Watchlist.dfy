/**
 * The watchlist card (`src/components/dashboard/WatchlistCard.tsx`): five
 * stocks whose prices a refresh nudges by a random fraction of a percent,
 * with a loading flag that disables the refresh button meanwhile.
 */
module Watchlist {
  import opened Numbers
  import opened MockData

  /** `(Math.random() * 2 - 1) * 0.5`: a change between -0.5% and 0.5%. */
  function RefreshRandomChange(draw: real): (r: real)
    requires 0.0 <= draw < 1.0
    ensures -0.5 <= r < 0.5
  {
    (draw * 2.0 - 1.0) * 0.5
  }

  /**
   * One stock after a refresh: the price moves by the random percentage,
   * without rounding; the change and the percent change are recomputed from
   * the previous close, and every other field is kept.
   */
  function RefreshStock(s: Stock, draw: real): (r: Stock)
    requires 0.0 <= draw < 1.0 && s.prevClose != 0.0
    ensures r.(price := s.price, change := s.change, changePercent := s.changePercent) == s
    ensures r.change == r.price - s.prevClose
    ensures r.changePercent * s.prevClose == r.change * 100.0
    ensures (r.price - s.price) * 100.0 == s.price * RefreshRandomChange(draw)
    ensures s.price >= 0.0 ==> s.price * 0.995 <= r.price <= s.price * 1.005
  {
    var randomChange := RefreshRandomChange(draw);
    var newPrice := s.price * (1.0 + randomChange / 100.0);
    assert (newPrice - s.price) * 100.0 == s.price * randomChange;
    RefreshMoveBound(s.price, randomChange, newPrice);
    s.(price := newPrice,
       change := newPrice - s.prevClose,
       changePercent := (newPrice - s.prevClose) / s.prevClose * 100.0)
  }

  lemma RefreshMoveBound(price: real, randomChange: real, moved: real)
    requires -0.5 <= randomChange < 0.5 && moved == price * (1.0 + randomChange / 100.0)
    ensures price >= 0.0 ==> price * 0.995 <= moved <= price * 1.005
  {
    if price >= 0.0 {
      var f := 1.0 + randomChange / 100.0;
      assert moved == price * f;
      ScaleMonotone(price, 0.995, f);
      ScaleMonotone(price, f, 1.005);
    }
  }

  /** No stock in the list has a zero previous close, so every percent change is a number. */
  ghost predicate Quotable(stocks: seq<Stock>)
  {
    forall i :: 0 <= i < |stocks| ==> stocks[i].prevClose != 0.0
  }

  /** `watchlist.map(...)`: each stock refreshed with its own draw, in the same order. */
  function RefreshAll(stocks: seq<Stock>, draws: seq<real>): (r: seq<Stock>)
    requires |draws| == |stocks| && Quotable(stocks)
    requires forall i :: 0 <= i < |draws| ==> 0.0 <= draws[i] < 1.0
    ensures |r| == |stocks| && Quotable(r)
    ensures forall i :: 0 <= i < |r| ==> r[i].symbol == stocks[i].symbol && r[i].prevClose == stocks[i].prevClose
    ensures forall i :: 0 <= i < |r| ==> r[i].change == r[i].price - stocks[i].prevClose
  {
    seq(|stocks|, i requires 0 <= i < |stocks| => RefreshStock(stocks[i], draws[i]))
  }

  /** Refreshing keeps the list's stocks, their order and their descriptive fields; only the quote moves. */
  lemma RefreshKeepsIdentity(stocks: seq<Stock>, draws: seq<real>, i: nat)
    requires |draws| == |stocks| && Quotable(stocks)
    requires forall k :: 0 <= k < |draws| ==> 0.0 <= draws[k] < 1.0
    requires i < |stocks|
    ensures RefreshAll(stocks, draws)[i].(price := stocks[i].price, change := stocks[i].change,
                                          changePercent := stocks[i].changePercent) == stocks[i]
  {
    assert RefreshAll(stocks, draws)[i] == RefreshStock(stocks[i], draws[i]);
  }

  class WatchlistCard {
    var stocks: seq<Stock>
    var isLoading: bool

    ghost predicate Valid()
      reads this
    {
      Quotable(stocks)
    }

    /** The card starts with the first five stock fixtures and is not loading. */
    constructor ()
      ensures Valid()
      ensures stocks == MockStocks()[..5] && !isLoading
    {
      stocks := MockStocks()[..5];
      isLoading := false;
    }

    /** The refresh button is enabled exactly while no refresh is in flight. */
    function CanRefresh(): (r: bool)
      reads this
      ensures r <==> !isLoading
    {
      !isLoading
    }

    /**
     * `refreshPrices` up to its timeout: the card shows it is loading, and
     * the list as it is now is what the timeout callback will refresh. The
     * 30-second interval calls this too, loading or not.
     */
    method BeginRefresh() returns (captured: seq<Stock>)
      requires Valid()
      modifies this
      ensures Valid() && isLoading
      ensures stocks == old(stocks) && captured == stocks
    {
      isLoading := true;
      captured := stocks;
    }

    /** The timeout callback: the refreshed list is installed and loading ends. */
    method CompleteRefresh(captured: seq<Stock>, draws: seq<real>)
      requires Quotable(captured) && |draws| == |captured|
      requires forall i :: 0 <= i < |draws| ==> 0.0 <= draws[i] < 1.0
      modifies this
      ensures Valid() && !isLoading
      ensures stocks == RefreshAll(captured, draws)
    {
      stocks := RefreshAll(captured, draws);
      isLoading := false;
    }
  }

  /** `refreshPrices` from click to timeout: the list it was started on is refreshed, and the card ends enabled with the same symbols. */
  method RefreshPrices(card: WatchlistCard, draws: seq<real>)
    requires card.Valid() && |draws| == |card.stocks|
    requires forall i :: 0 <= i < |draws| ==> 0.0 <= draws[i] < 1.0
    modifies card
    ensures card.Valid() && card.CanRefresh()
    ensures card.stocks == RefreshAll(old(card.stocks), draws)
    ensures |card.stocks| == |old(card.stocks)|
    ensures forall i :: 0 <= i < |card.stocks| ==> card.stocks[i].symbol == old(card.stocks[i].symbol)
  {
    var captured := card.BeginRefresh();
    assert !card.CanRefresh();
    card.CompleteRefresh(captured, draws);
  }
}
