/**
 * The selections of the Market Insights page (`src/pages/Insights.tsx`): the
 * glossary search, the top gainers and losers, the news category filter, the
 * article count label and the colours of the tip badges.
 */
module Insights {
  import opened Numbers
  import opened Text
  import opened Seqs
  import opened MockData

  // ---------------------------------------------------------------------
  // Glossary
  // ---------------------------------------------------------------------

  /** A glossary entry matches when its term or its definition contains the query, ignoring case. */
  predicate GlossaryMatches(item: GlossaryTerm, query: string): (r: bool)
    ensures r <==> (exists i :: OccursAt(Lower(item.term), Lower(query), i))
                   || (exists i :: OccursAt(Lower(item.definition), Lower(query), i))
  {
    Includes(Lower(item.term), Lower(query)) || Includes(Lower(item.definition), Lower(query))
  }

  /** `filteredGlossary`: the matching entries, in glossary order. */
  function FilteredGlossary(items: seq<GlossaryTerm>, query: string): (r: seq<GlossaryTerm>)
    ensures forall g :: g in r <==> g in items && GlossaryMatches(g, query)
    ensures forall g :: GlossaryMatches(g, query) ==> multiset(r)[g] == multiset(items)[g]
    ensures IsSublist(r, items)
  {
    Filter(items, (g: GlossaryTerm) => GlossaryMatches(g, query))
  }

  /** An empty search box shows the whole glossary, in order. */
  lemma EmptyQueryShowsWholeGlossary(items: seq<GlossaryTerm>)
    ensures FilteredGlossary(items, "") == items
  {
    forall g | g in items ensures GlossaryMatches(g, "") {
      IncludesEmpty(Lower(g.term));
    }
    FilterKeepsAll(items, (g: GlossaryTerm) => GlossaryMatches(g, ""));
  }

  // ---------------------------------------------------------------------
  // Top movers
  // ---------------------------------------------------------------------

  /** `(a, b) => b.changePercent - a.changePercent`: the larger gain first. */
  function GainerFirst(): (before: (Stock, Stock) -> bool)
    ensures forall a, b :: before(a, b) <==> a.changePercent >= b.changePercent
  {
    (a: Stock, b: Stock) => b.changePercent - a.changePercent <= 0.0
  }

  /** `(a, b) => a.changePercent - b.changePercent`: the larger loss first. */
  function LoserFirst(): (before: (Stock, Stock) -> bool)
    ensures forall a, b :: before(a, b) <==> a.changePercent <= b.changePercent
  {
    (a: Stock, b: Stock) => a.changePercent - b.changePercent <= 0.0
  }

  lemma MoverOrdersAreTotalPreorders()
    ensures TotalPreorder(GainerFirst())
    ensures TotalPreorder(LoserFirst())
  {
  }

  /**
   * `sorted.slice(0, k)` of a sorted copy: a prefix of at most `k` stocks, in
   * the copy's order, and every stock left out of the prefix comes after each
   * shown one in that order.
   */
  lemma {:induction false} PrefixOfSortedLeadsRest(stocks: seq<Stock>, before: (Stock, Stock) -> bool, k: nat)
    requires TotalPreorder(before)
    ensures var sorted := Sort(stocks, before);
      var top := Take(sorted, k);
      forall x, y :: x in multiset(stocks) - multiset(top) && y in top ==> before(y, x)
  {
    var sorted := Sort(stocks, before);
    var top := Take(sorted, k);
    var rest := sorted[|top|..];
    assert sorted == top + rest;
    assert multiset(stocks) == multiset(top) + multiset(rest);
    forall x, y | x in multiset(stocks) - multiset(top) && y in top ensures before(y, x) {
      assert x in multiset(rest);
      var j :| 0 <= j < |rest| && rest[j] == x;
      var i :| 0 <= i < |top| && top[i] == y;
      assert sorted[i] == y && sorted[|top| + j] == x;
    }
  }

  /** The first `k` stocks of a sorted copy: at most `k`, all taken from the list. */
  lemma TopOfSortedCopyDrawnFromList(stocks: seq<Stock>, before: (Stock, Stock) -> bool, k: nat)
    ensures var r := Take(Sort(stocks, before), k);
      |r| == Min(k, |stocks|) && multiset(r) <= multiset(stocks)
  {
    var sorted := Sort(stocks, before);
    var r := Take(sorted, k);
    var rest := sorted[|r|..];
    assert sorted == r + rest;
    assert multiset(sorted) == multiset(r) + multiset(rest);
  }

  /** The first `k` stocks of a copy sorted by a total preorder are in that order. */
  lemma TopOfSortedCopyInOrder(stocks: seq<Stock>, before: (Stock, Stock) -> bool, k: nat)
    requires TotalPreorder(before)
    ensures var r := Take(Sort(stocks, before), k);
      forall i, j :: 0 <= i < j < |r| ==> before(r[i], r[j])
  {
    var sorted := Sort(stocks, before);
    var r := Take(sorted, k);
    forall i, j | 0 <= i < j < |r| ensures before(r[i], r[j]) {
      assert r[i] == sorted[i] && r[j] == sorted[j];
    }
  }

  /** The stocks whose percent change is `c`: a tie class of both mover orders. */
  function WithChange(c: real): Stock -> bool
  {
    (s: Stock) => s.changePercent == c
  }

  /**
   * For an order that lets stocks with equal percent change stand either way
   * round, the top `k` stocks of equal change are the first of them in list
   * order.
   */
  lemma MoversKeepTiesInOrder(stocks: seq<Stock>, before: (Stock, Stock) -> bool, k: nat)
    requires forall a: Stock, b: Stock :: a.changePercent == b.changePercent ==> before(a, b)
    ensures forall c :: Filter(Take(Sort(stocks, before), k), WithChange(c)) <= Filter(stocks, WithChange(c))
  {
    forall c ensures Filter(Take(Sort(stocks, before), k), WithChange(c)) <= Filter(stocks, WithChange(c)) {
      TakeOfSortKeepsTiesInOrder(stocks, before, k, WithChange(c));
    }
  }

  /**
   * `topGainers`: the three stocks with the largest percent change, largest
   * first; a sort on a copy, so the list it is taken from keeps its order.
   */
  function TopGainers(stocks: seq<Stock>): (r: seq<Stock>)
    ensures |r| == Min(3, |stocks|)
    ensures multiset(r) <= multiset(stocks)
    ensures forall i, j :: 0 <= i < j < |r| ==> r[i].changePercent >= r[j].changePercent
    ensures forall x, y :: x in multiset(stocks) - multiset(r) && y in r ==> x.changePercent <= y.changePercent
  {
    MoverOrdersAreTotalPreorders();
    TopOfSortedCopyDrawnFromList(stocks, GainerFirst(), 3);
    TopOfSortedCopyInOrder(stocks, GainerFirst(), 3);
    PrefixOfSortedLeadsRest(stocks, GainerFirst(), 3);
    Take(Sort(stocks, GainerFirst()), 3)
  }

  /** Gainers of equal percent change are shown in the order of the list (AAPL ahead of META at 0.69). */
  lemma TopGainersKeepTiesInOrder(stocks: seq<Stock>)
    ensures forall c :: Filter(TopGainers(stocks), WithChange(c)) <= Filter(stocks, WithChange(c))
  {
    assert TopGainers(stocks) == Take(Sort(stocks, GainerFirst()), 3);
    MoversKeepTiesInOrder(stocks, GainerFirst(), 3);
  }

  /** `topLosers`: the three stocks with the smallest percent change, smallest first. */
  function TopLosers(stocks: seq<Stock>): (r: seq<Stock>)
    ensures |r| == Min(3, |stocks|)
    ensures multiset(r) <= multiset(stocks)
    ensures forall i, j :: 0 <= i < j < |r| ==> r[i].changePercent <= r[j].changePercent
    ensures forall x, y :: x in multiset(stocks) - multiset(r) && y in r ==> y.changePercent <= x.changePercent
  {
    MoverOrdersAreTotalPreorders();
    TopOfSortedCopyDrawnFromList(stocks, LoserFirst(), 3);
    TopOfSortedCopyInOrder(stocks, LoserFirst(), 3);
    PrefixOfSortedLeadsRest(stocks, LoserFirst(), 3);
    Take(Sort(stocks, LoserFirst()), 3)
  }

  /** Losers of equal percent change are shown in the order of the list. */
  lemma TopLosersKeepTiesInOrder(stocks: seq<Stock>)
    ensures forall c :: Filter(TopLosers(stocks), WithChange(c)) <= Filter(stocks, WithChange(c))
  {
    assert TopLosers(stocks) == Take(Sort(stocks, LoserFirst()), 3);
    MoversKeepTiesInOrder(stocks, LoserFirst(), 3);
  }

  /** With at least one stock, the first gainer changed at least as much as the first loser. */
  lemma LeadingGainerAboveLeadingLoser(stocks: seq<Stock>)
    requires |stocks| > 0
    ensures TopLosers(stocks)[0].changePercent <= TopGainers(stocks)[0].changePercent
  {
    var g := TopGainers(stocks);
    var l := TopLosers(stocks);
    var s := l[0];
    assert s in multiset(stocks);
    if s in multiset(g) {
      assert s in g;
      var i :| 0 <= i < |g| && g[i] == s;
      assert i == 0 || g[0].changePercent >= g[i].changePercent;
    } else {
      assert s in multiset(stocks) - multiset(g);
    }
  }

  // ---------------------------------------------------------------------
  // News
  // ---------------------------------------------------------------------

  /** The callback of `filteredNews`: "all" keeps everything, the three categories search the title, anything else keeps nothing. */
  predicate NewsKeeps(filter: string, a: Article): (r: bool)
    ensures filter == "all" ==> r
    ensures filter in {"market", "tech", "finance"} ==> (r <==> Includes(Lower(a.title), filter))
    ensures filter !in {"all", "market", "tech", "finance"} ==> !r
  {
    if filter == "all" then true
    else if filter == "market" && Includes(Lower(a.title), "market") then true
    else if filter == "tech" && Includes(Lower(a.title), "tech") then true
    else if filter == "finance" && Includes(Lower(a.title), "finance") then true
    else false
  }

  /** `filteredNews`: the kept articles, in feed order. */
  function FilteredNews(articles: seq<Article>, filter: string): (r: seq<Article>)
    ensures forall a :: a in r <==> a in articles && NewsKeeps(filter, a)
    ensures forall a :: NewsKeeps(filter, a) ==> multiset(r)[a] == multiset(articles)[a]
    ensures IsSublist(r, articles)
    ensures |r| <= |articles|
  {
    Filter(articles, (a: Article) => NewsKeeps(filter, a))
  }

  /** The "All" button shows the whole feed, in order. */
  lemma AllShowsEveryArticle(articles: seq<Article>)
    ensures FilteredNews(articles, "all") == articles
  {
    FilterKeepsAll(articles, (a: Article) => NewsKeeps("all", a));
  }

  /** A category button keeps exactly the articles whose lowercased title contains the category's word. */
  lemma CategoryIsTitleSearch(articles: seq<Article>, filter: string)
    requires filter == "market" || filter == "tech" || filter == "finance"
    ensures forall a :: a in FilteredNews(articles, filter) <==> a in articles && Includes(Lower(a.title), filter)
  {
  }

  /** A filter value with no branch of its own shows no articles. */
  lemma UnknownFilterShowsNothing(articles: seq<Article>, filter: string)
    requires filter != "all" && filter != "market" && filter != "tech" && filter != "finance"
    ensures FilteredNews(articles, filter) == []
  {
    FilterKeepsNone(articles, (a: Article) => NewsKeeps(filter, a));
  }

  /** The label beside the count: singular exactly for one article. */
  function ArticleCountLabel(count: nat): (r: string)
    ensures r == "article" <==> count == 1
    ensures r == "articles" <==> count != 1
  {
    if count == 1 then "article" else "articles"
  }

  // ---------------------------------------------------------------------
  // Smart tips
  // ---------------------------------------------------------------------

  /** The badge colour of the tip at `index`: gain for the first, amber for the second, the primary colour after. */
  function TipBadge(index: nat): (r: string)
    ensures index == 0 <==> r == "bg-apple-gain"
    ensures index == 1 <==> r == "bg-amber-500"
    ensures index >= 2 <==> r == "bg-primary"
  {
    if index == 0 then "bg-apple-gain"
    else if index == 1 then "bg-amber-500"
    else "bg-primary"
  }
}
