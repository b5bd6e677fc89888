/**
 * The computations of the Portfolio page (`src/pages/Portfolio.tsx`): the
 * one-holding scenario projected onto the portfolio total, the searchable and
 * sortable holdings table, its sort-order toggle, and the "Most Valuable"
 * cell.
 */
module PortfolioPage {
  import opened Numbers
  import opened Text
  import opened Seqs
  import opened MockData
  import opened ValueOrder

  // ---------------------------------------------------------------------
  // Scenario analysis
  // ---------------------------------------------------------------------

  /** `holdings.find(s => s.symbol === symbol)`: the first holding with that symbol. */
  function Find(hs: seq<Holding>, symbol: string): (r: Option<Holding>)
    ensures r.None? <==> forall i :: 0 <= i < |hs| ==> hs[i].symbol != symbol
    ensures r.Some? ==>
      exists i :: 0 <= i < |hs| && hs[i] == r.value && hs[i].symbol == symbol
                  && forall k :: 0 <= k < i ==> hs[k].symbol != symbol
  {
    FindFirst(hs, (h: Holding) => h.symbol == symbol)
  }

  /** What the scenario card shows: the value change, the projected total and the change in percent. */
  datatype Scenario = Scenario(valueChange: real, newValue: real, percentChange: Option<real>)

  /** `scenarioValue[0] / 100`: the slider runs over the whole percents from -100 to 100. */
  function ScenarioChange(slider: int): (r: real)
    requires -100 <= slider <= 100
    ensures -1.0 <= r <= 1.0
    ensures r * 100.0 == slider as real
  {
    slider as real / 100.0
  }

  /**
   * The projection of changing the holding `symbol` by `slider` percent: a
   * holding that is not in the portfolio changes nothing, and the percentage
   * is of the portfolio value (`None` when that value is zero).
   */
  function ProjectScenario(hs: seq<Holding>, symbol: string, slider: int): (s: Scenario)
    requires -100 <= slider <= 100
    ensures Find(hs, symbol).None? ==> s.valueChange == 0.0
    ensures Find(hs, symbol).Some? ==> s.valueChange * 100.0 == Find(hs, symbol).value.value * slider as real
    ensures s.newValue - s.valueChange == PortfolioValue(hs)
    ensures s.percentChange.Some? <==> PortfolioValue(hs) != 0.0
    ensures s.percentChange.Some? ==> s.percentChange.value * PortfolioValue(hs) == s.valueChange * 100.0
  {
    var valueChange := match Find(hs, symbol) case Some(h) => Shock(h.value, slider) case None => 0.0;
    var pv := PortfolioValue(hs);
    var percent := PercentOf(valueChange, pv);
    Scenario(valueChange, pv + valueChange, percent)
  }

  /** `value * scenarioChange`: the value change of one holding under the slider. */
  function Shock(value: real, slider: int): (r: real)
    requires -100 <= slider <= 100
    ensures r * 100.0 == value * slider as real
  {
    var change := ScenarioChange(slider);
    assert value * change * 100.0 == value * (change * 100.0);
    value * change
  }

  /** `(part / whole) * 100`; `None` for the NaN or Infinity of a zero whole. */
  function PercentOf(part: real, whole: real): (r: Option<real>)
    ensures r.Some? <==> whole != 0.0
    ensures r.Some? ==> r.value * whole == part * 100.0
  {
    match Ratio(part, whole)
    case Some(q) => assert q * 100.0 * whole == q * whole * 100.0; Some(q * 100.0)
    case None => None
  }

  /** With the slider at zero, the projection is the current total and a change of 0%. */
  lemma ScenarioAtZero(hs: seq<Holding>, symbol: string)
    ensures ProjectScenario(hs, symbol, 0).newValue == PortfolioValue(hs)
    ensures PortfolioValue(hs) != 0.0 ==> ProjectScenario(hs, symbol, 0).percentChange == Some(0.0)
  {
    var s := ProjectScenario(hs, symbol, 0);
    assert s.valueChange == 0.0;
    if PortfolioValue(hs) != 0.0 {
      ZeroFactor(s.percentChange.value, PortfolioValue(hs));
    }
  }

  lemma ZeroFactor(a: real, b: real)
    requires b != 0.0 && a * b == 0.0
    ensures a == 0.0
  {
  }

  /** A symbol the portfolio does not hold leaves the projected total at the current total. */
  lemma ScenarioUnknownSymbol(hs: seq<Holding>, symbol: string, slider: int)
    requires -100 <= slider <= 100
    requires forall i :: 0 <= i < |hs| ==> hs[i].symbol != symbol
    ensures ProjectScenario(hs, symbol, slider).valueChange == 0.0
    ensures ProjectScenario(hs, symbol, slider).newValue == PortfolioValue(hs)
  {
  }

  /** A -100% scenario on a held symbol projects the total of the other holdings. */
  lemma ScenarioWipesHolding(hs: seq<Holding>, i: nat)
    requires i < |hs|
    requires forall k :: 0 <= k < |hs| && k != i ==> hs[k].symbol != hs[i].symbol
    ensures ProjectScenario(hs, hs[i].symbol, -100).newValue == PortfolioValue(hs[..i] + hs[i + 1..])
  {
    var s := ProjectScenario(hs, hs[i].symbol, -100);
    assert Find(hs, hs[i].symbol) == Some(hs[i]);
    PortfolioValueWithout(hs, i);
  }

  /** When no holding has a negative value, no scenario projects a negative total. */
  lemma ScenarioNeverNegative(hs: seq<Holding>, symbol: string, slider: int)
    requires -100 <= slider <= 100
    requires forall i :: 0 <= i < |hs| ==> hs[i].value >= 0.0
    ensures ProjectScenario(hs, symbol, slider).newValue >= 0.0
  {
    var found := Find(hs, symbol);
    if found.Some? {
      var i :| 0 <= i < |hs| && hs[i] == found.value;
      HoldingWithinTotal(hs, i);
      ShockAtMostWholeValue(hs, symbol, slider);
    }
  }

  /** With no negative values, one holding's value never exceeds the portfolio value. */
  lemma HoldingWithinTotal(hs: seq<Holding>, i: nat)
    requires i < |hs|
    requires forall k :: 0 <= k < |hs| ==> hs[k].value >= 0.0
    ensures 0.0 <= hs[i].value <= PortfolioValue(hs)
  {
    NoNegativeValueWithout(hs, i);
    PortfolioValueWithout(hs, i);
  }

  lemma NoNegativeValueWithout(hs: seq<Holding>, i: nat)
    requires i < |hs|
    requires forall k :: 0 <= k < |hs| ==> hs[k].value >= 0.0
    ensures PortfolioValue(hs[..i] + hs[i + 1..]) >= 0.0
  {
    var rest := hs[..i] + hs[i + 1..];
    forall k | 0 <= k < |rest| ensures rest[k].value >= 0.0 {
      if k < i { assert rest[k] == hs[k]; } else { assert rest[k] == hs[k + 1]; }
    }
  }

  /** A held symbol's scenario loses at most the holding's whole value. */
  lemma ShockAtMostWholeValue(hs: seq<Holding>, symbol: string, slider: int)
    requires -100 <= slider <= 100
    requires Find(hs, symbol).Some? && Find(hs, symbol).value.value >= 0.0
    ensures ProjectScenario(hs, symbol, slider).valueChange >= -Find(hs, symbol).value.value
  {
    ScaleMonotone(Find(hs, symbol).value.value, -100.0, slider as real);
  }

  // ---------------------------------------------------------------------
  // Holdings table
  // ---------------------------------------------------------------------

  /** The search box: the lowercased query occurs in the lowercased name or symbol. */
  predicate MatchesFilter(h: Holding, filter: string): (r: bool)
    ensures r <==> (exists i :: OccursAt(Lower(h.name), Lower(filter), i))
                   || (exists i :: OccursAt(Lower(h.symbol), Lower(filter), i))
    ensures filter == "" ==> r
  {
    IncludesEmpty(Lower(h.name));
    Includes(Lower(h.name), Lower(filter)) || Includes(Lower(h.symbol), Lower(filter))
  }

  function FilteredHoldings(hs: seq<Holding>, filter: string): (r: seq<Holding>)
    ensures forall h :: h in r <==> h in hs && MatchesFilter(h, filter)
    ensures forall h :: MatchesFilter(h, filter) ==> multiset(r)[h] == multiset(hs)[h]
    ensures IsSublist(r, hs)
  {
    Filter(hs, h => MatchesFilter(h, filter))
  }

  /** An empty search box keeps every holding, in order. */
  lemma EmptyFilterKeepsAll(hs: seq<Holding>)
    ensures FilteredHoldings(hs, "") == hs
  {
    forall h | h in hs ensures MatchesFilter(h, "") {
      IncludesEmpty(Lower(h.name));
    }
    FilterKeepsAll(hs, h => MatchesFilter(h, ""));
  }

  datatype SortOrder = Asc | Desc

  /** The sort-order button: ascending and descending swap. */
  function Toggled(o: SortOrder): (r: SortOrder)
    ensures r != o
  {
    if o == Asc then Desc else Asc
  }

  lemma ToggleTwiceRestores(o: SortOrder)
    ensures Toggled(Toggled(o)) == o
  {
  }

  /** The numeric sort key: price, percent change, or value for "value" and every other key. */
  function NumericKey(sortBy: string, h: Holding): (r: real)
    ensures sortBy == "price" ==> r == h.currentPrice
    ensures sortBy == "change" ==> r == h.changePercent
    ensures sortBy != "price" && sortBy != "change" ==> r == h.value
  {
    match sortBy
    case "price" => h.currentPrice
    case "change" => h.changePercent
    case _ => h.value
  }

  /** The ascending comparator: symbols by `localeCompare`, other keys by difference. */
  function AscCompare(sortBy: string, a: Holding, b: Holding): (r: real)
    ensures sortBy == "symbol" ==> (r <= 0.0 <==> LocaleCompare(a.symbol, b.symbol) <= 0)
    ensures sortBy == "symbol" ==> (r == 0.0 <==> a.symbol == b.symbol)
    ensures sortBy != "symbol" ==> (r <= 0.0 <==> NumericKey(sortBy, a) <= NumericKey(sortBy, b))
    ensures sortBy != "symbol" ==> (r == 0.0 <==> NumericKey(sortBy, a) == NumericKey(sortBy, b))
  {
    if sortBy == "symbol" then LocaleCompare(a.symbol, b.symbol) as real
    else NumericKey(sortBy, a) - NumericKey(sortBy, b)
  }

  /** The table's comparator; descending compares the two holdings the other way round. */
  function Compare(sortBy: string, order: SortOrder, a: Holding, b: Holding): (r: real)
    ensures sortBy == "symbol" ==>
      (r <= 0.0 <==> if order == Asc then LocaleCompare(a.symbol, b.symbol) <= 0 else LocaleCompare(b.symbol, a.symbol) <= 0)
    ensures sortBy != "symbol" ==>
      (r <= 0.0 <==> if order == Asc then NumericKey(sortBy, a) <= NumericKey(sortBy, b) else NumericKey(sortBy, b) <= NumericKey(sortBy, a))
  {
    if order == Asc then AscCompare(sortBy, a, b) else AscCompare(sortBy, b, a)
  }

  /** The descending comparator is the negation of the ascending one. */
  lemma DescNegatesAsc(sortBy: string, a: Holding, b: Holding)
    ensures Compare(sortBy, Desc, a, b) == -Compare(sortBy, Asc, a, b)
  {
    if sortBy == "symbol" {
      LocaleCompareAntisymmetric(a.symbol, b.symbol);
    }
  }

  /** `a` may stay ahead of `b` in the sorted table. */
  function Before(sortBy: string, order: SortOrder): (Holding, Holding) -> bool
  {
    (a: Holding, b: Holding) => Compare(sortBy, order, a, b) <= 0.0
  }

  /** Every key and order yields a consistent comparator, so the sorted table is ordered by it. */
  lemma CompareIsTotalPreorder(sortBy: string, order: SortOrder)
    ensures TotalPreorder(Before(sortBy, order))
  {
    var before := Before(sortBy, order);
    forall a, b ensures before(a, b) || before(b, a) {
      DescNegatesAsc(sortBy, a, b);
      if sortBy == "symbol" {
        LocaleCompareAntisymmetric(a.symbol, b.symbol);
      }
    }
    forall a, b, c | before(a, b) && before(b, c) ensures before(a, c) {
      if sortBy == "symbol" {
        if order == Asc {
          LocaleCompareTransitive(a.symbol, b.symbol, c.symbol);
        } else {
          LocaleCompareTransitive(c.symbol, b.symbol, a.symbol);
        }
      }
    }
  }

  /**
   * `sortedAndFilteredHoldings`: the matching holdings of a copy of the
   * portfolio, in the order the comparator gives.
   */
  function SortedAndFilteredHoldings(hs: seq<Holding>, filter: string, sortBy: string, order: SortOrder): (r: seq<Holding>)
    ensures multiset(r) == multiset(FilteredHoldings(hs, filter))
    ensures forall h :: h in r <==> h in hs && MatchesFilter(h, filter)
    ensures SortedBy(r, Before(sortBy, order))
  {
    var kept := FilteredHoldings(hs, filter);
    var r := Sort(kept, Before(sortBy, order));
    CompareIsTotalPreorder(sortBy, order);
    assert forall h :: h in r <==> h in multiset(kept);
    r
  }

  /** The default table, and any unknown key, lists holdings from the largest value down. */
  lemma DefaultSortIsValueDescending(hs: seq<Holding>, filter: string, sortBy: string)
    requires sortBy !in {"symbol", "price", "change"}
    ensures ValueNonIncreasing(SortedAndFilteredHoldings(hs, filter, sortBy, Desc))
  {
    var r := SortedAndFilteredHoldings(hs, filter, sortBy, Desc);
    forall i, j | 0 <= i < j < |r| ensures r[i].value >= r[j].value {
      assert Before(sortBy, Desc)(r[i], r[j]);
    }
  }

  /** The table's state: sort key, sort order and search text, and the scenario inputs. */
  class PortfolioView {
    var sortBy: string
    var sortOrder: SortOrder
    var filter: string
    var scenarioValue: int
    var scenarioStock: string

    ghost predicate Valid()
      reads this
    {
      -100 <= scenarioValue <= 100
    }

    /** The page's initial state: by value, descending, no search, slider at 0 on AAPL. */
    constructor ()
      ensures Valid()
      ensures sortBy == "value" && sortOrder == Desc && filter == ""
      ensures scenarioValue == 0 && scenarioStock == "AAPL"
    {
      sortBy := "value";
      sortOrder := Desc;
      filter := "";
      scenarioValue := 0;
      scenarioStock := "AAPL";
    }

    /** The rows the table shows for `hs`. */
    function Rows(hs: seq<Holding>): (r: seq<Holding>)
      reads this
      ensures forall h :: h in r <==> h in hs && MatchesFilter(h, filter)
      ensures SortedBy(r, Before(sortBy, sortOrder))
    {
      SortedAndFilteredHoldings(hs, filter, sortBy, sortOrder)
    }

    /** The scenario card for `hs`. */
    function Projection(hs: seq<Holding>): (s: Scenario)
      reads this
      requires Valid()
      ensures s.newValue - s.valueChange == PortfolioValue(hs)
    {
      ProjectScenario(hs, scenarioStock, scenarioValue)
    }

    /** The sort button flips the order and leaves the rest of the page as it was. */
    method ToggleSortOrder()
      requires Valid()
      modifies this
      ensures Valid()
      ensures sortOrder == Toggled(old(sortOrder))
      ensures sortBy == old(sortBy) && filter == old(filter)
      ensures scenarioValue == old(scenarioValue) && scenarioStock == old(scenarioStock)
    {
      sortOrder := if sortOrder == Asc then Desc else Asc;
    }

    method SetSortBy(key: string)
      requires Valid()
      modifies this
      ensures Valid()
      ensures sortBy == key && sortOrder == old(sortOrder) && filter == old(filter)
      ensures scenarioValue == old(scenarioValue) && scenarioStock == old(scenarioStock)
    {
      sortBy := key;
    }

    method SetFilter(text: string)
      requires Valid()
      modifies this
      ensures Valid()
      ensures filter == text && sortBy == old(sortBy) && sortOrder == old(sortOrder)
      ensures scenarioValue == old(scenarioValue) && scenarioStock == old(scenarioStock)
    {
      filter := text;
    }

    /** The slider only produces whole percents from -100 to 100. */
    method SetScenarioValue(v: int)
      requires Valid() && -100 <= v <= 100
      modifies this
      ensures Valid()
      ensures scenarioValue == v && scenarioStock == old(scenarioStock)
      ensures sortBy == old(sortBy) && sortOrder == old(sortOrder) && filter == old(filter)
    {
      scenarioValue := v;
    }

    method SetScenarioStock(symbol: string)
      requires Valid()
      modifies this
      ensures Valid()
      ensures scenarioStock == symbol && scenarioValue == old(scenarioValue)
      ensures sortBy == old(sortBy) && sortOrder == old(sortOrder) && filter == old(filter)
    {
      scenarioStock := symbol;
    }
  }

  // ---------------------------------------------------------------------
  // "Most Valuable"
  // ---------------------------------------------------------------------

  /**
   * Sorts the shared holdings array in place by value, largest first, and
   * names the first holding: one of the largest, and, the sort being stable,
   * the first of the largest in the order the array had. The array must hold
   * at least one holding, as reading element 0 requires.
   */
  method MostValuable(portfolio: array<Holding>) returns (symbol: string)
    requires portfolio.Length > 0
    modifies portfolio
    ensures multiset(portfolio[..]) == old(multiset(portfolio[..]))
    ensures ValueNonIncreasing(portfolio[..])
    ensures forall v :: Filter(portfolio[..], WithValue(v)) == Filter(old(portfolio[..]), WithValue(v))
    ensures symbol == portfolio[0].symbol
    ensures forall h :: h in old(portfolio[..]) ==> h.value <= portfolio[0].value
    ensures exists i :: 0 <= i < portfolio.Length && old(portfolio[i]) == portfolio[0] &&
                        (forall k :: 0 <= k < i ==> old(portfolio[k]).value < portfolio[0].value)
  {
    ghost var before := portfolio[..];
    SortByValueDesc(portfolio);
    symbol := portfolio[0].symbol;
    HeadIsLargest(before, portfolio[..]);
    FirstOfLargest(before, portfolio[..]);
    forall h | h in before ensures h.value <= portfolio[0].value {
      var k :| 0 <= k < |before| && before[k] == h;
    }
  }
}
