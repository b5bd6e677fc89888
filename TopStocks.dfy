/**
 * The Top Holdings card (`src/components/dashboard/TopStocks.tsx`): it sorts
 * the shared holdings array in place by value and shows the first four.
 */
module TopStocks {
  import opened Numbers
  import opened MockData
  import opened Seqs
  import opened ValueOrder

  /** How many holdings the card shows at most. */
  const Shown: nat := 4

  /**
   * `mockPortfolio.sort((a, b) => b.value - a.value).slice(0, 4)`: the array
   * is left reordered, and the card gets its first four holdings, which are
   * at least as valuable as every holding it leaves out.
   */
  method TopHoldings(portfolio: array<Holding>) returns (top: seq<Holding>)
    modifies portfolio
    ensures multiset(portfolio[..]) == old(multiset(portfolio[..]))
    ensures ValueNonIncreasing(portfolio[..])
    ensures |top| == Min(Shown, portfolio.Length)
    ensures top == portfolio[..|top|]
    ensures ValueNonIncreasing(top)
    ensures forall i, j :: 0 <= i < |top| && |top| <= j < portfolio.Length ==> top[i].value >= portfolio[j].value
    ensures forall v :: Filter(portfolio[..], WithValue(v)) == Filter(old(portfolio[..]), WithValue(v))
    ensures forall v :: Filter(top, WithValue(v)) <= Filter(old(portfolio[..]), WithValue(v))
  {
    ghost var before := portfolio[..];
    SortByValueDesc(portfolio);
    top := portfolio[..Min(Shown, portfolio.Length)];
    forall v ensures Filter(top, WithValue(v)) <= Filter(before, WithValue(v)) {
      TakeOfSortKeepsTiesInOrder(before, ValueBefore, Shown, WithValue(v));
    }
  }
}
