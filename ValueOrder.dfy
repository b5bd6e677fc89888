/**
 * `mockPortfolio.sort((a, b) => b.value - a.value)`: the in-place sort of the
 * shared holdings array by value, largest first, that both the "Most
 * Valuable" cell of `src/pages/Portfolio.tsx` and the Top Holdings card of
 * `src/components/dashboard/TopStocks.tsx` run.
 */
module ValueOrder {
  import opened MockData
  import opened Seqs

  /** Holdings listed from the largest value to the smallest. */
  ghost predicate ValueNonIncreasing(s: seq<Holding>)
  {
    forall i, j :: 0 <= i < j < |s| ==> s[i].value >= s[j].value
  }

  /** `(a, b) => b.value - a.value` is at most zero: `x` may stay ahead of `y`. */
  predicate ValueBefore(x: Holding, y: Holding)
  {
    x.value >= y.value
  }

  /** The tie class of the comparator: the holdings worth exactly `v`. */
  function WithValue(v: real): Holding -> bool
  {
    (h: Holding) => h.value == v
  }

  /** The comparator orders all holdings, and a list in its order has non-increasing values. */
  lemma ValueBeforeIsTotalPreorder(s: seq<Holding>)
    ensures TotalPreorder(ValueBefore)
    ensures SortedBy(s, ValueBefore) <==> ValueNonIncreasing(s)
  {
  }

  /**
   * Reorders `a` in place into exactly the list the stable sort by value,
   * largest first, gives: the same holdings, values never increasing, and
   * holdings of equal value in the order they had.
   */
  method SortByValueDesc(a: array<Holding>)
    modifies a
    ensures a[..] == Sort(old(a[..]), ValueBefore)
    ensures multiset(a[..]) == old(multiset(a[..]))
    ensures ValueNonIncreasing(a[..])
    ensures forall v :: Filter(a[..], WithValue(v)) == Filter(old(a[..]), WithValue(v))
  {
    ghost var s := a[..];
    var i := 0;
    WholeSlice(s);
    while i < a.Length
      invariant 0 <= i <= a.Length
      invariant a[..] == Sort(s[..i], ValueBefore) + s[i..]
    {
      ghost var prev := a[..];
      SinkInto(a, i);
      SortStep(s, i, prev, a[..], ValueBefore);
      i := i + 1;
    }
    SortedByValue(s, a[..]);
  }

  /** One pass of the outer loop: sorting one more element inserts it into the sorted prefix. */
  lemma SortStep<T(!new)>(s: seq<T>, i: nat, prev: seq<T>, next: seq<T>, before: (T, T) -> bool)
    requires i < |s| && prev == Sort(s[..i], before) + s[i..]
    requires next == Insert(prev[i], prev[..i], before) + prev[i + 1..]
    ensures next == Sort(s[..i + 1], before) + s[i + 1..]
  {
    var sorted := Sort(s[..i], before);
    assert |sorted| == i;
    SplitAt(sorted, s[i..]);
    SortUnfold(s, i, before);
  }

  /** `Sort` inserts the last element into the sorted rest. */
  lemma SortUnfold<T(!new)>(s: seq<T>, i: nat, before: (T, T) -> bool)
    requires i < |s|
    ensures Sort(s[..i + 1], before) == Insert(s[i], Sort(s[..i], before), before)
    ensures s[i..][0] == s[i] && s[i..][1..] == s[i + 1..]
  {
    var u := s[..i + 1];
    assert u[..|u| - 1] == s[..i] && u[|u| - 1] == s[i];
  }

  /** The two parts of a concatenation. */
  lemma SplitAt<T>(p: seq<T>, q: seq<T>)
    ensures (p + q)[..|p|] == p && (p + q)[|p|..] == q
    ensures q != [] ==> (p + q)[|p|] == q[0] && (p + q)[|p| + 1..] == q[1..]
  {
  }

  /** What the sort promises, read off the functional sort. */
  lemma SortedByValue(s: seq<Holding>, r: seq<Holding>)
    requires r == Sort(s[..|s|], ValueBefore) + s[|s|..]
    ensures multiset(r) == multiset(s)
    ensures ValueNonIncreasing(r)
    ensures r == Sort(s, ValueBefore)
    ensures forall v :: Filter(r, WithValue(v)) == Filter(s, WithValue(v))
  {
    WholeSlice(s);
    ValueBeforeIsTotalPreorder(r);
    forall v ensures Filter(r, WithValue(v)) == Filter(s, WithValue(v)) {
      SortKeepsTiesInOrder(s, ValueBefore, WithValue(v));
    }
  }

  lemma WholeSlice<T>(s: seq<T>)
    ensures s[..|s|] == s && s[|s|..] == [] && s[..0] == [] && s[0..] == s
  {
  }

  /**
   * The first holding of the sorted list is the first holding of the largest
   * value in the original order: every holding before it is worth less.
   */
  lemma FirstOfLargest(s: seq<Holding>, r: seq<Holding>)
    requires r == Sort(s, ValueBefore) && r != []
    ensures exists i :: 0 <= i < |s| && s[i] == r[0] &&
                        (forall k :: 0 <= k < i ==> s[k].value < r[0].value)
  {
    var top := WithValue(r[0].value);
    SortKeepsTiesInOrder(s, ValueBefore, top);
    FilterHead(r, top);
    FirstKept(s, top);
    HeadIsLargest(s, r);
  }

  /** No holding is worth more than the first one of the sorted list. */
  lemma HeadIsLargest(s: seq<Holding>, r: seq<Holding>)
    requires r == Sort(s, ValueBefore) && r != []
    ensures forall k :: 0 <= k < |s| ==> s[k].value <= r[0].value
  {
    ValueBeforeIsTotalPreorder(r);
    forall k | 0 <= k < |s| ensures s[k].value <= r[0].value {
      assert s[k] in multiset(r);
      var m :| 0 <= m < |r| && r[m] == s[k];
      assert m == 0 || ValueBefore(r[0], r[m]);
    }
  }

  /**
   * One insertion step: moves `a[i]` ahead past the strictly smaller values
   * before it, so the first `i + 1` elements become `Insert(a[i], a[..i])`.
   */
  method SinkInto(a: array<Holding>, i: nat)
    requires i < a.Length
    modifies a
    ensures a[..] == Insert(old(a[..])[i], old(a[..])[..i], ValueBefore) + old(a[..])[i + 1..]
  {
    ghost var t := a[..i];
    ghost var x := a[i];
    ghost var rest := a[i + 1..];
    SinkStart(a[..], i, t);
    var j := i;
    while 0 < j && a[j - 1].value < a[j].value
      invariant 0 <= j <= i
      invariant a[..] == t[..j] + [x] + t[j..] + rest
      invariant Insert(x, t, ValueBefore) == Insert(x, t[..j], ValueBefore) + t[j..]
    {
      SinkAt(t, x, rest, j);
      SwapAdjacent(a, j);
      SwapStep(t, x, rest, j);
      InsertPasses(x, t, j, ValueBefore);
      j := j - 1;
    }
    if 0 < j {
      SinkAt(t, x, rest, j);
    }
    InsertStops(x, t, j);
  }

  /** The insertion step starts with `x` at the end of the prefix `t`. */
  lemma SinkStart<T>(s: seq<T>, i: nat, t: seq<T>)
    requires i < |s| && t == s[..i]
    ensures s == t[..i] + [s[i]] + t[i..] + s[i + 1..]
    ensures t[..i] == t && t[i..] == []
  {
  }

  /** Where the insertion step reads its two neighbours. */
  lemma SinkAt<T>(t: seq<T>, x: T, rest: seq<T>, j: nat)
    requires 0 < j <= |t|
    ensures var r := t[..j] + [x] + t[j..] + rest; r[j - 1] == t[j - 1] && r[j] == x && j < |r|
  {
  }

  /** Swapping `x` with the element just ahead of it moves it one place forward. */
  lemma SwapStep<T>(t: seq<T>, x: T, rest: seq<T>, j: nat)
    requires 0 < j <= |t|
    ensures (t[..j] + [x] + t[j..] + rest)[j - 1 := x][j := t[j - 1]] == t[..j - 1] + [x] + t[j - 1..] + rest
  {
    var before := t[..j] + [x] + t[j..] + rest;
    var after := t[..j - 1] + [x] + t[j - 1..] + rest;
    assert |before[j - 1 := x][j := t[j - 1]]| == |after|;
    forall k | 0 <= k < |after| ensures before[j - 1 := x][j := t[j - 1]][k] == after[k] {
      if k < j - 1 {
      } else if k == j - 1 {
      } else if k == j {
      } else {
        assert before[k] == after[k];
      }
    }
  }

  /** `Insert` passes `x` ahead of an element that may not stay ahead of it. */
  lemma InsertPasses<T(!new)>(x: T, t: seq<T>, j: nat, before: (T, T) -> bool)
    requires 0 < j <= |t| && !before(t[j - 1], x)
    ensures Insert(x, t[..j], before) + t[j..] == Insert(x, t[..j - 1], before) + t[j - 1..]
  {
    var u := t[..j];
    assert u[..|u| - 1] == t[..j - 1] && u[|u| - 1] == t[j - 1];
    var m := Insert(x, t[..j - 1], before);
    assert Insert(x, u, before) == m + [t[j - 1]];
    assert t[j - 1..] == [t[j - 1]] + t[j..];
    assert m + [t[j - 1]] + t[j..] == m + ([t[j - 1]] + t[j..]);
  }

  /** `Insert` stops in front of the start or of an element at least as large as `x`. */
  lemma InsertStops(x: Holding, t: seq<Holding>, j: nat)
    requires j <= |t| && (j == 0 || ValueBefore(t[j - 1], x))
    ensures Insert(x, t[..j], ValueBefore) == t[..j] + [x]
  {
    if j > 0 {
      var u := t[..j];
      assert u[|u| - 1] == t[j - 1];
    }
  }

  method SwapAdjacent(a: array<Holding>, j: nat)
    requires 0 < j < a.Length
    modifies a
    ensures a[..] == old(a[..])[j - 1 := old(a[j])][j := old(a[j - 1])]
    ensures multiset(a[..]) == old(multiset(a[..]))
  {
    a[j - 1], a[j] := a[j], a[j - 1];
  }
}
