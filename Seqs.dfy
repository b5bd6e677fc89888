/**
 * `Array.prototype.filter` and `Array.prototype.sort` on copies of arrays,
 * as the pages use them on spread copies of the mock data. The sort is
 * stable, and `SortKeepsTiesInOrder` proves the model's sort stable too.
 */
module Seqs {
  import opened Numbers

  /** `s.find(p)`: the first element that satisfies `p`, or `None` (JavaScript's `undefined`). */
  function FindFirst<T(==)>(s: seq<T>, p: T -> bool): (r: Option<T>)
    ensures r.None? <==> forall i :: 0 <= i < |s| ==> !p(s[i])
    ensures r.Some? ==>
      exists i :: 0 <= i < |s| && s[i] == r.value && p(s[i])
                  && forall k :: 0 <= k < i ==> !p(s[k])
  {
    if s == [] then None
    else if p(s[0]) then
      assert s[0] == s[0];
      Some(s[0])
    else
      var r := FindFirst(s[1..], p);
      assert forall i :: 1 <= i < |s| ==> s[i] == s[1..][i - 1];
      if r.Some? then
        var i :| 0 <= i < |s[1..]| && s[1..][i] == r.value && p(s[1..][i])
                 && forall k :: 0 <= k < i ==> !p(s[1..][k]);
        assert s[i + 1] == r.value;
        r
      else
        r
  }

  /** `r` is `s` with some elements dropped and the rest kept in their order. */
  predicate IsSublist<T(==)>(r: seq<T>, s: seq<T>)
    decreases |s|
  {
    if r == [] then true
    else if s == [] then false
    else (r[0] == s[0] && IsSublist(r[1..], s[1..])) || IsSublist(r, s[1..])
  }

  /** `s.filter(keep)`. */
  function Filter<T(!new)>(s: seq<T>, keep: T -> bool): (r: seq<T>)
    ensures |r| <= |s|
    ensures forall x :: x in r <==> x in s && keep(x)
    ensures forall x :: keep(x) ==> multiset(r)[x] == multiset(s)[x]
    ensures IsSublist(r, s)
  {
    if s == [] then []
    else
      var rest := Filter(s[1..], keep);
      assert forall x :: x in s <==> x == s[0] || x in s[1..];
      assert s == [s[0]] + s[1..];
      assert multiset(s) == multiset{s[0]} + multiset(s[1..]);
      if keep(s[0]) then
        assert ([s[0]] + rest)[1..] == rest;
        assert multiset([s[0]] + rest) == multiset{s[0]} + multiset(rest);
        [s[0]] + rest
      else
        SublistOfTail(rest, s);
        rest
  }

  /** Filtering a concatenation filters each part. */
  lemma FilterAppend<T(!new)>(a: seq<T>, b: seq<T>, keep: T -> bool)
    ensures Filter(a + b, keep) == Filter(a, keep) + Filter(b, keep)
  {
    KeptAppend(a, b, keep);
    KeptIsFilter(a + b, keep);
    KeptIsFilter(a, keep);
    KeptIsFilter(b, keep);
  }

  /** The elements `keep` accepts, in order: `Filter` without its contract, cheap to reason about. */
  function Kept<T>(s: seq<T>, keep: T -> bool): seq<T>
  {
    if s == [] then [] else (if keep(s[0]) then [s[0]] else []) + Kept(s[1..], keep)
  }

  /** A list whose first element passes starts its filtered list. */
  lemma FilterHead<T(!new)>(s: seq<T>, keep: T -> bool)
    requires s != [] && keep(s[0])
    ensures Filter(s, keep) != [] && Filter(s, keep)[0] == s[0]
  {
  }

  /** The first element a filter keeps is the first element of `s` that passes. */
  lemma {:induction false} FirstKept<T(!new)>(s: seq<T>, keep: T -> bool)
    requires Filter(s, keep) != []
    ensures exists i :: 0 <= i < |s| && s[i] == Filter(s, keep)[0] && keep(s[i]) &&
                        (forall k :: 0 <= k < i ==> !keep(s[k]))
  {
    if keep(s[0]) {
      FilterHead(s, keep);
    } else {
      var rest := s[1..];
      assert Filter(s, keep) == Filter(rest, keep);
      FirstKept(rest, keep);
      var i :| 0 <= i < |rest| && rest[i] == Filter(rest, keep)[0] && keep(rest[i]) &&
               (forall k :: 0 <= k < i ==> !keep(rest[k]));
      ShiftedFirst(s, keep, i);
    }
  }

  /** The step of `FirstKept` past a first element that does not pass. */
  lemma ShiftedFirst<T>(s: seq<T>, keep: T -> bool, i: nat)
    requires s != [] && !keep(s[0]) && i < |s| - 1
    requires forall k :: 0 <= k < i ==> !keep(s[1..][k])
    ensures s[i + 1] == s[1..][i]
    ensures forall k :: 0 <= k < i + 1 ==> !keep(s[k])
  {
    forall k | 0 <= k < i + 1 ensures !keep(s[k]) {
      if k > 0 {
        assert s[k] == s[1..][k - 1];
      }
    }
  }

  /** `Kept` and `Filter` agree everywhere. */
  lemma {:induction false} KeptIsFilter<T(!new)>(s: seq<T>, keep: T -> bool)
    ensures Kept(s, keep) == Filter(s, keep)
  {
    if s != [] {
      KeptIsFilter(s[1..], keep);
    }
  }

  /** `FilterAppend` for `Kept`. */
  lemma {:induction false} KeptAppend<T>(a: seq<T>, b: seq<T>, keep: T -> bool)
    ensures Kept(a + b, keep) == Kept(a, keep) + Kept(b, keep)
  {
    if a == [] {
      assert a + b == b;
    } else {
      var head := if keep(a[0]) then [a[0]] else [];
      assert (a + b)[0] == a[0] && (a + b)[1..] == a[1..] + b;
      assert Kept(a + b, keep) == head + Kept(a[1..] + b, keep);
      KeptAppend(a[1..], b, keep);
      assert head + (Kept(a[1..], keep) + Kept(b, keep)) == (head + Kept(a[1..], keep)) + Kept(b, keep);
    }
  }

  lemma SublistOfTail<T>(r: seq<T>, s: seq<T>)
    requires s != [] && IsSublist(r, s[1..])
    ensures IsSublist(r, s)
  {
  }

  /** The first `k` elements of a sublist of `s` are a sublist of `s` too. */
  lemma {:induction false} PrefixOfSublist<T>(r: seq<T>, s: seq<T>, k: nat)
    requires IsSublist(r, s) && k <= |r|
    ensures IsSublist(r[..k], s)
    decreases |s|
  {
    if k > 0 {
      assert s != [];
      if r[0] == s[0] && IsSublist(r[1..], s[1..]) {
        PrefixOfSublist(r[1..], s[1..], k - 1);
        assert r[..k][1..] == r[1..][..k - 1];
      } else {
        PrefixOfSublist(r, s[1..], k);
        SublistOfTail(r[..k], s);
      }
    }
  }

  /** A filter that keeps every element returns the array as it was. */
  lemma {:induction false} FilterKeepsAll<T(!new)>(s: seq<T>, keep: T -> bool)
    requires forall x :: x in s ==> keep(x)
    ensures Filter(s, keep) == s
  {
    if s != [] {
      FilterKeepsAll(s[1..], keep);
    }
  }

  /** A filter that keeps nothing returns the empty array. */
  lemma {:induction false} FilterKeepsNone<T(!new)>(s: seq<T>, keep: T -> bool)
    requires forall x :: x in s ==> !keep(x)
    ensures Filter(s, keep) == []
  {
    if s != [] {
      FilterKeepsNone(s[1..], keep);
    }
  }

  /** Elements do not get more numerous by filtering. */
  lemma {:induction false} FilterSubMultiset<T(!new)>(s: seq<T>, keep: T -> bool)
    ensures multiset(Filter(s, keep)) <= multiset(s)
  {
    if s != [] {
      FilterSubMultiset(s[1..], keep);
      assert s == [s[0]] + s[1..];
    }
  }

  /** `before` is what a comparator `cmp` promises with `cmp(a, b) <= 0`: `a` may stay ahead of `b`. */
  ghost predicate TotalPreorder<T(!new)>(before: (T, T) -> bool)
  {
    && (forall a, b :: before(a, b) || before(b, a))
    && (forall a, b, c :: before(a, b) && before(b, c) ==> before(a, c))
  }

  ghost predicate SortedBy<T>(s: seq<T>, before: (T, T) -> bool)
  {
    forall i, j :: 0 <= i < j < |s| ==> before(s[i], s[j])
  }

  /** Places `x`, the later element, behind every element of `t` that may stay ahead of it. */
  function Insert<T(!new)>(x: T, t: seq<T>, before: (T, T) -> bool): (r: seq<T>)
    ensures |r| == |t| + 1
    ensures multiset(r) == multiset(t) + multiset{x}
    ensures TotalPreorder(before) && SortedBy(t, before) ==> SortedBy(r, before)
  {
    if t == [] then [x]
    else
      var last := t[|t| - 1];
      var init := t[..|t| - 1];
      assert t == init + [last];
      if before(last, x) then
        t + [x]
      else
        var m := Insert(x, init, before);
        AppendBehind(m, x, init, last, before);
        m + [last]
  }

  /** The step of `Insert` that puts `last` back behind the insertion into `init`. */
  lemma AppendBehind<T(!new)>(m: seq<T>, x: T, init: seq<T>, last: T, before: (T, T) -> bool)
    requires multiset(m) == multiset(init) + multiset{x}
    requires !before(last, x)
    requires TotalPreorder(before) && SortedBy(init, before) ==> SortedBy(m, before)
    ensures TotalPreorder(before) && SortedBy(init + [last], before) ==> SortedBy(m + [last], before)
  {
    if TotalPreorder(before) && SortedBy(init + [last], before) {
      var t := init + [last];
      assert SortedBy(init, before) by {
        forall i, j | 0 <= i < j < |init| ensures before(init[i], init[j]) {
          assert t[i] == init[i] && t[j] == init[j];
        }
      }
      forall y | y in m ensures before(y, last) {
        assert y in multiset(m);
        if y != x {
          assert y in multiset(init);
          var i :| 0 <= i < |init| && init[i] == y;
          assert t[i] == y && t[|init|] == last;
        }
      }
      var r := m + [last];
      forall i, j | 0 <= i < j < |r| ensures before(r[i], r[j]) {
        if j < |m| {
          assert r[i] == m[i] && r[j] == m[j];
        } else {
          assert r[i] in m;
        }
      }
    }
  }

  /**
   * `s.sort(cmp)` on a copy, with `before(a, b)` standing for `cmp(a, b) <= 0`:
   * a permutation, in order; `SortKeepsTiesInOrder` proves it stable.
   */
  function Sort<T(!new)>(s: seq<T>, before: (T, T) -> bool): (r: seq<T>)
    ensures multiset(r) == multiset(s)
    ensures |r| == |s|
    ensures TotalPreorder(before) ==> SortedBy(r, before)
  {
    if s == [] then []
    else
      assert s == s[..|s| - 1] + [s[|s| - 1]];
      Insert(s[|s| - 1], Sort(s[..|s| - 1], before), before)
  }

  /**
   * `Insert` puts `x` behind every element it ties with, so the elements of a
   * tie class `same` (any set the comparator lets stand in either order) keep
   * their order, with `x` last.
   */
  lemma {:induction false} InsertKeepsTiesInOrder<T(!new)>(x: T, t: seq<T>, before: (T, T) -> bool, same: T -> bool)
    requires forall a, b :: same(a) && same(b) ==> before(a, b)
    ensures Filter(Insert(x, t, before), same) == Filter(t, same) + Filter([x], same)
    decreases |t|
  {
    if t == [] {
      assert Insert(x, t, before) == [x];
      assert Filter(t, same) == [];
    } else {
      var last := t[|t| - 1];
      var init := t[..|t| - 1];
      assert t == init + [last];
      if before(last, x) {
        assert Insert(x, t, before) == t + [x];
        FilterAppend(t, [x], same);
      } else {
        assert Insert(x, t, before) == Insert(x, init, before) + [last];
        InsertKeepsTiesInOrder(x, init, before, same);
        PassTie(x, init, last, Insert(x, init, before), before, same);
      }
    }
  }

  /** The step of `InsertKeepsTiesInOrder` where `x` is inserted ahead of `last`, which cannot tie with it. */
  lemma PassTie<T(!new)>(x: T, init: seq<T>, last: T, m: seq<T>, before: (T, T) -> bool, same: T -> bool)
    requires forall a, b :: same(a) && same(b) ==> before(a, b)
    requires !before(last, x)
    requires Filter(m, same) == Filter(init, same) + Filter([x], same)
    ensures Filter(m + [last], same) == Filter(init + [last], same) + Filter([x], same)
  {
    FilterAppend(m, [last], same);
    FilterAppend(init, [last], same);
    FilterOne(x, same);
    FilterOne(last, same);
    if same(x) {
      assert !same(last);
      PassTieCase(Filter(init, same), [x], []);
    } else {
      PassTieCase(Filter(init, same), [], Filter([last], same));
    }
  }

  /** One of two adjacent parts is empty, so they may change places. */
  lemma PassTieCase<T>(fi: seq<T>, fx: seq<T>, fl: seq<T>)
    requires fx == [] || fl == []
    ensures fi + fx + fl == fi + fl + fx
  {
  }

  /** Filtering a single element keeps it exactly when it passes. */
  lemma FilterOne<T(!new)>(y: T, keep: T -> bool)
    ensures Filter([y], keep) == if keep(y) then [y] else []
  {
    assert [y][1..] == [];
  }

  /**
   * The sort is stable: the elements of any tie class leave it in the order
   * they had, as `Array.prototype.sort` guarantees.
   */
  lemma {:induction false} SortKeepsTiesInOrder<T(!new)>(s: seq<T>, before: (T, T) -> bool, same: T -> bool)
    requires forall a, b :: same(a) && same(b) ==> before(a, b)
    ensures Filter(Sort(s, before), same) == Filter(s, same)
    decreases |s|
  {
    if s != [] {
      var init := s[..|s| - 1];
      var x := s[|s| - 1];
      assert s == init + [x];
      SortKeepsTiesInOrder(init, before, same);
      InsertKeepsTiesInOrder(x, Sort(init, before), before, same);
      FilterAppend(init, [x], same);
    }
  }

  /**
   * The first `k` elements of a stable sort: the members of a tie class that
   * make it in are the first of that class in the original order.
   */
  lemma TakeOfSortKeepsTiesInOrder<T(!new)>(s: seq<T>, before: (T, T) -> bool, k: nat, same: T -> bool)
    requires forall a, b :: same(a) && same(b) ==> before(a, b)
    ensures Filter(Take(Sort(s, before), k), same) <= Filter(s, same)
  {
    var sorted := Sort(s, before);
    var top := Take(sorted, k);
    assert sorted == top + sorted[|top|..];
    FilterAppend(top, sorted[|top|..], same);
    SortKeepsTiesInOrder(s, before, same);
  }

  /** The first `k` elements, or all of them when there are fewer. */
  function Take<T>(s: seq<T>, k: nat): (r: seq<T>)
    ensures |r| == Min(k, |s|) && r == s[..|r|]
  {
    if |s| <= k then s else s[..k]
  }
}
