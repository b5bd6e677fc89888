/**
 * The news carousel (`src/components/dashboard/NewsCarousel.tsx`): the index
 * of the article on show, which wraps around at both ends, and the autoplay
 * flag that any manual navigation switches off for good.
 */
module NewsCarousel {
  import opened MockData

  /** `goToNext`: one article on, from the last back to the first. */
  function NextIndex(i: int, n: int): (r: int)
    requires n > 0 && 0 <= i
    ensures 0 <= r < n
    ensures i < n - 1 ==> r == i + 1
    ensures i == n - 1 ==> r == 0
  {
    (i + 1) % n
  }

  /** `goToPrev`: one article back, from the first to the last. */
  function PrevIndex(i: int, n: int): (r: int)
    requires n > 0 && 0 <= i < n
    ensures 0 <= r < n
  {
    if i == 0 then n - 1 else i - 1
  }

  /** Back after forward, and forward after back, return to the same article. */
  lemma PrevNextInverse(i: int, n: int)
    requires n > 0 && 0 <= i < n
    ensures PrevIndex(NextIndex(i, n), n) == i
    ensures NextIndex(PrevIndex(i, n), n) == i
  {
  }

  /** The index after `k` steps forward. */
  function NextTimes(i: int, n: int, k: nat): (r: int)
    requires n > 0 && 0 <= i < n
    ensures 0 <= r < n
  {
    if k == 0 then i else NextIndex(NextTimes(i, n, k - 1), n)
  }

  /** Up to a full round, `k` steps forward land `k` articles on, wrapping past the last once. */
  lemma {:induction false} NextTimesIsShift(i: int, n: int, k: nat)
    requires n > 0 && 0 <= i < n && k <= n
    ensures NextTimes(i, n, k) == if i + k < n then i + k else i + k - n
  {
    if k > 0 {
      NextTimesIsShift(i, n, k - 1);
    }
  }

  /** A full round of `n` steps forward comes back to where it started. */
  lemma FullRoundReturns(i: int, n: int)
    requires n > 0 && 0 <= i < n
    ensures NextTimes(i, n, n) == i
  {
    NextTimesIsShift(i, n, n);
  }

  class Carousel {
    /** The number of articles, `mockArticles.length`. */
    const count: int
    var activeIndex: int
    var isAutoPlaying: bool

    ghost predicate Valid()
      reads this
    {
      count > 0 && 0 <= activeIndex < count
    }

    /** The carousel starts on the first article, playing. */
    constructor ()
      ensures Valid()
      ensures count == |MockArticles()| && activeIndex == 0 && isAutoPlaying
    {
      count := |MockArticles()|;
      activeIndex := 0;
      isAutoPlaying := true;
    }

    /** The right-arrow button: one article on, and autoplay stops. */
    method ClickNext()
      requires Valid()
      modifies this
      ensures Valid()
      ensures activeIndex == NextIndex(old(activeIndex), count) && !isAutoPlaying
    {
      activeIndex := (activeIndex + 1) % count;
      isAutoPlaying := false;
    }

    /** The left-arrow button: one article back, and autoplay stops. */
    method ClickPrev()
      requires Valid()
      modifies this
      ensures Valid()
      ensures activeIndex == PrevIndex(old(activeIndex), count) && !isAutoPlaying
    {
      activeIndex := if activeIndex == 0 then count - 1 else activeIndex - 1;
      isAutoPlaying := false;
    }

    /** A dot under the slides: that article directly, and autoplay stops. */
    method SelectDot(index: int)
      requires Valid() && 0 <= index < count
      modifies this
      ensures Valid()
      ensures activeIndex == index && !isAutoPlaying
    {
      activeIndex := index;
      isAutoPlaying := false;
    }

    /**
     * The eight-second timer: it advances while autoplay is on; once autoplay
     * is off the interval is cleared and nothing moves.
     */
    method AutoTick()
      requires Valid()
      modifies this
      ensures Valid() && isAutoPlaying == old(isAutoPlaying)
      ensures activeIndex == if old(isAutoPlaying) then NextIndex(old(activeIndex), count) else old(activeIndex)
    {
      if isAutoPlaying {
        activeIndex := (activeIndex + 1) % count;
      }
    }
  }
}
