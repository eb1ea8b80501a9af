/** The two album carousels of the home page (`OffersCarousel.tsx` and
    `FeaturedCarousel.tsx`), which share one state machine: the index of the
    first visible album and the number of albums in view, changed by the
    arrow buttons and by a window resize. The window width is a parameter. */
module Carousel {

  /** The albums in view for a window width: 1 on phones, 2 on tablets, 3
      otherwise. */
  function ItemsFor(width: int): (n: int)
    ensures 1 <= n <= 3
    ensures width < 768 ==> n == 1
    ensures 768 <= width < 992 ==> n == 2
    ensures 992 <= width ==> n == 3
  {
    if width < 768 then 1 else if width < 992 then 2 else 3
  }

  /** A wider window never shows fewer albums. */
  lemma ItemsForMonotone(w1: int, w2: int)
    requires w1 <= w2
    ensures ItemsFor(w1) <= ItemsFor(w2)
  {
  }

  /** `Math.max(0, albums - itemsPerView)`. */
  function MaxIndexFor(albums: nat, itemsPerView: int): (m: int)
    ensures m >= 0
    ensures m == 0 <==> albums <= itemsPerView
    ensures m > 0 ==> m + itemsPerView == albums
  {
    if albums - itemsPerView > 0 then albums - itemsPerView else 0
  }

  /** `Math.max(0, prev - 1)`. */
  function PrevIndex(i: int): (r: int)
    ensures r >= 0
    ensures i > 0 ==> r == i - 1
    ensures i <= 0 ==> r == 0
  {
    if i - 1 > 0 then i - 1 else 0
  }

  /** `Math.min(maxIndex, prev + 1)`. */
  function NextIndex(i: int, maxIndex: int): (r: int)
    ensures r <= maxIndex
    ensures i < maxIndex ==> r == i + 1
    ensures i >= maxIndex ==> r == maxIndex
  {
    if i + 1 < maxIndex then i + 1 else maxIndex
  }

  class Carousel {
    const albums: nat
    var currentIndex: int
    var itemsPerView: int

    function MaxIndex(): (m: int)
      reads this
      ensures m >= 0
      ensures m == 0 <==> albums <= itemsPerView
      ensures m > 0 ==> m + itemsPerView == albums
    {
      MaxIndexFor(albums, itemsPerView)
    }

    /** The index stays within `[0, maxIndex]` and 1 to 3 albums are in view. */
    predicate Valid()
      reads this
    {
      0 <= currentIndex <= MaxIndex() && 1 <= itemsPerView <= 3
    }

    /** `disabled={currentIndex === 0}`. */
    predicate PrevDisabled()
      reads this
    {
      currentIndex == 0
    }

    /** `disabled={currentIndex >= maxIndex}`. */
    predicate NextDisabled()
      reads this
    {
      currentIndex >= MaxIndex()
    }

    /** Mounting: index 0 and 3 albums in view, then the resize handler runs
        once for the current width. */
    constructor(albums: nat, width: int)
      ensures this.albums == albums && currentIndex == 0 && itemsPerView == ItemsFor(width)
      ensures Valid()
    {
      this.albums := albums;
      currentIndex := 0;
      itemsPerView := 3;
      new;
      Resize(width);
    }

    /** `handleResize`: the albums in view follow the width, and the index
        goes back to the start. */
    method Resize(width: int)
      modifies this
      ensures itemsPerView == ItemsFor(width) && currentIndex == 0
      ensures Valid()
    {
      itemsPerView := ItemsFor(width);
      currentIndex := 0;
    }

    /** `handlePrev`. */
    method Prev()
      requires Valid()
      modifies this
      ensures currentIndex == PrevIndex(old(currentIndex)) && itemsPerView == old(itemsPerView)
      ensures Valid()
    {
      currentIndex := PrevIndex(currentIndex);
    }

    /** `handleNext`. */
    method Next()
      requires Valid()
      modifies this
      ensures currentIndex == NextIndex(old(currentIndex), old(MaxIndex())) && itemsPerView == old(itemsPerView)
      ensures Valid()
    {
      currentIndex := NextIndex(currentIndex, MaxIndex());
    }
  }

  /** Within the valid range, the previous-arrow is disabled exactly when a
      click on it would change nothing. */
  lemma PrevDisabledIffNoop(i: int)
    requires i >= 0
    ensures i == 0 <==> PrevIndex(i) == i
  {
  }

  /** Within the valid range, the next-arrow is disabled exactly when a click
      on it would change nothing. */
  lemma NextDisabledIffNoop(i: int, maxIndex: int)
    requires 0 <= i <= maxIndex
    ensures i >= maxIndex <==> NextIndex(i, maxIndex) == i
  {
  }

  /** `k` clicks on the next-arrow from index `i`. */
  function Advance(i: int, maxIndex: int, k: nat): int {
    if k == 0 then i else NextIndex(Advance(i, maxIndex, k - 1), maxIndex)
  }

  /** Clicking next from the start reaches the last position after
      `maxIndex` clicks and stays there. */
  lemma {:induction false} AdvanceReachesEnd(maxIndex: nat, k: nat)
    ensures Advance(0, maxIndex, k) == if k < maxIndex then k else maxIndex
  {
    if k > 0 {
      AdvanceReachesEnd(maxIndex, k - 1);
    }
  }

  /** The five albums each carousel shows: three in view on a wide screen
      leave two steps, and one in view on a phone leaves four. */
  lemma FiveAlbums()
    ensures MaxIndexFor(5, ItemsFor(1200)) == 2
    ensures MaxIndexFor(5, ItemsFor(800)) == 3
    ensures MaxIndexFor(5, ItemsFor(375)) == 4
  {
  }
}
