/** The featured-items carousel of the clothing-exchange landing page: the
    current slide index, moved forward and back with wrap-around, set
    directly by a dot, and advanced by a timer that runs only while there
    is something to show. */
module Carousel {

  /** `(prev + 1) % n`; both operands are non-negative, so JavaScript's
      remainder agrees with Dafny's. */
  function NextIndex(i: nat, n: nat): (j: nat)
    requires n > 0
    ensures j < n
    ensures i + 1 < n ==> j == i + 1
    ensures i == n - 1 ==> j == 0
  {
    (i + 1) % n
  }

  /** `(prev - 1 + n) % n`, again on non-negative operands. */
  function PrevIndex(i: nat, n: nat): (j: nat)
    requires n > 0
    ensures j < n
    ensures 0 < i <= n ==> j == i - 1
    ensures i == 0 ==> j == n - 1
  {
    (i - 1 + n) % n
  }

  /** On an index in range, going back undoes going forward and the other
      way round. */
  lemma PrevUndoesNext(i: nat, n: nat)
    requires i < n
    ensures PrevIndex(NextIndex(i, n), n) == i
    ensures NextIndex(PrevIndex(i, n), n) == i
  {
  }

  /** The slide after k forward steps from i. */
  function Advance(i: nat, n: nat, k: nat): (j: nat)
    requires n > 0
  {
    if k == 0 then i else NextIndex(Advance(i, n, k - 1), n)
  }

  /** Up to n forward steps from a slide in range land on i + k, wrapped
      once past the end; n steps bring the carousel back to where it started. */
  lemma {:induction false} AdvanceWraps(i: nat, n: nat, k: nat)
    requires n > 0 && i < n && k <= n
    ensures Advance(i, n, k) == if i + k < n then i + k else i + k - n
    ensures k == n ==> Advance(i, n, k) == i
  {
    if k > 0 {
      AdvanceWraps(i, n, k - 1);
    }
  }

  /** The carousel is drawn only when there are items. */
  predicate ShowsCarousel(n: nat) { n > 0 }

  /** The arrows and the dots are drawn only when there is more than one item. */
  predicate ShowsNavigation(n: nat) { n > 1 }

  class FeaturedCarousel {
    /** The number of featured items. */
    var slides: nat
    var currentSlide: nat
    /** Whether the auto-advance interval is registered. */
    var timerActive: bool

    /** The interval is registered exactly while there are items. */
    ghost predicate Valid()
      reads this
    {
      timerActive <==> slides > 0
    }

    constructor ()
      ensures Valid() && slides == 0 && currentSlide == 0 && !timerActive
    {
      slides := 0;
      currentSlide := 0;
      timerActive := false;
    }

    /** The fetched items arrive: the interval is registered again, and only
        when there are items; the index is left as it was. */
    method SetItems(n: nat)
      modifies this
      ensures Valid() && slides == n && currentSlide == old(currentSlide)
      ensures timerActive <==> ShowsCarousel(n)
    {
      slides := n;
      timerActive := n > 0;
    }

    /** `nextSlide`, reachable through the arrow or the interval, both of
        which exist only when there are items. */
    method Next()
      requires slides > 0
      requires Valid()
      modifies this
      ensures Valid() && slides == old(slides) && timerActive == old(timerActive)
      ensures currentSlide == NextIndex(old(currentSlide), slides)
    {
      currentSlide := (currentSlide + 1) % slides;
    }

    /** `prevSlide`, reachable through the arrow. */
    method Prev()
      requires slides > 1
      requires Valid()
      modifies this
      ensures Valid() && slides == old(slides) && timerActive == old(timerActive)
      ensures currentSlide == PrevIndex(old(currentSlide), slides)
    {
      currentSlide := (currentSlide - 1 + slides) % slides;
    }

    /** A click on dot k, which exists only for k below the item count. */
    method SelectDot(k: nat)
      requires k < slides && ShowsNavigation(slides)
      requires Valid()
      modifies this
      ensures currentSlide == k
      ensures Valid() && slides == old(slides) && timerActive == old(timerActive)
    {
      currentSlide := k;
    }

    /** The interval fires: a step forward if it is registered, nothing otherwise. */
    method Tick()
      requires Valid()
      modifies this
      ensures Valid() && slides == old(slides) && timerActive == old(timerActive)
      ensures timerActive ==> slides > 0 && currentSlide == NextIndex(old(currentSlide), slides)
      ensures !timerActive ==> currentSlide == old(currentSlide)
    {
      if timerActive {
        Next();
      }
    }
  }
}
