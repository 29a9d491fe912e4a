/**
 * The image carousel (components/Carousel.tsx): an index into the image
 * list that wraps around, moved by the dots, by an interval while the
 * pointer is away, and by touch or mouse swipes longer than 50 pixels.
 */
module Carousel {

  /** The swipe distance that must be exceeded for a slide to change. */
  const SwipeThreshold: int := 50

  /** `goToNext`: the last index wraps to 0, any other advances by one. */
  function Next(i: int, n: nat): (r: int)
    ensures 0 <= i < n ==> 0 <= r < n && r == (i + 1) % n
  {
    if i == n - 1 then 0 else i + 1
  }

  /** `goToPrevious`: index 0 wraps to the last one, any other goes back by one. */
  function Prev(i: int, n: nat): (r: int)
    ensures 0 <= i < n ==> 0 <= r < n && r == (i - 1 + n) % n
  {
    if i == 0 then n - 1 else i - 1
  }

  /** Next then previous, or previous then next, returns to the same image. */
  lemma NextPrevInverse(i: int, n: nat)
    requires 0 <= i < n
    ensures Prev(Next(i, n), n) == i
    ensures Next(Prev(i, n), n) == i
  {
  }

  /** The index after `k` steps forward. */
  function Advance(i: int, n: nat, k: nat): (r: int)
    ensures 0 <= i < n ==> 0 <= r < n
  {
    if k == 0 then i else Next(Advance(i, n, k - 1), n)
  }

  /** While no wrap-around is reached, `k` steps forward add `k`. */
  lemma {:induction false} AdvanceWithoutWrap(i: int, n: nat, k: nat)
    requires 0 <= i && i + k < n
    ensures Advance(i, n, k) == i + k
  {
    if k > 0 {
      AdvanceWithoutWrap(i, n, k - 1);
    }
  }

  /** Stepping `a` times and then `b` times is stepping `a + b` times. */
  lemma {:induction false} AdvanceCompose(i: int, n: nat, a: nat, b: nat)
    ensures Advance(i, n, a + b) == Advance(Advance(i, n, a), n, b)
  {
    if b > 0 {
      AdvanceCompose(i, n, a, b - 1);
    }
  }

  /** After one step per image the carousel shows the image it started from. */
  lemma FullCycle(i: int, n: nat)
    requires 0 <= i < n
    ensures Advance(i, n, n) == i
    ensures forall k :: 0 < k < n ==> Advance(i, n, k) != i
  {
    AdvanceWithoutWrap(i, n, n - 1 - i);
    assert Advance(i, n, n - i) == 0;
    AdvanceCompose(i, n, n - i, i);
    AdvanceWithoutWrap(0, n, i);
    forall k | 0 < k < n
      ensures Advance(i, n, k) != i
    {
      NoEarlyReturn(i, n, k);
    }
  }

  /** Fewer steps than images never lead back to the starting image. */
  lemma NoEarlyReturn(i: int, n: nat, k: nat)
    requires 0 <= i < n && 0 < k < n
    ensures Advance(i, n, k) != i
  {
    if i + k < n {
      AdvanceWithoutWrap(i, n, k);
    } else {
      AdvanceWithoutWrap(i, n, n - 1 - i);
      assert Advance(i, n, n - i) == 0;
      AdvanceCompose(i, n, n - i, k - (n - i));
      AdvanceWithoutWrap(0, n, k - (n - i));
    }
  }

  /** What a finished swipe does. */
  datatype Step = Forward | Back | Stay

  /**
   * The decision of `handleTouchEnd`/`handleMouseUp`: nothing when either
   * coordinate is 0 (falsy), otherwise a swipe left by more than the
   * threshold goes forward and one right by more than it goes back.
   */
  function SwipeStep(touchStart: int, touchEnd: int): (s: Step)
    ensures touchStart == 0 || touchEnd == 0 ==> s == Stay
    ensures touchStart != 0 && touchEnd != 0 ==>
              (s == Forward <==> touchStart - touchEnd > SwipeThreshold)
              && (s == Back <==> touchStart - touchEnd < -SwipeThreshold)
  {
    if touchStart == 0 || touchEnd == 0 then Stay
    else
      var distance := touchStart - touchEnd;
      if distance > SwipeThreshold then Forward
      else if distance < -SwipeThreshold then Back
      else Stay
  }

  /** A gesture and its mirror image (start and end swapped) step in opposite directions, or both stay. */
  lemma SwipesMirror(a: int, b: int)
    requires a != 0 && b != 0
    ensures SwipeStep(a, b) == Forward <==> SwipeStep(b, a) == Back
    ensures SwipeStep(a, b) == Stay <==> SwipeStep(b, a) == Stay
  {
  }

  /** The index a step leads to. */
  function Apply(s: Step, i: int, n: nat): (r: int)
    ensures 0 <= i < n ==> 0 <= r < n
    ensures s == Stay ==> r == i
  {
    match s
    case Forward => Next(i, n)
    case Back => Prev(i, n)
    case Stay => i
  }

  /** What the carousel renders. */
  datatype View = NoImages | Slides(currentIndex: int)

  class Carousel {
    const imageCount: nat
    var currentIndex: int
    var isHovered: bool
    var touchStart: int
    var touchEnd: int

    /** The index always names an image, or is 0 when there is none. */
    ghost predicate Valid()
      reads this
    {
      if imageCount == 0 then currentIndex == 0 else 0 <= currentIndex < imageCount
    }

    constructor(imageCount: nat)
      ensures Valid()
      ensures this.imageCount == imageCount && currentIndex == 0 && !isHovered && touchStart == 0 && touchEnd == 0
    {
      this.imageCount := imageCount;
      currentIndex := 0;
      isHovered := false;
      touchStart := 0;
      touchEnd := 0;
    }

    /** A placeholder for an empty list, otherwise the slide at the current index. */
    function Render(): (v: View)
      reads this
      ensures v.NoImages? <==> imageCount == 0
      ensures v.Slides? ==> v.currentIndex == currentIndex
    {
      if imageCount == 0 then NoImages else Slides(currentIndex)
    }

    /** `goToSlide(index)`, from the dot of that image. */
    method GoToSlide(index: int)
      requires Valid() && 0 <= index < imageCount
      modifies this
      ensures Valid() && currentIndex == index
      ensures isHovered == old(isHovered) && touchStart == old(touchStart) && touchEnd == old(touchEnd)
    {
      currentIndex := index;
    }

    method GoToNext()
      requires Valid() && imageCount > 0
      modifies this
      ensures Valid() && currentIndex == (old(currentIndex) + 1) % imageCount
      ensures isHovered == old(isHovered) && touchStart == old(touchStart) && touchEnd == old(touchEnd)
    {
      currentIndex := Next(currentIndex, imageCount);
    }

    method GoToPrevious()
      requires Valid() && imageCount > 0
      modifies this
      ensures Valid() && currentIndex == (old(currentIndex) - 1 + imageCount) % imageCount
      ensures isHovered == old(isHovered) && touchStart == old(touchStart) && touchEnd == old(touchEnd)
    {
      currentIndex := Prev(currentIndex, imageCount);
    }

    /**
     * One tick of the auto-advance interval, which runs only while the
     * pointer is away and there is more than one image.
     */
    method Tick()
      requires Valid()
      modifies this
      ensures Valid()
      ensures !old(isHovered) && imageCount > 1 ==> currentIndex == Next(old(currentIndex), imageCount)
      ensures old(isHovered) || imageCount <= 1 ==> currentIndex == old(currentIndex)
      ensures isHovered == old(isHovered) && touchStart == old(touchStart) && touchEnd == old(touchEnd)
    {
      if !isHovered && imageCount > 1 {
        currentIndex := Next(currentIndex, imageCount);
      }
    }

    method MouseEnter()
      modifies this
      ensures isHovered
      ensures currentIndex == old(currentIndex) && touchStart == old(touchStart) && touchEnd == old(touchEnd)
    {
      isHovered := true;
    }

    method MouseLeave()
      modifies this
      ensures !isHovered
      ensures currentIndex == old(currentIndex) && touchStart == old(touchStart) && touchEnd == old(touchEnd)
    {
      isHovered := false;
    }

    /** `handleTouchStart` and `handleMouseDown`: record where the gesture begins. */
    method PointerDown(x: int)
      modifies this
      ensures touchStart == x
      ensures currentIndex == old(currentIndex) && isHovered == old(isHovered) && touchEnd == old(touchEnd)
    {
      touchStart := x;
    }

    /** `handleTouchMove`: record where the finger is. */
    method TouchMove(x: int)
      modifies this
      ensures touchEnd == x
      ensures currentIndex == old(currentIndex) && isHovered == old(isHovered) && touchStart == old(touchStart)
    {
      touchEnd := x;
    }

    /** `handleMouseMove`: record where the pointer is, but only once a drag has begun. */
    method MouseMove(x: int)
      modifies this
      ensures touchEnd == if old(touchStart) != 0 then x else old(touchEnd)
      ensures currentIndex == old(currentIndex) && isHovered == old(isHovered) && touchStart == old(touchStart)
    {
      if touchStart != 0 {
        touchEnd := x;
      }
    }

    /** `handleTouchEnd`: apply the swipe; the coordinates are kept. */
    method TouchEnd()
      requires Valid() && imageCount > 0
      modifies this
      ensures Valid()
      ensures currentIndex == Apply(SwipeStep(old(touchStart), old(touchEnd)), old(currentIndex), imageCount)
      ensures isHovered == old(isHovered) && touchStart == old(touchStart) && touchEnd == old(touchEnd)
    {
      if touchStart == 0 || touchEnd == 0 {
        return;
      }
      var distance := touchStart - touchEnd;
      var isLeftSwipe := distance > SwipeThreshold;
      var isRightSwipe := distance < -SwipeThreshold;
      if isLeftSwipe {
        GoToNext();
      }
      if isRightSwipe {
        GoToPrevious();
      }
    }

    /**
     * `handleMouseUp`: apply the swipe, then reset both coordinates to 0; an
     * ignored gesture (a coordinate is 0) returns before the reset.
     */
    method MouseUp()
      requires Valid() && imageCount > 0
      modifies this
      ensures Valid()
      ensures currentIndex == Apply(SwipeStep(old(touchStart), old(touchEnd)), old(currentIndex), imageCount)
      ensures old(touchStart) != 0 && old(touchEnd) != 0 ==> touchStart == 0 && touchEnd == 0
      ensures old(touchStart) == 0 || old(touchEnd) == 0 ==> touchStart == old(touchStart) && touchEnd == old(touchEnd)
      ensures isHovered == old(isHovered)
    {
      if touchStart == 0 || touchEnd == 0 {
        return;
      }
      var distance := touchStart - touchEnd;
      var isLeftSwipe := distance > SwipeThreshold;
      var isRightSwipe := distance < -SwipeThreshold;
      if isLeftSwipe {
        GoToNext();
      }
      if isRightSwipe {
        GoToPrevious();
      }
      touchStart := 0;
      touchEnd := 0;
    }
  }
}
