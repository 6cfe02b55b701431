/**
 * The image carousel: an index into a non-empty list of images that moves
 * forward and backward cyclically or jumps to a dot, an autoplay interval
 * that runs only while the pointer is away, and which controls are drawn.
 */
module ImageCarousel {

  /** JavaScript's `%`: the remainder takes the sign of the dividend. */
  function JsRem(a: int, b: int): int
    requires b > 0
  {
    if a >= 0 then a % b else -((-a) % b)
  }

  lemma RemSmall(x: int, b: int)
    requires 0 <= x < b
    ensures JsRem(x, b) == x
  {
  }

  lemma RemSelf(b: int)
    requires b > 0
    ensures JsRem(b, b) == 0
  {
  }

  /** The slide after `i`: one further on, wrapping from the last slide to the first. */
  function Next(i: int, count: int): (j: int)
    requires 0 <= i < count
    ensures 0 <= j < count
    ensures j == if i == count - 1 then 0 else i + 1
  {
    if i + 1 < count then RemSmall(i + 1, count); JsRem(i + 1, count)
    else RemSelf(count); JsRem(i + 1, count)
  }

  /** The slide before `i`: one back, wrapping from the first slide to the last. */
  function Prev(i: int, count: int): (j: int)
    requires 0 <= i < count
    ensures 0 <= j < count
    ensures j == if i == 0 then count - 1 else i - 1
  {
    if i == 0 then RemSmall(count - 1, count); JsRem(i - 1 + count, count)
    else RemSelf(count); RemSmall(i - 1, count); JsRem(i - 1 + count, count)
  }

  lemma NextThenPrev(i: int, count: int)
    requires 0 <= i < count
    ensures Prev(Next(i, count), count) == i
    ensures Next(Prev(i, count), count) == i
  {
  }

  /** The slide reached from `i` after `k` steps forward. */
  function Advance(i: int, k: nat, count: int): (j: int)
    requires 0 <= i < count
    ensures 0 <= j < count
  {
    if k == 0 then i else Next(Advance(i, k - 1, count), count)
  }

  /** Stepping `a` times and then `b` times is stepping `a + b` times. */
  lemma {:induction false} AdvanceAdd(i: int, a: nat, b: nat, count: int)
    requires 0 <= i < count
    ensures Advance(i, a + b, count) == Advance(Advance(i, a, count), b, count)
  {
    if b > 0 {
      AdvanceAdd(i, a, b - 1, count);
    }
  }

  /** Short of the last slide, `k` steps forward go exactly `k` places on. */
  lemma {:induction false} AdvanceNoWrap(i: int, k: nat, count: int)
    requires 0 <= i && i + k < count
    ensures Advance(i, k, count) == i + k
  {
    if k > 0 {
      AdvanceNoWrap(i, k - 1, count);
    }
  }

  /** As many steps forward as there are slides come back to the starting slide. */
  lemma FullCycle(i: int, count: int)
    requires 0 <= i < count
    ensures Advance(i, count, count) == i
  {
    AdvanceAdd(i, count - 1 - i, i + 1, count);
    AdvanceNoWrap(i, count - 1 - i, count);
    AdvanceAdd(count - 1, 1, i, count);
    AdvanceNoWrap(0, i, count);
  }

  /** The autoplay interval runs when autoplay is on and the pointer is not over the carousel. */
  function AutoplayArmed(autoplay: bool, isHovered: bool): (armed: bool)
    ensures armed ==> autoplay
    ensures armed ==> !isHovered
    ensures autoplay && !isHovered ==> armed
  {
    autoplay && !isHovered
  }

  /** The previous/next arrows: drawn for a manual carousel or while hovered, and only when there is more than one image. */
  function ArrowsShown(autoplay: bool, isHovered: bool, count: int): (shown: bool)
    ensures shown <==> count > 1 && !AutoplayArmed(autoplay, isHovered)
  {
    (!autoplay || isHovered) && count > 1
  }

  /** The "Paused" badge: an autoplaying carousel under the pointer. */
  function PausedBadgeShown(autoplay: bool, isHovered: bool): (shown: bool)
    ensures shown <==> autoplay && !AutoplayArmed(autoplay, isHovered)
  {
    autoplay && isHovered
  }

  /** The dots: drawn only when there is more than one image. */
  predicate DotsShown(count: int)
  {
    count > 1
  }

  /** Dot `k` of `count` exists and is not the current one, so a click on it changes the slide. */
  predicate OtherDot(k: int, currentIndex: int, count: int)
  {
    0 <= k < count && k != currentIndex
  }

  /**
   * With the current image in range, the dots are drawn exactly when one of
   * them leads to another image, and then exactly one of them is current.
   */
  lemma DotsOfferAnotherSlide(currentIndex: int, count: nat)
    requires 0 <= currentIndex < count
    ensures DotsShown(count) <==> exists k :: OtherDot(k, currentIndex, count)
    ensures DotsShown(count) ==> ActiveDots(currentIndex, count) == 1
  {
    OneActiveDot(currentIndex, count);
    if DotsShown(count) {
      assert OtherDot(if currentIndex == 0 then 1 else 0, currentIndex, count);
    }
  }

  /** How many of the dots `0 .. count-1` are drawn as the current one. */
  function ActiveDots(currentIndex: int, count: nat): (c: nat)
    ensures c <= count
  {
    if count == 0 then 0
    else ActiveDots(currentIndex, count - 1) + (if count - 1 == currentIndex then 1 else 0)
  }

  /** Exactly one dot is current when the index is in range, none otherwise. */
  lemma {:induction false} OneActiveDot(currentIndex: int, count: nat)
    ensures ActiveDots(currentIndex, count) == if 0 <= currentIndex < count then 1 else 0
  {
    if count > 0 {
      OneActiveDot(currentIndex, count - 1);
    }
  }

  class Carousel {
    /** Number of images; the carousel is only built over a non-empty list. */
    const count: nat
    const autoplay: bool
    var currentIndex: int
    var isHovered: bool
    /** Whether the autoplay interval is set. */
    var intervalArmed: bool

    ghost predicate Valid()
      reads this
    {
      count >= 1 && 0 <= currentIndex < count &&
      intervalArmed == AutoplayArmed(autoplay, isHovered)
    }

    /** First image, pointer away, interval set exactly when autoplay is on. */
    constructor (count: nat, autoplay: bool)
      requires count >= 1
      ensures Valid()
      ensures this.count == count && this.autoplay == autoplay
      ensures currentIndex == 0 && !isHovered && intervalArmed == autoplay
    {
      this.count := count;
      this.autoplay := autoplay;
      currentIndex := 0;
      isHovered := false;
      intervalArmed := autoplay;
    }

    method NextSlide()
      requires Valid()
      modifies this`currentIndex
      ensures Valid()
      ensures currentIndex == Next(old(currentIndex), count)
    {
      currentIndex := JsRem(currentIndex + 1, count);
    }

    method PrevSlide()
      requires Valid()
      modifies this`currentIndex
      ensures Valid()
      ensures currentIndex == Prev(old(currentIndex), count)
    {
      currentIndex := JsRem(currentIndex - 1 + count, count);
    }

    /** A dot click: dots exist only for indices of images, and the index becomes the dot's. */
    method GoToSlide(index: int)
      requires Valid() && 0 <= index < count
      modifies this`currentIndex
      ensures Valid()
      ensures currentIndex == index
      ensures ActiveDots(currentIndex, count) == 1
    {
      currentIndex := index;
      OneActiveDot(currentIndex, count);
    }

    /** The interval fires: the carousel moves on by one slide. */
    method AutoplayTick()
      requires Valid() && intervalArmed
      modifies this`currentIndex
      ensures Valid()
      ensures currentIndex == Next(old(currentIndex), count)
    {
      NextSlide();
    }

    /** The pointer enters: autoplay pauses. */
    method MouseEnter()
      requires Valid()
      modifies this`isHovered, this`intervalArmed
      ensures Valid()
      ensures isHovered && !intervalArmed
    {
      isHovered := true;
      intervalArmed := autoplay && !isHovered;
    }

    /** The pointer leaves: autoplay resumes if it is on. */
    method MouseLeave()
      requires Valid()
      modifies this`isHovered, this`intervalArmed
      ensures Valid()
      ensures !isHovered && intervalArmed == autoplay
    {
      isHovered := false;
      intervalArmed := autoplay && !isHovered;
    }
  }
}
