/**
 * The horizontal scroll indicator: whether the track can still scroll left
 * or right (with a few pixels of tolerance), the opacity targets of the two
 * arrows, the scroll velocity, the pulse a horizontal wheel gesture triggers
 * and which of the mutually exclusive render branches is drawn.
 */
module ScrollIndicator {
  import opened Wrappers

  /** Pixels of slack at either end of the track. */
  const EdgeTolerance := 5

  /** A track measurement: `scrollLeft`, `scrollWidth` and `clientWidth`. */
  datatype TrackMetrics = TrackMetrics(scrollLeft: int, scrollWidth: int, clientWidth: int)

  /** How far the track is scrolled away from its left edge. */
  function DistanceToStart(m: TrackMetrics): int
  {
    m.scrollLeft
  }

  /** How much content lies beyond the right edge of the visible part. */
  function DistanceToEnd(m: TrackMetrics): int
  {
    m.scrollWidth - m.clientWidth - m.scrollLeft
  }

  /** The same track seen in a mirror: what lay to the right now lies to the left. */
  function Mirror(m: TrackMetrics): (r: TrackMetrics)
    ensures DistanceToStart(r) == DistanceToEnd(m) && DistanceToEnd(r) == DistanceToStart(m)
  {
    TrackMetrics(m.scrollWidth - m.clientWidth - m.scrollLeft, m.scrollWidth, m.clientWidth)
  }

  /** The track counts as at its left edge when at most the tolerance is scrolled away from it. */
  function AtStart(m: TrackMetrics): (at: bool)
    ensures at <==> DistanceToStart(m) <= EdgeTolerance
  {
    m.scrollLeft <= EdgeTolerance
  }

  /** The right edge is tested like the left edge of the mirrored track. */
  function AtEnd(m: TrackMetrics): (at: bool)
    ensures at <==> DistanceToEnd(m) <= EdgeTolerance
    ensures at <==> AtStart(Mirror(m))
  {
    m.scrollLeft + m.clientWidth >= m.scrollWidth - EdgeTolerance
  }

  /** Scrolling left is possible exactly when more than the tolerance lies to the left. */
  function CanLeft(m: TrackMetrics): (can: bool)
    ensures can <==> DistanceToStart(m) > EdgeTolerance
    ensures can ==> m.scrollLeft > 0
  {
    !AtStart(m)
  }

  /** Scrolling right is possible exactly when more than the tolerance lies to the right. */
  function CanRight(m: TrackMetrics): (can: bool)
    ensures can <==> DistanceToEnd(m) > EdgeTolerance
    ensures can <==> CanLeft(Mirror(m))
    ensures can ==> m.scrollWidth > m.scrollLeft + m.clientWidth
  {
    !AtEnd(m)
  }

  /** What a browser guarantees of a measured track: the scroll position lies within the overflow. */
  predicate Clamped(m: TrackMetrics)
  {
    0 <= m.clientWidth && 0 <= m.scrollLeft &&
    (m.scrollWidth <= m.clientWidth ==> m.scrollLeft == 0) &&
    (m.scrollWidth > m.clientWidth ==> m.scrollLeft <= m.scrollWidth - m.clientWidth)
  }

  /**
   * On a real track: at the left edge it cannot scroll left, at the right
   * edge it cannot scroll right, when it overflows by at most the tolerance
   * it can scroll neither way, and it can scroll both ways only when the
   * overflow exceeds twice the tolerance.
   */
  lemma TrackEdges(m: TrackMetrics)
    requires Clamped(m)
    ensures m.scrollLeft == 0 ==> !CanLeft(m)
    ensures m.scrollWidth > m.clientWidth && m.scrollLeft == m.scrollWidth - m.clientWidth ==> !CanRight(m)
    ensures m.scrollWidth - m.clientWidth <= EdgeTolerance ==> !CanLeft(m) && !CanRight(m)
    ensures CanLeft(m) && CanRight(m) ==> m.scrollWidth - m.clientWidth > 2 * EdgeTolerance
  {
  }

  /** Opacity an arrow animates towards: fully visible when its direction is possible, hidden otherwise. */
  function OpacityTarget(can: bool): (o: int)
    ensures o == 1 <==> can
    ensures o == 0 <==> !can
  {
    if can then 1 else 0
  }

  function Abs(x: int): (r: nat)
    ensures r == x || r == -x
  {
    if x < 0 then -x else x
  }

  // --------------------------------------------------------------- wheel

  datatype Pulse = NoPulse | PulseLeft | PulseRight

  /**
   * The arrow a wheel event pulses: only for a mainly horizontal gesture,
   * the right arrow for a rightward gesture when the track can go right, the
   * left arrow for a leftward gesture when it can go left.
   */
  function WheelPulse(deltaX: int, deltaY: int, canScrollLeft: bool, canScrollRight: bool): (p: Pulse)
    ensures p == PulseRight <==> Abs(deltaX) > Abs(deltaY) && deltaX > 0 && canScrollRight
    ensures p == PulseLeft <==> Abs(deltaX) > Abs(deltaY) && deltaX < 0 && canScrollLeft
  {
    var isHorizontalScroll := Abs(deltaX) > Abs(deltaY);
    if isHorizontalScroll then
      if deltaX > 0 && canScrollRight then PulseRight
      else if deltaX < 0 && canScrollLeft then PulseLeft
      else NoPulse
    else NoPulse
  }

  // -------------------------------------------------------------- render

  /** The component renders nothing. */
  predicate ShowsNothing(canScrollLeft: bool, canScrollRight: bool)
  {
    !canScrollLeft && !canScrollRight
  }

  predicate ShowsLeftOnly(canScrollLeft: bool, canScrollRight: bool)
  {
    canScrollLeft && !canScrollRight
  }

  predicate ShowsRightOnly(canScrollLeft: bool, canScrollRight: bool)
  {
    canScrollRight && !canScrollLeft
  }

  predicate ShowsBoth(canScrollLeft: bool, canScrollRight: bool)
  {
    canScrollLeft && canScrollRight
  }

  datatype Branch = Nothing | LeftOnly | RightOnly | BothArrows

  /** The one branch that is drawn. */
  function RenderedBranch(canScrollLeft: bool, canScrollRight: bool): (b: Branch)
    ensures b == Nothing <==> ShowsNothing(canScrollLeft, canScrollRight)
    ensures b == LeftOnly <==> ShowsLeftOnly(canScrollLeft, canScrollRight)
    ensures b == RightOnly <==> ShowsRightOnly(canScrollLeft, canScrollRight)
    ensures b == BothArrows <==> ShowsBoth(canScrollLeft, canScrollRight)
  {
    if !canScrollLeft && !canScrollRight then Nothing
    else if !canScrollRight then LeftOnly
    else if !canScrollLeft then RightOnly
    else BothArrows
  }

  /** A left arrow is drawn exactly when the track can scroll left, a right arrow exactly when it can scroll right. */
  lemma ArrowsFollowDirections(canScrollLeft: bool, canScrollRight: bool)
    ensures RenderedBranch(canScrollLeft, canScrollRight) in {LeftOnly, BothArrows} <==> canScrollLeft
    ensures RenderedBranch(canScrollLeft, canScrollRight) in {RightOnly, BothArrows} <==> canScrollRight
  {
  }

  /** Minimum velocity at which the "scroll harder" hint is withheld. */
  const HintVelocity := 10

  /** The reminder pulse is armed when some direction is possible and the track is not being scrolled. */
  predicate ReminderArmed(canScrollLeft: bool, canScrollRight: bool, isScrolling: bool)
  {
    (canScrollLeft || canScrollRight) && !isScrolling
  }

  /**
   * The "scroll harder to navigate" hint at the bottom of the window: it
   * appears only beside an arrow, only while the reminder is armed, and only
   * at low velocity.
   */
  function CenterHintShown(canScrollLeft: bool, canScrollRight: bool, scrollVelocity: int, isScrolling: bool): (shown: bool)
    ensures shown <==>
      RenderedBranch(canScrollLeft, canScrollRight) != Nothing &&
      ReminderArmed(canScrollLeft, canScrollRight, isScrolling) && scrollVelocity < HintVelocity
  {
    (canScrollLeft || canScrollRight) && scrollVelocity < HintVelocity && !isScrolling
  }

  // --------------------------------------------------------------- state

  /**
   * The component's state together with the variables of its mounted scroll
   * listener: the last seen `scrollLeft` and whether the 150 ms "stopped
   * scrolling" and 200 ms "velocity reset" timeouts are pending. Scales are
   * the arrows' pulse scales and `leftX`/`rightX` their nudges in pixels;
   * `listening` says whether the listener is attached to a track.
   */
  class Indicator {
    var canScrollLeft: bool
    var canScrollRight: bool
    var isScrolling: bool
    var scrollVelocity: int
    var leftOpacity: int
    var rightOpacity: int
    var leftScale: real
    var rightScale: real
    var leftX: int
    var rightX: int
    var lastScrollLeft: int
    var scrollTimeoutPending: bool
    var velocityTimeoutPending: bool
    var listening: bool

    /**
     * The arrows' opacity follows the directions, the velocity is a
     * distance, and a "scrolling" flag or a non-zero velocity always has a
     * pending timeout that will clear it.
     */
    ghost predicate Valid()
      reads this
    {
      leftOpacity == OpacityTarget(canScrollLeft) &&
      rightOpacity == OpacityTarget(canScrollRight) &&
      scrollVelocity >= 0 &&
      (isScrolling ==> scrollTimeoutPending) &&
      (scrollVelocity != 0 ==> velocityTimeoutPending)
    }

    /**
     * Mounting: initial state, then, when the track element exists, one
     * update from the track as it is. Without a track no listener is
     * attached and the component keeps rendering nothing.
     */
    constructor (track: Option<TrackMetrics>)
      ensures Valid()
      ensures listening == track.Some?
      ensures leftScale == 1.0 && rightScale == 1.0 && leftX == 0 && rightX == 0
      ensures track.Some? ==>
        canScrollLeft == CanLeft(track.value) && canScrollRight == CanRight(track.value) &&
        isScrolling && scrollVelocity == 0 && lastScrollLeft == track.value.scrollLeft
      ensures track.None? ==>
        RenderedBranch(canScrollLeft, canScrollRight) == Nothing && !isScrolling && scrollVelocity == 0 &&
        !scrollTimeoutPending && !velocityTimeoutPending
    {
      canScrollLeft, canScrollRight := false, false;
      isScrolling, scrollVelocity := false, 0;
      leftOpacity, rightOpacity := 0, 0;
      leftScale, rightScale := 1.0, 1.0;
      leftX, rightX := 0, 0;
      lastScrollLeft := 0;
      scrollTimeoutPending, velocityTimeoutPending := false, false;
      listening := false;
      new;
      if track.Some? {
        listening := true;
        lastScrollLeft := track.value.scrollLeft;
        UpdateScrollState(track.value);
      }
    }

    /**
     * A scroll event or poll: recompute both directions and the arrows'
     * opacity targets, record the distance travelled since the last update,
     * mark the track as scrolling and (re)arm both timeouts.
     */
    method UpdateScrollState(m: TrackMetrics)
      requires listening
      modifies this
      ensures Valid()
      ensures canScrollLeft == CanLeft(m) && canScrollRight == CanRight(m)
      ensures leftOpacity == OpacityTarget(canScrollLeft) && rightOpacity == OpacityTarget(canScrollRight)
      ensures scrollVelocity == Abs(m.scrollLeft - old(lastScrollLeft))
      ensures lastScrollLeft == m.scrollLeft
      ensures isScrolling && scrollTimeoutPending && velocityTimeoutPending
      ensures leftScale == old(leftScale) && rightScale == old(rightScale)
      ensures leftX == old(leftX) && rightX == old(rightX)
      ensures listening
    {
      var atStart := m.scrollLeft <= EdgeTolerance;
      var atEnd := m.scrollLeft + m.clientWidth >= m.scrollWidth - EdgeTolerance;
      var canLeft := !atStart;
      var canRight := !atEnd;
      canScrollLeft := canLeft;
      canScrollRight := canRight;
      leftOpacity := if canLeft then 1 else 0;
      rightOpacity := if canRight then 1 else 0;
      var velocity := Abs(m.scrollLeft - lastScrollLeft);
      scrollVelocity := velocity;
      lastScrollLeft := m.scrollLeft;
      isScrolling := true;
      scrollTimeoutPending := true;
      velocityTimeoutPending := true;
    }

    /** The 150 ms timeout: the track has stopped scrolling. */
    method ScrollTimeoutFires()
      requires Valid() && scrollTimeoutPending
      modifies this`isScrolling, this`scrollTimeoutPending
      ensures Valid() && !isScrolling && !scrollTimeoutPending
    {
      isScrolling := false;
      scrollTimeoutPending := false;
    }

    /** The 200 ms timeout: the velocity falls back to zero. */
    method VelocityTimeoutFires()
      requires Valid() && velocityTimeoutPending
      modifies this`scrollVelocity, this`velocityTimeoutPending
      ensures Valid() && scrollVelocity == 0 && !velocityTimeoutPending
    {
      scrollVelocity := 0;
      velocityTimeoutPending := false;
    }

    /**
     * The listener is re-attached whenever a direction flag changes: the old
     * listener's timeouts are cancelled, the last position restarts at the
     * current one and one update runs.
     */
    method Remount(m: TrackMetrics)
      modifies this
      ensures Valid()
      ensures canScrollLeft == CanLeft(m) && canScrollRight == CanRight(m)
      ensures scrollVelocity == 0 && lastScrollLeft == m.scrollLeft && isScrolling
      ensures scrollTimeoutPending && velocityTimeoutPending && listening
      ensures leftScale == old(leftScale) && rightScale == old(rightScale)
      ensures leftX == old(leftX) && rightX == old(rightX)
    {
      scrollTimeoutPending, velocityTimeoutPending := false, false;
      listening := true;
      lastScrollLeft := m.scrollLeft;
      UpdateScrollState(m);
    }

    /** A wheel event: pulse and nudge the arrow of a possible horizontal direction. */
    method HandleWheel(deltaX: int, deltaY: int) returns (p: Pulse)
      requires Valid() && listening
      modifies this`leftScale, this`rightScale, this`leftX, this`rightX
      ensures Valid()
      ensures p == WheelPulse(deltaX, deltaY, canScrollLeft, canScrollRight)
      ensures p == PulseRight ==> rightScale == 1.3 && rightX == 5
      ensures p == PulseLeft ==> leftScale == 1.3 && leftX == -5
      ensures p != PulseRight ==> rightScale == old(rightScale) && rightX == old(rightX)
      ensures p != PulseLeft ==> leftScale == old(leftScale) && leftX == old(leftX)
    {
      p := WheelPulse(deltaX, deltaY, canScrollLeft, canScrollRight);
      if p == PulseRight {
        rightScale, rightX := 1.3, 5;
      } else if p == PulseLeft {
        leftScale, leftX := 1.3, -5;
      }
    }

    /** The 200 ms timeout after a wheel pulse: the pulsed arrow returns to rest. */
    method PulseEnds(p: Pulse)
      requires Valid()
      modifies this`leftScale, this`rightScale, this`leftX, this`rightX
      ensures Valid()
      ensures p == PulseRight ==> rightScale == 1.0 && rightX == 0 && leftScale == old(leftScale) && leftX == old(leftX)
      ensures p == PulseLeft ==> leftScale == 1.0 && leftX == 0 && rightScale == old(rightScale) && rightX == old(rightX)
      ensures p == NoPulse ==> unchanged(this)
    {
      if p == PulseRight {
        rightScale, rightX := 1.0, 0;
      } else if p == PulseLeft {
        leftScale, leftX := 1.0, 0;
      }
    }

    /**
     * One beat of the 3 s reminder: the arrows of the possible directions
     * swell slightly; the sides that swelled are returned for the reset.
     */
    method ReminderTick() returns (pulsedLeft: bool, pulsedRight: bool)
      requires Valid() && ReminderArmed(canScrollLeft, canScrollRight, isScrolling)
      modifies this`leftScale, this`rightScale
      ensures Valid()
      ensures pulsedLeft == canScrollLeft && pulsedRight == canScrollRight && (pulsedLeft || pulsedRight)
      ensures leftScale == if pulsedLeft then 1.12 else old(leftScale)
      ensures rightScale == if pulsedRight then 1.12 else old(rightScale)
    {
      pulsedLeft, pulsedRight := canScrollLeft, canScrollRight;
      if canScrollLeft {
        leftScale := 1.12;
      }
      if canScrollRight {
        rightScale := 1.12;
      }
    }

    /**
     * The 800 ms timeouts a reminder beat leaves behind: each arrow that
     * swelled returns to scale 1. They are not cancelled with the reminder,
     * so they fire whatever the state is by then.
     */
    method ReminderEnds(pulsedLeft: bool, pulsedRight: bool)
      requires Valid()
      modifies this`leftScale, this`rightScale
      ensures Valid()
      ensures leftScale == if pulsedLeft then 1.0 else old(leftScale)
      ensures rightScale == if pulsedRight then 1.0 else old(rightScale)
    {
      if pulsedLeft {
        leftScale := 1.0;
      }
      if pulsedRight {
        rightScale := 1.0;
      }
    }
  }
}
