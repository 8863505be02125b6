/** The scroll helpers of `useScrollEffects`: the cubic easing curve, the
    frame loop of the smooth-scroll polyfill, the anchor-click rule, the
    section scroll target, the scroll-direction state machine and the
    throttle that gates it. Frame timestamps, scroll positions and the
    document are inputs; `window.scrollTo`, `requestAnimationFrame`,
    `setTimeout` and `performance.now` are not called. */
module ScrollHooks {
  import opened Common

  // ---------------------------------------------------------------------
  // Easing
  // ---------------------------------------------------------------------

  /** `easeInOutCubic`: 4t^3 on the first half, its point reflection on
      the second. */
  function EaseInOutCubic(t: real): (e: real)
    ensures t == 0.0 ==> e == 0.0
    ensures t == 0.5 ==> e == 0.5
    ensures t == 1.0 ==> e == 1.0
  {
    if t < 0.5 then 4.0 * t * t * t else (t - 1.0) * (2.0 * t - 2.0) * (2.0 * t - 2.0) + 1.0
  }

  lemma SquareNonNegative(x: real)
    ensures x * x >= 0.0
  {}

  lemma CubeMonotone(a: real, b: real)
    requires a <= b
    ensures a * a * a <= b * b * b
  {
    var m := a * a + a * b + b * b;
    var u := a + b / 2.0;
    SquareNonNegative(u);
    SquareNonNegative(b);
    assert m == u * u + 3.0 * (b * b) / 4.0;
    assert b * b * b - a * a * a == (b - a) * m;
  }

  /** The curve starts at 0, passes 1/2 half way and ends at 1. */
  lemma EaseLandmarks()
    ensures EaseInOutCubic(0.0) == 0.0
    ensures EaseInOutCubic(0.5) == 0.5
    ensures EaseInOutCubic(1.0) == 1.0
  {}

  /** The two halves are point reflections of each other through
      (1/2, 1/2). */
  lemma EaseSymmetric(t: real)
    ensures EaseInOutCubic(1.0 - t) == 1.0 - EaseInOutCubic(t)
  {}

  /** The curve never goes backwards. */
  lemma EaseMonotone(a: real, b: real)
    requires a <= b
    ensures EaseInOutCubic(a) <= EaseInOutCubic(b)
  {
    if b < 0.5 {
      CubeMonotone(a, b);
    } else if a >= 0.5 {
      CubeMonotone(a - 1.0, b - 1.0);
      assert EaseInOutCubic(a) == 4.0 * (a - 1.0) * (a - 1.0) * (a - 1.0) + 1.0;
      assert EaseInOutCubic(b) == 4.0 * (b - 1.0) * (b - 1.0) * (b - 1.0) + 1.0;
    } else {
      CubeMonotone(a, 0.5);
      CubeMonotone(-0.5, b - 1.0);
      assert EaseInOutCubic(b) == 4.0 * (b - 1.0) * (b - 1.0) * (b - 1.0) + 1.0;
    }
  }

  /** On [0, 1] the curve stays within [0, 1]. */
  lemma EaseInUnitInterval(t: real)
    requires 0.0 <= t <= 1.0
    ensures 0.0 <= EaseInOutCubic(t) <= 1.0
  {
    EaseMonotone(0.0, t);
    EaseMonotone(t, 1.0);
  }

  // ---------------------------------------------------------------------
  // Smooth scroll frame loop
  // ---------------------------------------------------------------------

  /** The duration the anchor handler uses, in milliseconds. */
  const SmoothScrollDuration: real := 800.0

  /** The fraction of the animation done after `elapsed` milliseconds,
      capped at 1. */
  function FrameProgress(elapsed: real, duration: real): (p: real)
    requires duration > 0.0
    ensures p <= 1.0
    ensures elapsed >= 0.0 ==> p >= 0.0
    ensures p == 1.0 <==> elapsed >= duration
  {
    var q := elapsed / duration;
    assert q < 1.0 <==> elapsed < duration by {
      assert q * duration == elapsed;
      if q < 1.0 {
        ScaleStrict(q, 1.0, duration);
      } else {
        ScaleLe(1.0, q, duration);
      }
    }
    Min(q, 1.0)
  }

  lemma ScaleStrict(x: real, y: real, c: real)
    requires x < y && c > 0.0
    ensures x * c < y * c
  {}

  lemma ScaleLe(x: real, y: real, c: real)
    requires x <= y && c > 0.0
    ensures x * c <= y * c
  {}

  /** The point a fraction `eased` of the way from `start` to `target`. */
  function Interpolate(start: real, target: real, eased: real): real {
    start + (target - start) * eased
  }

  /** For a fraction in [0, 1] the point lies between the two ends, and
      the fractions 0 and 1 give the ends themselves. */
  lemma InterpolateBetween(start: real, target: real, eased: real)
    requires 0.0 <= eased <= 1.0
    ensures eased == 0.0 ==> Interpolate(start, target, eased) == start
    ensures eased == 1.0 ==> Interpolate(start, target, eased) == target
    ensures start <= target ==> start <= Interpolate(start, target, eased) <= target
    ensures target <= start ==> target <= Interpolate(start, target, eased) <= start
  {
    if start <= target {
      BetweenUp(start, target, eased);
    } else {
      BetweenDown(start, target, eased);
    }
  }

  lemma BetweenUp(a: real, b: real, e: real)
    requires 0.0 <= e <= 1.0 && a <= b
    ensures a <= Interpolate(a, b, e) <= b
  {
    var d := b - a;
    FractionOfDistance(d, e);
    assert Interpolate(a, b, e) == a + d * e;
  }

  lemma BetweenDown(a: real, b: real, e: real)
    requires 0.0 <= e <= 1.0 && b <= a
    ensures b <= Interpolate(a, b, e) <= a
  {
    var d := a - b;
    FractionOfDistance(d, e);
    assert Interpolate(a, b, e) == a - d * e;
  }

  lemma FractionOfDistance(d: real, e: real)
    requires d >= 0.0 && 0.0 <= e <= 1.0
    ensures 0.0 <= d * e <= d
  {}

  /** The scroll position written for a given progress. */
  function FramePosition(start: real, target: real, progress: real): real {
    Interpolate(start, target, EaseInOutCubic(progress))
  }

  /** The last frame lands exactly on the target; while the progress is
      in [0, 1] every frame lies between the start and the target. */
  lemma FramePositionBounds(start: real, target: real, progress: real)
    requires 0.0 <= progress <= 1.0
    ensures progress == 1.0 ==> FramePosition(start, target, progress) == target
    ensures progress == 0.0 ==> FramePosition(start, target, progress) == start
    ensures start <= target ==> start <= FramePosition(start, target, progress) <= target
    ensures target <= start ==> target <= FramePosition(start, target, progress) <= start
  {
    EaseInUnitInterval(progress);
    EaseLandmarks();
    InterpolateBetween(start, target, EaseInOutCubic(progress));
  }

  /** `smoothScrollTo`: one iteration per animation frame, in order,
      with `frameTimes[i]` the timestamp of the i-th callback. Each frame
      writes `start + distance * ease(progress)` and asks for another frame
      only while the progress is below 1. Returns the positions written
      and whether the animation completed within the frames given. */
  method SmoothScrollTo(start: real, target: real, startTime: real, duration: real, frameTimes: seq<real>)
    returns (positions: seq<real>, finished: bool)
    requires duration > 0.0
    ensures |positions| <= |frameTimes|
    ensures forall i :: 0 <= i < |positions| ==>
      positions[i] == FramePosition(start, target, FrameProgress(frameTimes[i] - startTime, duration))
    ensures forall i :: 0 <= i < |positions| - 1 ==> frameTimes[i] - startTime < duration
    ensures finished <==> |positions| > 0 && frameTimes[|positions| - 1] - startTime >= duration
    ensures finished ==> positions[|positions| - 1] == target
    ensures !finished ==> |positions| == |frameTimes|
  {
    var distance := target - start;
    positions := [];
    finished := false;
    var i := 0;
    while i < |frameTimes| && !finished
      invariant 0 <= i <= |frameTimes| && |positions| == i
      invariant forall k :: 0 <= k < i ==>
        positions[k] == FramePosition(start, target, FrameProgress(frameTimes[k] - startTime, duration))
      invariant forall k :: 0 <= k < i - 1 ==> frameTimes[k] - startTime < duration
      invariant finished <==> i > 0 && frameTimes[i - 1] - startTime >= duration
      invariant finished ==> positions[i - 1] == target
    {
      var position, requestNext := ScrollFrame(start, distance, startTime, duration, frameTimes[i]);
      positions := positions + [position];
      finished := !requestNext;
      i := i + 1;
    }
  }

  /** The `scroll` callback for the frame at `currentTime`: the position it
      writes, and whether it asks for another frame. */
  method ScrollFrame(start: real, distance: real, startTime: real, duration: real, currentTime: real)
    returns (position: real, requestNext: bool)
    requires duration > 0.0
    ensures position == FramePosition(start, start + distance, FrameProgress(currentTime - startTime, duration))
    ensures requestNext <==> currentTime - startTime < duration
    ensures !requestNext ==> position == start + distance
  {
    var elapsed := currentTime - startTime;
    var progress := Min(elapsed / duration, 1.0);
    assert progress == FrameProgress(elapsed, duration);
    var easeProgress := EaseInOutCubic(progress);
    position := start + distance * easeProgress;
    assert position == Interpolate(start, start + distance, easeProgress);
    requestNext := progress < 1.0;
    if !requestNext {
      FramePositionBounds(start, start + distance, progress);
    }
  }

  /** If the frames come in time order after the start, every position
      written lies between the start and the target. */
  lemma SmoothScrollStaysBetween(start: real, target: real, startTime: real, duration: real, t: real)
    requires duration > 0.0 && t >= startTime
    ensures start <= target ==>
              start <= FramePosition(start, target, FrameProgress(t - startTime, duration)) <= target
    ensures target <= start ==>
              target <= FramePosition(start, target, FrameProgress(t - startTime, duration)) <= start
  {
    FramePositionBounds(start, target, FrameProgress(t - startTime, duration));
  }

  // ---------------------------------------------------------------------
  // Anchor clicks and section scrolling
  // ---------------------------------------------------------------------

  /** The height of the fixed header the scroll targets leave room for. */
  const HeaderOffset: real := 80.0

  predicate IsFragmentHref(href: string) {
    |href| > 0 && href[0] == '#'
  }

  /** The id a fragment href names: the href without its `#`. */
  function TargetId(href: string): string
    requires IsFragmentHref(href)
  {
    href[1..]
  }

  /** Putting the `#` back gives the href again, and reading the id of
      `#id` gives `id`. */
  lemma TargetIdRoundTrip(href: string, id: string)
    requires IsFragmentHref(href)
    ensures "#" + TargetId(href) == href
    ensures IsFragmentHref("#" + id) && TargetId("#" + id) == id
  {}

  /** The outcome of a document click: whether the default navigation
      was cancelled, and where a smooth scroll was started to, if at all. */
  datatype ClickOutcome = ClickOutcome(defaultPrevented: bool, scrollTarget: Option<real>)

  /** `handleAnchorClick` for a click on an element with tag `tagName`
      whose `href` attribute is `href` (absent: `None`). */
  function HandleAnchorClick(doc: Document, tagName: string, href: Option<string>): (r: ClickOutcome)
    ensures r.defaultPrevented <==> tagName == "A" && href.Some? && IsFragmentHref(href.value)
    ensures r.scrollTarget.Some? <==>
      r.defaultPrevented && |href.value| > 1 && href.value[1..] in doc
    ensures r.scrollTarget.Some? ==> r.scrollTarget.value == doc[href.value[1..]] - 80.0
  {
    if tagName == "A" && href.Some? && IsFragmentHref(href.value) then
      var targetId := TargetId(href.value);
      var targetElement := if targetId != "" then GetElementById(doc, targetId) else None;
      if targetElement.Some? then
        ClickOutcome(true, Some(targetElement.value - HeaderOffset))
      else
        ClickOutcome(true, None)
    else
      ClickOutcome(false, None)
  }

  /** A bare `#` is swallowed: default handling is cancelled but nothing
      scrolls. So is a fragment naming no element. */
  lemma EmptyOrUnknownFragmentIsSwallowed(doc: Document, id: string)
    requires id !in doc
    ensures HandleAnchorClick(doc, "A", Some("#")) == ClickOutcome(true, None)
    ensures HandleAnchorClick(doc, "A", Some("#" + id)) == ClickOutcome(true, None)
  {
    assert ("#" + id)[1..] == id;
  }

  /** A click on an anchor to `#id` of an existing element, followed by
      enough animation frames, ends 80 px above the element. */
  method OnDocumentClick(doc: Document, tagName: string, href: Option<string>,
                         scrollY: real, now: real, frameTimes: seq<real>)
    returns (outcome: ClickOutcome, positions: seq<real>)
    ensures outcome == HandleAnchorClick(doc, tagName, href)
    ensures outcome.scrollTarget.None? ==> positions == []
    ensures |positions| <= |frameTimes|
    ensures outcome.scrollTarget.Some? ==> forall i :: 0 <= i < |positions| ==>
      positions[i] == FramePosition(scrollY, outcome.scrollTarget.value, FrameProgress(frameTimes[i] - now, 800.0))
    ensures forall i :: 0 <= i < |positions| - 1 ==> frameTimes[i] - now < 800.0
    ensures outcome.scrollTarget.Some? && |positions| < |frameTimes| ==>
      |positions| > 0 && frameTimes[|positions| - 1] - now >= 800.0
    ensures outcome.scrollTarget.Some? && |frameTimes| > 0 && frameTimes[|frameTimes| - 1] - now >= 800.0 ==>
      |positions| > 0 && positions[|positions| - 1] == outcome.scrollTarget.value
  {
    outcome := HandleAnchorClick(doc, tagName, href);
    positions := [];
    if outcome.scrollTarget.Some? {
      var finished;
      positions, finished := SmoothScrollTo(scrollY, outcome.scrollTarget.value, now, SmoothScrollDuration, frameTimes);
    }
  }

  /** The argument of `window.scrollTo`. */
  datatype ScrollRequest = ScrollRequest(top: real, smooth: bool)

  /** `scrollToTop`, smooth unless asked otherwise. */
  function ScrollToTop(smooth: Option<bool>): (r: ScrollRequest)
    ensures r.top == 0.0
    ensures r.smooth <==> smooth != Some(false)
  {
    ScrollRequest(0.0, smooth.GetOr(true))
  }

  /** `scrollToSection`: a smooth scroll to `offset` (80 by default)
      above the element, or nothing when there is no such element. */
  function ScrollToSection(doc: Document, id: string, offset: Option<real>): (r: Option<ScrollRequest>)
    ensures r.Some? <==> id != "" && id in doc
    ensures r.Some? ==> r.value.smooth && r.value.top == doc[id] - offset.GetOr(80.0)
  {
    match GetElementById(doc, id)
    case Some(offsetTop) => Some(ScrollRequest(offsetTop - offset.GetOr(HeaderOffset), true))
    case None => None
  }

  /** With the default offset, a section scroll and an anchor click on
      the same element aim at the same position. */
  lemma SectionScrollMatchesAnchorClick(doc: Document, id: string)
    requires id != "" && id in doc
    ensures ScrollToSection(doc, id, None).value.top == HandleAnchorClick(doc, "A", Some("#" + id)).scrollTarget.value
  {
    assert ("#" + id)[1..] == id;
  }

  // ---------------------------------------------------------------------
  // Scroll direction
  // ---------------------------------------------------------------------

  datatype ScrollDirection = Up | Down

  /** `scrollDirection` (null: `None`) and `lastScrollY`. */
  datatype DirectionState = DirectionState(direction: Option<ScrollDirection>, lastScrollY: real)

  const InitialDirection := DirectionState(None, 0.0)

  /** The page must be scrolled past this many pixels to count as
      scrolling down. */
  const DownThreshold: real := 100.0

  /** `handleScroll` for a scroll event at position `currentScrollY`. */
  function DirectionStep(s: DirectionState, currentScrollY: real): (r: DirectionState)
    ensures r.lastScrollY == currentScrollY
    ensures r.direction == Some(Down) <==>
      (currentScrollY > s.lastScrollY && currentScrollY > 100.0)
      || (s.direction == Some(Down) && currentScrollY >= s.lastScrollY)
    ensures r.direction == Some(Up) <==>
      currentScrollY < s.lastScrollY
      || (s.direction == Some(Up) && !(currentScrollY > s.lastScrollY && currentScrollY > 100.0))
    ensures r.direction.None? ==> s.direction.None?
  {
    var direction :=
      if currentScrollY > s.lastScrollY && currentScrollY > DownThreshold then Some(Down)
      else if currentScrollY < s.lastScrollY then Some(Up)
      else s.direction;
    DirectionState(direction, currentScrollY)
  }

  /** The handled scroll events, in order. */
  function DirectionRun(s: DirectionState, positions: seq<real>): DirectionState
    decreases |positions|
  {
    if positions == [] then s else DirectionRun(DirectionStep(s, positions[0]), positions[1..])
  }

  /** Scrolling that never leaves the first 100 px never reports `down`. */
  lemma {:induction false} NoDownNearTop(s: DirectionState, positions: seq<real>)
    requires s.direction != Some(Down)
    requires forall i :: 0 <= i < |positions| ==> positions[i] <= 100.0
    ensures DirectionRun(s, positions).direction != Some(Down)
    decreases |positions|
  {
    if positions != [] {
      NoDownNearTop(DirectionStep(s, positions[0]), positions[1..]);
    }
  }

  /** After at least one event, `lastScrollY` is the latest position. */
  lemma {:induction false} LastScrollYIsLatest(s: DirectionState, positions: seq<real>)
    requires positions != []
    ensures DirectionRun(s, positions).lastScrollY == positions[|positions| - 1]
    decreases |positions|
  {
    if |positions| > 1 {
      LastScrollYIsLatest(DirectionStep(s, positions[0]), positions[1..]);
    }
  }

  /** Once a direction has been reported, it is never null again. */
  lemma {:induction false} DirectionStaysKnown(s: DirectionState, positions: seq<real>)
    requires s.direction.Some?
    ensures DirectionRun(s, positions).direction.Some?
    decreases |positions|
  {
    if positions != [] {
      DirectionStaysKnown(DirectionStep(s, positions[0]), positions[1..]);
    }
  }

  // ---------------------------------------------------------------------
  // Throttle
  // ---------------------------------------------------------------------

  /** What reaches a throttled function: a call, or the expiry of the
      timer the last executed call started. */
  datatype ThrottleEvent = Call | TimerExpires

  /** The number of calls that get through, starting from flag `inThrottle`. */
  function Executions(inThrottle: bool, events: seq<ThrottleEvent>): nat
    decreases |events|
  {
    if events == [] then 0
    else match events[0]
      case Call => (if inThrottle then 0 else 1) + Executions(true, events[1..])
      case TimerExpires => Executions(false, events[1..])
  }

  /** Between two timer expiries at most one call gets through, and none
      while the flag is already set. */
  lemma {:induction false} OneExecutionPerWindow(inThrottle: bool, events: seq<ThrottleEvent>)
    requires TimerExpires !in events
    ensures Executions(inThrottle, events) <= 1
    ensures inThrottle ==> Executions(inThrottle, events) == 0
    ensures !inThrottle && Call in events ==> Executions(inThrottle, events) == 1
    decreases |events|
  {
    if events != [] {
      assert events[0] == Call;
      OneExecutionPerWindow(true, events[1..]);
      assert events == [events[0]] + events[1..];
    }
  }

  /** `throttle(func, limit)`: the closure's `inThrottle` flag. */
  class Throttle {
    const limit: real
    var inThrottle: bool

    constructor (limit: real)
      ensures this.limit == limit && !inThrottle
    {
      this.limit := limit;
      inThrottle := false;
    }

    /** One call of the throttled function; `run` says whether `func` ran. */
    method Invoke() returns (run: bool)
      modifies this
      ensures run <==> !old(inThrottle)
      ensures inThrottle
      ensures Executions(old(inThrottle), [Call]) == if run then 1 else 0
    {
      run := false;
      if !inThrottle {
        run := true;
        inThrottle := true;
      }
    }

    /** The `setTimeout` callback, `limit` milliseconds after a run. */
    method TimerFires()
      modifies this
      ensures !inThrottle
    {
      inThrottle := false;
    }
  }

  /** `useScrollDirection`: the direction state behind a 100 ms throttle. */
  class ScrollDirectionHook {
    var scrollDirection: Option<ScrollDirection>
    var lastScrollY: real
    const throttle: Throttle

    function State(): DirectionState
      reads this
    {
      DirectionState(scrollDirection, lastScrollY)
    }

    constructor ()
      ensures State() == InitialDirection
      ensures fresh(throttle) && throttle.limit == 100.0 && !throttle.inThrottle
    {
      scrollDirection := None;
      lastScrollY := 0.0;
      throttle := new Throttle(100.0);
    }

    /** A `scroll` event at position `scrollY`: handled only when the
        throttle lets it through. */
    method OnScroll(scrollY: real) returns (handled: bool)
      modifies this, throttle
      ensures handled <==> !old(throttle.inThrottle)
      ensures throttle.inThrottle
      ensures State() == if handled then DirectionStep(old(State()), scrollY) else old(State())
    {
      handled := throttle.Invoke();
      if handled {
        var currentScrollY := scrollY;
        if currentScrollY > lastScrollY && currentScrollY > DownThreshold {
          scrollDirection := Some(Down);
        } else if currentScrollY < lastScrollY {
          scrollDirection := Some(Up);
        }
        lastScrollY := currentScrollY;
      }
    }

    /** The throttle's timer expires. */
    method OnThrottleTimer()
      modifies throttle
      ensures !throttle.inThrottle && State() == old(State())
    {
      throttle.TimerFires();
    }
  }
}
