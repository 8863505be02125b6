/** The two intersection hooks: a per-element visibility latch
    (`useIntersectionObserver`) and a scroll-progress tracker
    (`useScrollProgress`). Each intersection callback is one call of a
    method; the browser's observer registration is not modelled. */
module IntersectionObserver {
  import opened Common

  // ---------------------------------------------------------------------
  // Options
  // ---------------------------------------------------------------------

  /** `threshold` is a single ratio or a list of ratios. */
  datatype Threshold = Single(ratio: real) | Ratios(ratios: seq<real>)

  /** What a caller passes: every field may be left out. */
  datatype ObserverOptionsInput = ObserverOptionsInput(
    threshold: Option<Threshold>,
    rootMargin: Option<string>,
    triggerOnce: Option<bool>)

  /** The options after the destructuring defaults have been applied. */
  datatype ObserverOptions = ObserverOptions(
    threshold: Threshold,
    rootMargin: string,
    triggerOnce: bool)

  const DefaultThreshold: real := 0.1
  const DefaultRootMargin: string := "0px 0px -10% 0px"

  /** Applies the defaults: ratio 0.1, a root margin that shrinks the
      viewport by 10% at the bottom, and no latching. */
  function ResolveOptions(input: ObserverOptionsInput): (o: ObserverOptions)
    ensures o.triggerOnce <==> input.triggerOnce == Some(true)
    ensures input.threshold.Some? ==> o.threshold == input.threshold.value
    ensures input.threshold.None? ==> o.threshold == Single(0.1)
    ensures input.rootMargin.Some? ==> o.rootMargin == input.rootMargin.value
    ensures input.rootMargin.None? ==> o.rootMargin == "0px 0px -10% 0px"
  {
    ObserverOptions(
      input.threshold.GetOr(Single(DefaultThreshold)),
      input.rootMargin.GetOr(DefaultRootMargin),
      input.triggerOnce.GetOr(false))
  }

  // ---------------------------------------------------------------------
  // Visibility latch
  // ---------------------------------------------------------------------

  /** The two pieces of React state of `useIntersectionObserver`. */
  datatype VisibilityState = VisibilityState(isIntersecting: bool, hasIntersected: bool)

  /** Both flags start false. */
  const Unobserved := VisibilityState(false, false)

  /** The effect of one observer callback whose entry reports `visible`:
      the live flag is overwritten and the latch is set only when it
      was still clear. */
  function Observe(s: VisibilityState, visible: bool): (r: VisibilityState)
    ensures r.isIntersecting == visible
    ensures r.hasIntersected <==> s.hasIntersected || visible
  {
    VisibilityState(visible, if visible && !s.hasIntersected then true else s.hasIntersected)
  }

  /** The callbacks of one element, in the order the browser delivers them. */
  function Run(s: VisibilityState, entries: seq<bool>): VisibilityState
    decreases |entries|
  {
    if entries == [] then s else Run(Observe(s, entries[0]), entries[1..])
  }

  /** The `hasIntersected` the hook returns: the latch with `triggerOnce`,
      the live flag without. */
  function Reported(triggerOnce: bool, s: VisibilityState): (r: bool)
    ensures r ==> s.isIntersecting || s.hasIntersected
    ensures s.isIntersecting && s.hasIntersected ==> r
  {
    if triggerOnce then s.hasIntersected else s.isIntersecting
  }

  lemma {:induction false} RunAppend(s: VisibilityState, a: seq<bool>, b: seq<bool>)
    ensures Run(s, a + b) == Run(Run(s, a), b)
    decreases |a|
  {
    if a == [] {
      assert a + b == b;
    } else {
      assert (a + b)[0] == a[0] && (a + b)[1..] == a[1..] + b;
      RunAppend(Observe(s, a[0]), a[1..], b);
    }
  }

  /** After any run the latch is set exactly when it was set before or
      some callback reported the element visible. */
  lemma {:induction false} RunLatch(s: VisibilityState, entries: seq<bool>)
    ensures Run(s, entries).hasIntersected <==> s.hasIntersected || true in entries
    decreases |entries|
  {
    if entries != [] {
      RunLatch(Observe(s, entries[0]), entries[1..]);
      assert entries == [entries[0]] + entries[1..];
    }
  }

  /** No callback ever clears the latch. */
  lemma LatchMonotone(s: VisibilityState, entries: seq<bool>)
    requires s.hasIntersected
    ensures Run(s, entries).hasIntersected
  {
    RunLatch(s, entries);
  }

  /** The live flag equals what the latest callback reported. */
  lemma {:induction false} RunMirrorsLastEntry(s: VisibilityState, entries: seq<bool>)
    requires entries != []
    ensures Run(s, entries).isIntersecting == entries[|entries| - 1]
    decreases |entries|
  {
    if |entries| > 1 {
      RunMirrorsLastEntry(Observe(s, entries[0]), entries[1..]);
    }
  }

  /** With `triggerOnce`, once the hook has reported the element
      revealed, no later callbacks make it report otherwise. */
  lemma ReportedLatchSticks(s: VisibilityState, before: seq<bool>, after: seq<bool>)
    requires Reported(true, Run(s, before))
    ensures Reported(true, Run(s, before + after))
  {
    RunAppend(s, before, after);
    LatchMonotone(Run(s, before), after);
  }

  /** Without `triggerOnce`, the reported signal is the latest callback's
      `isIntersecting`, with no latching. */
  lemma ReportedLiveTracksLastEntry(s: VisibilityState, entries: seq<bool>)
    requires entries != []
    ensures Reported(false, Run(s, entries)) == entries[|entries| - 1]
  {
    RunMirrorsLastEntry(s, entries);
  }

  /** Until the first visible callback, neither flag is reported true. */
  lemma NothingReportedBeforeFirstVisible(entries: seq<bool>, triggerOnce: bool)
    requires true !in entries
    ensures !Reported(triggerOnce, Run(Unobserved, entries))
  {
    RunLatch(Unobserved, entries);
    if entries != [] {
      RunMirrorsLastEntry(Unobserved, entries);
    }
  }

  /** What `useIntersectionObserver` returns, apart from the element ref. */
  datatype ObserverOutput = ObserverOutput(isIntersecting: bool, hasIntersected: bool)

  /** One `useIntersectionObserver` instance. `elementBound` says whether
      the ref held an element when the effect ran; without one no observer
      is created, so no callback ever changes the state. */
  class VisibilityObserver {
    const options: ObserverOptions
    const elementBound: bool
    var isIntersecting: bool
    var hasIntersected: bool

    function State(): VisibilityState
      reads this
    {
      VisibilityState(isIntersecting, hasIntersected)
    }

    constructor (options: ObserverOptions, elementBound: bool)
      ensures this.options == options && this.elementBound == elementBound
      ensures State() == Unobserved
    {
      this.options := options;
      this.elementBound := elementBound;
      isIntersecting := false;
      hasIntersected := false;
    }

    /** The observer callback for one entry. */
    method OnIntersection(entryIsIntersecting: bool)
      modifies this
      ensures elementBound ==> State() == Observe(old(State()), entryIsIntersecting)
      ensures !elementBound ==> State() == old(State())
      ensures old(hasIntersected) ==> hasIntersected
    {
      if !elementBound {
        return;
      }
      var isVisible := entryIsIntersecting;
      isIntersecting := isVisible;
      if isVisible && !hasIntersected {
        hasIntersected := true;
      }
    }

    /** The hook's return value. */
    function Output(): (o: ObserverOutput)
      reads this
      ensures o.isIntersecting == isIntersecting
      ensures options.triggerOnce ==> (o.hasIntersected <==> hasIntersected)
      ensures !options.triggerOnce ==> o.hasIntersected == isIntersecting
    {
      ObserverOutput(isIntersecting, Reported(options.triggerOnce, State()))
    }
  }

  // ---------------------------------------------------------------------
  // Scroll progress
  // ---------------------------------------------------------------------

  /** The ratios the progress observer asks to be told about:
      0, 0.01, ..., 1. */
  function ProgressThresholds(): (ts: seq<real>)
    ensures |ts| == 101 && ts[0] == 0.0 && ts[100] == 1.0
    ensures forall i :: 0 <= i < |ts| ==> 0.0 <= ts[i] <= 1.0
    ensures forall i, j :: 0 <= i < j < |ts| ==> ts[i] < ts[j]
  {
    seq(101, i => i as real / 100.0)
  }

  /** The options of the progress observer: all 101 ratios, no root
      margin, and no latching (the hook stores every intersecting
      callback). */
  function ProgressObserverOptions(): (o: ObserverOptions)
    ensures o.threshold.Ratios? && |o.threshold.ratios| == 101
    ensures forall i :: 0 <= i < 101 ==> o.threshold.ratios[i] == i as real / 100.0
    ensures o.rootMargin == "0px" && !o.triggerOnce
  {
    ObserverOptions(Ratios(ProgressThresholds()), "0px", false)
  }

  /** The progress of an element whose bounding box has top `top` and
      height `height` in a window of height `windowHeight`, before the
      final clamp. Only `top == 0 && height == 0` would divide zero by
      zero; every other input is defined. */
  function RawProgress(top: real, height: real, windowHeight: real): (p: real)
    requires top != 0.0 || height != 0.0
    ensures 0.0 <= p <= 1.0
  {
    if top <= windowHeight && top + height >= 0.0 then
      if top <= 0.0 then
        assert height > 0.0;
        DivNonNegative(Abs(top), height);
        Min(1.0, Abs(top) / height)
      else
        assert windowHeight > 0.0;
        DivPositive(top, windowHeight);
        Max(0.0, 1.0 - top / windowHeight)
    else
      0.0
  }

  lemma DivNonNegative(a: real, b: real)
    requires a >= 0.0 && b > 0.0
    ensures a / b >= 0.0
  {}

  lemma DivPositive(a: real, b: real)
    requires a > 0.0 && b > 0.0
    ensures a / b > 0.0
  {}

  /** The value `setScrollProgress` receives. */
  function ScrollProgress(top: real, height: real, windowHeight: real): (p: real)
    requires top != 0.0 || height != 0.0
    ensures 0.0 <= p <= 1.0
  {
    Max(0.0, Min(1.0, RawProgress(top, height, windowHeight)))
  }

  /** The clamp applied before storing changes nothing: both branches
      already land in [0, 1]. */
  lemma FinalClampIsIdentity(top: real, height: real, windowHeight: real)
    requires top != 0.0 || height != 0.0
    ensures ScrollProgress(top, height, windowHeight) == RawProgress(top, height, windowHeight)
    ensures 0.0 <= ScrollProgress(top, height, windowHeight) <= 1.0
  {}

  /** An element wholly below the window or wholly above it has
      progress 0. */
  lemma ProgressOutsideWindow(top: real, height: real, windowHeight: real)
    requires top != 0.0 || height != 0.0
    requires top > windowHeight || top + height < 0.0
    ensures ScrollProgress(top, height, windowHeight) == 0.0
  {}

  /** Once its top has passed the top of the window, the progress is the
      fraction of the element's height that lies above the window (the
      `min` with 1 never bites while the element still overlaps). */
  lemma ProgressAboveTop(top: real, height: real, windowHeight: real)
    requires top <= 0.0 && top + height >= 0.0 && top <= windowHeight
    requires top != 0.0 || height != 0.0
    ensures height > 0.0
    ensures ScrollProgress(top, height, windowHeight) * height == -top
  {
    var p := ScrollProgress(top, height, windowHeight);
    assert -top <= height;
    assert p == -top / height by {
      FracAtMostOne(-top, height);
    }
  }

  lemma FracAtMostOne(a: real, b: real)
    requires 0.0 <= a <= b && b > 0.0
    ensures a / b <= 1.0
  {}

  /** From `x * c == u`, `y * c == v` and `u <= v` with `c` positive,
      `x <= y`. */
  lemma CancelFactor(x: real, y: real, c: real, u: real, v: real)
    requires x * c == u && y * c == v && u <= v && c > 0.0
    ensures x <= y
  {}

  /** While the element enters from below, the progress is the fraction
      of the window height its top has risen above the bottom edge (the
      `max` with 0 never bites inside the window). */
  lemma ProgressEntering(top: real, height: real, windowHeight: real)
    requires 0.0 < top <= windowHeight && top + height >= 0.0
    ensures windowHeight > 0.0
    ensures ScrollProgress(top, height, windowHeight) * windowHeight == windowHeight - top
  {
    var p := ScrollProgress(top, height, windowHeight);
    FracAtMostOne(top, windowHeight);
    assert p == 1.0 - top / windowHeight;
    assert top / windowHeight * windowHeight == top;
  }

  /** The two formulas do not meet at `top == 0`: the progress is 0 there
      but at least one half for any top in the upper half of the window. */
  lemma ProgressJumpsAtWindowTop(top: real, height: real, windowHeight: real)
    requires height > 0.0 && windowHeight > 0.0
    requires 0.0 < top <= windowHeight / 2.0
    ensures ScrollProgress(0.0, height, windowHeight) == 0.0
    ensures ScrollProgress(top, height, windowHeight) >= 0.5
  {
    ProgressEntering(top, height, windowHeight);
    var p := ScrollProgress(top, height, windowHeight);
    CancelFactor(0.5, p, windowHeight, 0.5 * windowHeight, windowHeight - top);
  }

  /** At the moment its bottom edge reaches the top of the window the
      progress is 1; one pixel further it falls back to 0. */
  lemma ProgressAtBottomEdgeLeaving(height: real, windowHeight: real)
    requires height > 0.0 && windowHeight >= 0.0
    ensures ScrollProgress(-height, height, windowHeight) == 1.0
    ensures ScrollProgress(-height - 1.0, height, windowHeight) == 0.0
  {}

  /** Entering from below, the progress grows as the top rises. */
  lemma ProgressGrowsWhileEntering(top1: real, top2: real, height: real, windowHeight: real)
    requires 0.0 < top1 <= top2 <= windowHeight && height >= 0.0
    ensures ScrollProgress(top2, height, windowHeight) <= ScrollProgress(top1, height, windowHeight)
  {
    ProgressEntering(top1, height, windowHeight);
    ProgressEntering(top2, height, windowHeight);
    var p1, p2 := ScrollProgress(top1, height, windowHeight), ScrollProgress(top2, height, windowHeight);
    CancelFactor(p2, p1, windowHeight, windowHeight - top2, windowHeight - top1);
  }

  /** Leaving over the top, the progress grows as the top rises further. */
  lemma ProgressGrowsWhileLeaving(top1: real, top2: real, height: real, windowHeight: real)
    requires -height <= top2 <= top1 <= 0.0 && height > 0.0 && windowHeight >= 0.0
    ensures ScrollProgress(top1, height, windowHeight) <= ScrollProgress(top2, height, windowHeight)
  {
    ProgressAboveTop(top1, height, windowHeight);
    ProgressAboveTop(top2, height, windowHeight);
    var p1, p2 := ScrollProgress(top1, height, windowHeight), ScrollProgress(top2, height, windowHeight);
    CancelFactor(p1, p2, height, -top1, -top2);
  }

  /** One `useScrollProgress` instance. As with the visibility latch,
      `elementBound` says whether an observer exists at all. */
  class ScrollProgressTracker {
    const options: ObserverOptions
    const elementBound: bool
    var scrollProgress: real

    ghost predicate Valid()
      reads this
    {
      0.0 <= scrollProgress <= 1.0
    }

    constructor (elementBound: bool)
      ensures this.elementBound == elementBound
      ensures options == ProgressObserverOptions()
      ensures scrollProgress == 0.0 && Valid()
    {
      this.options := ProgressObserverOptions();
      this.elementBound := elementBound;
      scrollProgress := 0.0;
    }

    /** The observer callback for one entry with the given bounding box,
        read together with `window.innerHeight`. */
    method OnIntersection(entryIsIntersecting: bool, top: real, height: real, windowHeight: real)
      requires Valid()
      requires entryIsIntersecting ==> top != 0.0 || height != 0.0
      modifies this
      ensures Valid()
      ensures elementBound && entryIsIntersecting ==>
        scrollProgress == ScrollProgress(top, height, windowHeight)
      ensures !(elementBound && entryIsIntersecting) ==> scrollProgress == old(scrollProgress)
    {
      if !elementBound || !entryIsIntersecting {
        return;
      }
      var progress := 0.0;
      if top <= windowHeight && top + height >= 0.0 {
        if top <= 0.0 {
          progress := Min(1.0, Abs(top) / height);
        } else {
          progress := Max(0.0, 1.0 - top / windowHeight);
        }
      }
      assert progress == RawProgress(top, height, windowHeight);
      scrollProgress := Max(0.0, Min(1.0, progress));
    }
  }
}
