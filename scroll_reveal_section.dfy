/** `ScrollRevealSection` and `ScrollRevealContent`: the entrance animation
    driven by the visibility latch, the dimming driven by scroll progress,
    and the staggered reveal of a list of children. Rendering is reduced to
    the motion props each component hands to framer-motion. */
module ScrollRevealSection {
  import opened Common
  import opened IntersectionObserver

  datatype FadeDirection = Up | Down | Left | Right | Fade

  /** A motion target: the style properties it sets and their values. */
  type Transform = map<StyleKey, real>

  /** framer-motion's `transition` prop. */
  datatype Transition = Transition(duration: real, delay: real, ease: seq<real>)

  /** The cubic-bezier control points both components use. */
  const RevealEase: seq<real> := [0.25, 0.1, 0.25, 1.0]

  // ---------------------------------------------------------------------
  // Section: direction tables and target choice
  // ---------------------------------------------------------------------

  /** The property the direction slides along, if any. */
  function SlideAxis(d: FadeDirection): Option<StyleKey> {
    match d
    case Up | Down => Some(Y)
    case Left | Right => Some(X)
    case Fade => None
  }

  /** `getInitialTransform`: where the section waits while hidden. */
  function InitialTransform(d: FadeDirection): (t: Transform)
    ensures Opacity in t && t[Opacity] == 0.0
    ensures SlideAxis(d).None? ==> t.Keys == {Opacity}
    ensures SlideAxis(d).Some? ==>
              t.Keys == {Opacity, SlideAxis(d).value} && Abs(t[SlideAxis(d).value]) == 60.0
  {
    match d
    case Up => map[Y := 60.0, Opacity := 0.0]
    case Down => map[Y := -60.0, Opacity := 0.0]
    case Left => map[X := -60.0, Opacity := 0.0]
    case Right => map[X := 60.0, Opacity := 0.0]
    case Fade => map[Opacity := 0.0]
  }

  /** `getAnimateTransform`: where the section comes to rest. */
  function AnimateTransform(d: FadeDirection): (t: Transform)
    ensures forall k :: k in t ==> t[k] == NeutralValue(k)
  {
    match d
    case Up | Down => map[Y := 0.0, Opacity := 1.0]
    case Left | Right => map[X := 0.0, Opacity := 1.0]
    case Fade => map[Opacity := 1.0]
  }

  /** The revealed transform resets exactly the properties the hidden one
      sets, each to its neutral value. */
  lemma RevealResetsHiddenProperties(d: FadeDirection)
    ensures AnimateTransform(d).Keys == InitialTransform(d).Keys
    ensures forall k :: k in AnimateTransform(d) ==> AnimateTransform(d)[k] == NeutralValue(k)
  {}

  /** Up and down, left and right, are mirror images of each other. */
  lemma OppositeDirectionsMirror()
    ensures InitialTransform(Down)[Y] == -InitialTransform(Up)[Y]
    ensures InitialTransform(Up)[Y] == 60.0 && InitialTransform(Right)[X] == 60.0
    ensures InitialTransform(Left)[X] == -InitialTransform(Right)[X]
  {}

  /** The `animate` prop of the section. */
  function Target(d: FadeDirection, hasIntersected: bool): (t: Transform)
    ensures t.Keys == InitialTransform(d).Keys
    ensures t[Opacity] == (if hasIntersected then 1.0 else 0.0)
  {
    if hasIntersected then AnimateTransform(d) else InitialTransform(d)
  }

  /** The section heads for the revealed transform exactly when the latch
      reports it has intersected, and otherwise stays at the hidden one. */
  lemma TargetRevealedIff(d: FadeDirection, hasIntersected: bool)
    ensures Target(d, hasIntersected) == AnimateTransform(d) <==> hasIntersected
    ensures Target(d, hasIntersected) == InitialTransform(d) <==> !hasIntersected
  {
    assert AnimateTransform(d)[Opacity] != InitialTransform(d)[Opacity];
  }

  // ---------------------------------------------------------------------
  // Section: scroll-progress dimming
  // ---------------------------------------------------------------------

  /** `progressOpacity`: 1 when dimming is off, else 1 - 0.7 p floored at 0.3. */
  function ProgressOpacity(enableScrollProgress: bool, scrollProgress: real): (o: real)
    ensures !enableScrollProgress ==> o == 1.0
    ensures enableScrollProgress ==> o >= 0.3
    ensures scrollProgress >= 0.0 ==> o <= 1.0
    ensures enableScrollProgress && scrollProgress <= 1.0 ==> o == 1.0 - 0.7 * scrollProgress
  {
    if enableScrollProgress then Max(0.3, 1.0 - scrollProgress * 0.7) else 1.0
  }

  /** For any progress in [0, 1] the opacity stays within [0.3, 1], and
      the floor only takes over at progress 1: in between, the dimming is
      exactly linear. */
  lemma ProgressOpacityBounds(enableScrollProgress: bool, p: real)
    requires 0.0 <= p <= 1.0
    ensures 0.3 <= ProgressOpacity(enableScrollProgress, p) <= 1.0
    ensures enableScrollProgress ==> ProgressOpacity(enableScrollProgress, p) == 1.0 - 0.7 * p
    ensures !enableScrollProgress ==> ProgressOpacity(enableScrollProgress, p) == 1.0
  {}

  /** Fully opaque at the start, 0.65 half way, 0.3 at the end. */
  lemma ProgressOpacityLandmarks()
    ensures ProgressOpacity(true, 0.0) == 1.0
    ensures ProgressOpacity(true, 0.5) == 0.65
    ensures ProgressOpacity(true, 1.0) == 0.3
  {}

  /** More progress never makes the section more opaque. */
  lemma ProgressOpacityNonIncreasing(enableScrollProgress: bool, p: real, q: real)
    requires p <= q
    ensures ProgressOpacity(enableScrollProgress, q) <= ProgressOpacity(enableScrollProgress, p)
  {}

  // ---------------------------------------------------------------------
  // Section: configuration and rendered props
  // ---------------------------------------------------------------------

  /** The section's props after their defaults. */
  datatype SectionConfig = SectionConfig(
    fadeDirection: FadeDirection,
    delay: real,
    duration: real,
    threshold: real,
    rootMargin: string,
    enableScrollProgress: bool)

  datatype SectionProps = SectionProps(
    fadeDirection: Option<FadeDirection>,
    delay: Option<real>,
    duration: Option<real>,
    threshold: Option<real>,
    rootMargin: Option<string>,
    enableScrollProgress: Option<bool>)

  /** Defaults: slide up, no delay, 0.3 s, ratio 0.1, bottom margin -10%,
      no dimming. */
  function ResolveSection(props: SectionProps): (c: SectionConfig)
    ensures props.fadeDirection.None? ==> c.fadeDirection == Up
    ensures props.delay.None? ==> c.delay == 0.0
    ensures props.duration.None? ==> c.duration == 0.3
    ensures props.threshold.None? ==> c.threshold == 0.1
    ensures props.rootMargin.None? ==> c.rootMargin == "0px 0px -10% 0px"
    ensures c.enableScrollProgress <==> props.enableScrollProgress == Some(true)
    ensures props.fadeDirection.Some? ==> c.fadeDirection == props.fadeDirection.value
    ensures props.delay.Some? ==> c.delay == props.delay.value
    ensures props.duration.Some? ==> c.duration == props.duration.value
    ensures props.threshold.Some? ==> c.threshold == props.threshold.value
    ensures props.rootMargin.Some? ==> c.rootMargin == props.rootMargin.value
  {
    SectionConfig(
      props.fadeDirection.GetOr(Up),
      props.delay.GetOr(0.0),
      props.duration.GetOr(0.3),
      props.threshold.GetOr(0.1),
      props.rootMargin.GetOr("0px 0px -10% 0px"),
      props.enableScrollProgress.GetOr(false))
  }

  /** The section always observes with the latch on. */
  function SectionObserverOptions(c: SectionConfig): (o: ObserverOptions)
    ensures o.triggerOnce
    ensures o.threshold == Single(c.threshold) && o.rootMargin == c.rootMargin
  {
    ObserverOptions(Single(c.threshold), c.rootMargin, true)
  }

  /** The motion props the section renders. */
  datatype SectionView = SectionView(
    initial: Transform,
    animate: Transform,
    transition: Transition,
    styleOpacity: Option<real>)

  /** The props for a given latch value and scroll progress; the inline
      opacity is left undefined unless dimming is on. */
  function RenderSection(c: SectionConfig, hasIntersected: bool, scrollProgress: real): (v: SectionView)
    ensures v.initial == InitialTransform(c.fadeDirection)
    ensures v.animate == AnimateTransform(c.fadeDirection) <==> hasIntersected
    ensures v.animate == Target(c.fadeDirection, hasIntersected)
    ensures !hasIntersected ==> v.animate == InitialTransform(c.fadeDirection)
    ensures v.transition == Transition(c.duration, c.delay, [0.25, 0.1, 0.25, 1.0])
    ensures v.styleOpacity.Some? <==> c.enableScrollProgress
    ensures c.enableScrollProgress ==> v.styleOpacity.value == ProgressOpacity(true, scrollProgress)
    ensures c.enableScrollProgress && 0.0 <= scrollProgress <= 1.0 ==>
      0.3 <= v.styleOpacity.value <= 1.0
  {
    TargetRevealedIff(c.fadeDirection, hasIntersected);
    ProgressOpacityBounds(c.enableScrollProgress, if 0.0 <= scrollProgress <= 1.0 then scrollProgress else 0.0);
    SectionView(
      InitialTransform(c.fadeDirection),
      Target(c.fadeDirection, hasIntersected),
      Transition(c.duration, c.delay, RevealEase),
      if c.enableScrollProgress then Some(ProgressOpacity(true, scrollProgress)) else None)
  }

  /** Because the section latches, once it has been sent towards its
      revealed transform it is never sent back to the hidden one, whatever
      the later callbacks report. */
  lemma SectionNeverHidesAgain(c: SectionConfig, before: seq<bool>, after: seq<bool>, p: real, q: real)
    requires RenderSection(c, Reported(SectionObserverOptions(c).triggerOnce, Run(Unobserved, before)), p).animate
      == AnimateTransform(c.fadeDirection)
    ensures RenderSection(c, Reported(SectionObserverOptions(c).triggerOnce, Run(Unobserved, before + after)), q).animate
      == AnimateTransform(c.fadeDirection)
  {
    ReportedLatchSticks(Unobserved, before, after);
  }

  /** A section sliding in from the left: hidden before any callback,
      revealed by the first visible one, and still revealed after the
      element leaves the viewport again. */
  lemma LeftSectionScenario()
    ensures Target(Left, Reported(true, Run(Unobserved, []))) == map[X := -60.0, Opacity := 0.0]
    ensures Target(Left, Reported(true, Run(Unobserved, [false, true]))) == map[X := 0.0, Opacity := 1.0]
    ensures Target(Left, Reported(true, Run(Unobserved, [false, true, false]))) == map[X := 0.0, Opacity := 1.0]
  {
    RunLatch(Unobserved, [false, true]);
    RunLatch(Unobserved, [false, true, false]);
  }

  // ---------------------------------------------------------------------
  // Staggered content
  // ---------------------------------------------------------------------

  datatype ContentConfig = ContentConfig(delay: real, stagger: real)

  /** Defaults: no base delay, 0.1 s between children. */
  function ResolveContent(delay: Option<real>, stagger: Option<real>): (c: ContentConfig)
    ensures delay.None? ==> c.delay == 0.0
    ensures stagger.None? ==> c.stagger == 0.1
    ensures delay.Some? ==> c.delay == delay.value
    ensures stagger.Some? ==> c.stagger == stagger.value
  {
    ContentConfig(delay.GetOr(0.0), stagger.GetOr(0.1))
  }

  /** The content wrapper observes with ratio 0.2, a -5% bottom margin and
      the latch on. */
  function ContentObserverOptions(): (o: ObserverOptions)
    ensures o.triggerOnce
    ensures o.threshold == Single(0.2) && o.rootMargin == "0px 0px -5% 0px"
  {
    ObserverOptions(Single(0.2), "0px 0px -5% 0px", true)
  }

  /** The transition delay of the child at `index`. */
  function ChildDelay(c: ContentConfig, index: nat): real {
    c.delay + index as real * c.stagger
  }

  /** The delays `Children.map` hands out: the first child waits the base
      delay and each later one waits one stagger longer than the one
      before it. */
  function ChildDelays(c: ContentConfig, count: nat): (ds: seq<real>)
    ensures |ds| == count
    ensures count > 0 ==> ds[0] == c.delay
    ensures forall i :: 0 <= i < count - 1 ==> ds[i + 1] == ds[i] + c.stagger
  {
    seq(count, i requires 0 <= i => ChildDelay(c, i))
  }

  /** With a positive stagger the children are revealed strictly in
      order. */
  lemma {:induction false} StaggerOrdersChildren(c: ContentConfig, count: nat, i: nat, j: nat)
    requires c.stagger > 0.0 && i < j < count
    ensures ChildDelays(c, count)[i] < ChildDelays(c, count)[j]
    decreases j - i
  {
    var ds := ChildDelays(c, count);
    if j > i + 1 {
      StaggerOrdersChildren(c, count, i, j - 1);
    }
    assert ds[j] == ds[j - 1] + c.stagger;
  }

  /** With the default props three children wait 0, 0.1 and 0.2 s. */
  lemma DefaultStaggerOfThree()
    ensures ChildDelays(ResolveContent(None, None), 3) == [0.0, 0.1, 0.2]
  {}

  /** Where the content wrapper and each child head. */
  function ContainerTarget(hasIntersected: bool): Transform {
    if hasIntersected then map[Opacity := 1.0] else map[Opacity := 0.0]
  }

  function ChildTarget(hasIntersected: bool): (t: Transform)
    ensures t.Keys == {Y, Opacity}
    ensures hasIntersected <==> t[Opacity] == 1.0
  {
    if hasIntersected then map[Y := 0.0, Opacity := 1.0] else map[Y := 30.0, Opacity := 0.0]
  }

  /** A revealed child is at rest; a hidden one is 30 px low and
      invisible; the two set the same properties. */
  lemma ChildTargets(hasIntersected: bool)
    ensures ChildTarget(hasIntersected).Keys == {Y, Opacity}
    ensures hasIntersected ==> forall k :: k in ChildTarget(hasIntersected) ==> ChildTarget(hasIntersected)[k] == NeutralValue(k)
    ensures !hasIntersected ==> ChildTarget(hasIntersected)[Y] == 30.0 && ChildTarget(hasIntersected)[Opacity] == 0.0
    ensures ContainerTarget(hasIntersected)[Opacity] == ChildTarget(hasIntersected)[Opacity]
  {}

  /** The motion props of the content wrapper. Its transition names no
      ease curve (framer-motion's default), written as an empty `ease`. */
  datatype ContainerView = ContainerView(initial: Transform, animate: Transform, transition: Transition)

  /** The wrapper starts invisible, fades in with the latch over 0.3 s
      after the base delay, and always agrees with its children on
      opacity. */
  function RenderContainer(c: ContentConfig, hasIntersected: bool): (v: ContainerView)
    ensures v.initial == map[Opacity := 0.0]
    ensures v.animate.Keys == {Opacity}
    ensures v.animate[Opacity] == ChildTarget(hasIntersected)[Opacity]
    ensures hasIntersected <==> v.animate[Opacity] == 1.0
    ensures v.transition == Transition(0.3, c.delay, [])
  {
    ChildTargets(hasIntersected);
    ContainerView(map[Opacity := 0.0], ContainerTarget(hasIntersected), Transition(0.3, c.delay, []))
  }

  /** The motion props of one wrapped child. */
  datatype ChildView = ChildView(initial: Transform, animate: Transform, transition: Transition)

  /** The children `ScrollRevealContent` renders for `count` children. */
  function RenderChildren(c: ContentConfig, hasIntersected: bool, count: nat): (vs: seq<ChildView>)
    ensures |vs| == count
    ensures forall i :: 0 <= i < count ==>
      vs[i].initial == ChildTarget(false)
      && vs[i].animate == ChildTarget(hasIntersected)
      && vs[i].transition.delay == ChildDelays(c, count)[i]
      && vs[i].transition.duration == 0.3
      && vs[i].transition.ease == RevealEase
  {
    seq(count, i requires 0 <= i =>
      ChildView(map[Y := 30.0, Opacity := 0.0], ChildTarget(hasIntersected),
        Transition(0.3, ChildDelay(c, i), RevealEase)))
  }
}
