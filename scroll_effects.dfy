/** The scroll-linked components `ScrollReveal`, `Parallax` and
    `ScrollTrigger`. Each maps the page's scroll progress through
    framer-motion's `useTransform`; what the model keeps is the input and
    output range every component hands to it, per style property. */
module ScrollEffects {
  import opened Common
  import ScrollRevealSection

  /** `useTransform(scrollYProgress, [inStart, inEnd], [outStart, outEnd])`. */
  datatype Ramp = Ramp(inStart: real, inEnd: real, outStart: real, outEnd: real)

  /** The `style` prop: one ramp per animated property. */
  type Style = map<StyleKey, Ramp>

  // ---------------------------------------------------------------------
  // ScrollReveal
  // ---------------------------------------------------------------------

  datatype RevealDirection = Up | Down | Left | Right

  datatype Offset = Offset(x: real, y: real)

  /** `getInitialValues`: the offset the element starts from, 100 px along
      one axis. The switch's `default` arm, which repeats `up`, cannot be
      reached through the component's typed `direction` prop. */
  function InitialValues(d: RevealDirection): (o: Offset)
    ensures o.x == 0.0 || o.y == 0.0
    ensures Abs(o.x) + Abs(o.y) == 100.0
    ensures (d == Up || d == Down) <==> o.x == 0.0
  {
    match d
    case Up => Offset(0.0, 100.0)
    case Down => Offset(0.0, -100.0)
    case Left => Offset(100.0, 0.0)
    case Right => Offset(-100.0, 0.0)
  }

  /** The scroll progress by which `ScrollReveal` has finished. */
  const RevealEnd: real := 0.3

  /** The four ramps of `ScrollReveal`. */
  function ScrollRevealStyle(d: RevealDirection): (s: Style)
    ensures s.Keys == {X, Y, Opacity, StyleKey.Scale}
    ensures forall k :: k in s ==>
      s[k].inStart == 0.0 && s[k].inEnd == 0.3 && s[k].outEnd == NeutralValue(k)
  {
    var initial := InitialValues(d);
    map[
      Y := Ramp(0.0, RevealEnd, initial.y, 0.0),
      X := Ramp(0.0, RevealEnd, initial.x, 0.0),
      Opacity := Ramp(0.0, RevealEnd, 0.0, 1.0),
      StyleKey.Scale := Ramp(0.0, RevealEnd, 0.8, 1.0)]
  }

  /** At progress 0 the element sits at its initial offset, invisible and
      at 80% of its size. */
  lemma ScrollRevealStartValues(d: RevealDirection)
    ensures ScrollRevealStyle(d)[X].outStart == InitialValues(d).x
    ensures ScrollRevealStyle(d)[Y].outStart == InitialValues(d).y
    ensures ScrollRevealStyle(d)[Opacity].outStart == 0.0
    ensures ScrollRevealStyle(d)[StyleKey.Scale].outStart == 0.8
  {}

  /** `ScrollRevealSection` and `ScrollReveal` disagree on which way
      `left` and `right` point: the section starts a `left` element to the
      left (negative x), `ScrollReveal` to the right. Up and down agree. */
  lemma HorizontalConventionsDiffer()
    ensures ScrollRevealSection.InitialTransform(ScrollRevealSection.FadeDirection.Left)[X] < 0.0
    ensures InitialValues(Left).x > 0.0
    ensures ScrollRevealSection.InitialTransform(ScrollRevealSection.FadeDirection.Right)[X] > 0.0
    ensures InitialValues(Right).x < 0.0
    ensures ScrollRevealSection.InitialTransform(ScrollRevealSection.FadeDirection.Up)[Y] > 0.0
    ensures InitialValues(Up).y > 0.0
    ensures ScrollRevealSection.InitialTransform(ScrollRevealSection.FadeDirection.Down)[Y] < 0.0
    ensures InitialValues(Down).y < 0.0
  {}

  // ---------------------------------------------------------------------
  // Parallax
  // ---------------------------------------------------------------------

  /** `Parallax`: over the whole scroll range the element drifts down by
      `speed * 100` px, with `speed` 0.5 by default. */
  function ParallaxRamp(speed: Option<real>): (r: Ramp)
    ensures r.inStart == 0.0 && r.inEnd == 1.0 && r.outStart == 0.0
    ensures speed.None? ==> r.outEnd == 50.0
    ensures speed.Some? ==> r.outEnd == speed.value * 100.0
  {
    Ramp(0.0, 1.0, 0.0, speed.GetOr(0.5) * 100.0)
  }

  // ---------------------------------------------------------------------
  // ScrollTrigger
  // ---------------------------------------------------------------------

  datatype TriggerAnimation = Fade | Slide | Scale | Rotate

  /** `getAnimationValues`: an opacity ramp for every animation, plus one
      extra property for the three that move. */
  function TriggerStyle(a: TriggerAnimation, threshold: real): (s: Style)
    ensures Opacity in s && s[Opacity] == Ramp(0.0, threshold, 0.0, 1.0)
    ensures forall k :: k in s ==>
      s[k].inStart == 0.0 && s[k].inEnd == threshold && s[k].outEnd == NeutralValue(k)
    ensures a == Fade <==> s.Keys == {Opacity}
  {
    var fadeIn := Ramp(0.0, threshold, 0.0, 1.0);
    match a
    case Fade => map[Opacity := fadeIn]
    case Slide =>
      var s := map[Y := Ramp(0.0, threshold, 50.0, 0.0), Opacity := fadeIn];
      assert Y in s.Keys; s
    case Scale =>
      var s := map[StyleKey.Scale := Ramp(0.0, threshold, 0.8, 1.0), Opacity := fadeIn];
      assert StyleKey.Scale in s.Keys; s
    case Rotate =>
      var s := map[StyleKey.Rotate := Ramp(0.0, threshold, -180.0, 0.0), Opacity := fadeIn];
      assert StyleKey.Rotate in s.Keys; s
  }

  /** The property each moving animation adds and where it starts. */
  lemma TriggerExtraChannels(threshold: real)
    ensures TriggerStyle(Slide, threshold).Keys == {Y, Opacity}
    ensures TriggerStyle(Slide, threshold)[Y].outStart == 50.0
    ensures TriggerStyle(TriggerAnimation.Scale, threshold).Keys == {StyleKey.Scale, Opacity}
    ensures TriggerStyle(TriggerAnimation.Scale, threshold)[StyleKey.Scale].outStart == 0.8
    ensures TriggerStyle(TriggerAnimation.Rotate, threshold).Keys == {StyleKey.Rotate, Opacity}
    ensures TriggerStyle(TriggerAnimation.Rotate, threshold)[StyleKey.Rotate].outStart == -180.0
  {}

  /** `ScrollTrigger` with its props left out: a fade over the first 30%
      of the scroll range. */
  function ScrollTriggerStyle(animation: Option<TriggerAnimation>, threshold: Option<real>): (s: Style)
    ensures animation.None? && threshold.None? ==> s == map[Opacity := Ramp(0.0, 0.3, 0.0, 1.0)]
    ensures threshold.None? ==> forall k :: k in s ==> s[k].inEnd == 0.3
    ensures animation.None? ==> s.Keys == {Opacity}
    ensures threshold.Some? ==> forall k :: k in s ==> s[k].inEnd == threshold.value
    ensures animation.Some? ==> (s.Keys == {Opacity} <==> animation.value == Fade)
    ensures animation.Some? ==> s == TriggerStyle(animation.value, threshold.GetOr(0.3))
    ensures animation.None? ==> s == TriggerStyle(Fade, threshold.GetOr(0.3))
  {
    TriggerStyle(animation.GetOr(Fade), threshold.GetOr(0.3))
  }
}
