# Visibility and reveal layer of crystal-scroll-space

This project is a Dafny model of the small state layer behind the scroll
animations of the crystal-scroll-space marketing site. It covers:

- **Visibility latch** (`useIntersectionObserver`). The hook keeps a live
  `isIntersecting` flag and a sticky `hasIntersected` latch. What it reports
  depends on `triggerOnce`.
- **Scroll progress** (`useScrollProgress`). A piecewise formula takes an
  element's bounding box and the window height to a progress in [0, 1]. The
  value is stored only on intersecting callbacks.
- **Reveal mapping** (`ScrollRevealSection`, `ScrollRevealContent`). This
  covers the direction tables, the choice between the hidden and revealed
  target, the dimming opacity `max(0.3, 1 - 0.7 p)` and the staggered child
  delays `delay + i * stagger`.
- **Scroll-linked components** (`ScrollReveal`, `Parallax`,
  `ScrollTrigger`). The model keeps the input and output ranges each one
  hands to framer-motion.
- **Scroll helpers** (`useScrollEffects`). This covers the `easeInOutCubic`
  curve, the `smoothScrollTo` frame loop, the anchor-click rule, `scrollToTop`
  and `scrollToSection`, the scroll-direction state machine, and the
  `throttle` gate in front of it.
- **Header** (`Header`). It holds the `isScrolled` and `isMobileMenuOpen`
  state, the scroll listener, the menu toggle and close-on-navigate.

How the model is built:

- Browser events are explicit inputs. Each is one method call:
  - an intersection callback;
  - a scroll event;
  - a timer expiry;
  - an animation frame with its timestamp.
- The document is a map from element id to `offsetTop`.
- Numbers are exact `real`s.
- State that the source keeps in React state or closures lives in classes
  whose methods are tied by their `ensures` to pure step functions
  (`Observe`, `DirectionStep`, `ScrollProgress`, `Executions`).
- Lemmas about folds of those step functions state what holds over a whole
  run of events.

Modules:

- `Common`: `Option`, the animated style properties, `Math.min`/`max`/`abs`
  and the document lookup.
- `IntersectionObserver`: `src/hooks/useIntersectionObserver.ts`.
- `ScrollRevealSection`: `src/components/ScrollRevealSection.tsx`.
- `ScrollEffects`: `src/components/ScrollEffects.tsx`.
- `ScrollHooks`: `src/hooks/useScrollEffects.ts`.
- `HeaderComponent`: `src/components/Header.tsx`.

## Model

| member | source | states |
|---|---|---|
| `Common.GetElementById` | src/hooks/useScrollEffects.ts:106 | an element is found exactly when the id is non-empty and present in the document, and the result is that element's offset |
| `IntersectionObserver.ResolveOptions` | src/hooks/useIntersectionObserver.ts:16-20 | each option left out takes its default: ratio 0.1, root margin "0px 0px -10% 0px", latching only when `triggerOnce` is explicitly true |
| `IntersectionObserver.Observe` | src/hooks/useIntersectionObserver.ts:28-33 | after one callback the live flag equals the entry's `isIntersecting`, and the latch is set exactly when it was set before or the entry is visible |
| `IntersectionObserver.Reported` | src/hooks/useIntersectionObserver.ts:51 | the hook never reports true while both flags are false, and always reports true when both are true; `ReportedLatchSticks` and `ReportedLiveTracksLastEntry` state each setting exactly |
| `IntersectionObserver.RunAppend` | src/hooks/useIntersectionObserver.ts:27-34 | running two batches of callbacks one after the other is the same as running them as one batch |
| `IntersectionObserver.RunLatch` | src/hooks/useIntersectionObserver.ts:31-33 | after any run, the latch is set exactly when it was set at the start or some callback reported the element visible |
| `IntersectionObserver.LatchMonotone` | src/hooks/useIntersectionObserver.ts:31-33 | no sequence of callbacks ever clears the latch |
| `IntersectionObserver.RunMirrorsLastEntry` | src/hooks/useIntersectionObserver.ts:28-29 | after a non-empty run, the live flag is what the last callback reported |
| `IntersectionObserver.ReportedLatchSticks` | src/hooks/useIntersectionObserver.ts:51 | with `triggerOnce`, once the hook has reported the element as intersected, it keeps doing so whatever callbacks follow |
| `IntersectionObserver.ReportedLiveTracksLastEntry` | src/hooks/useIntersectionObserver.ts:51 | without `triggerOnce`, the reported value is the last callback's `isIntersecting` |
| `IntersectionObserver.NothingReportedBeforeFirstVisible` | src/hooks/useIntersectionObserver.ts:12-13 | starting from the initial state, a run with no visible callback reports false under either `triggerOnce` setting |
| `IntersectionObserver.VisibilityObserver.constructor` | src/hooks/useIntersectionObserver.ts:12-13 | both flags start false |
| `IntersectionObserver.VisibilityObserver.OnIntersection` | src/hooks/useIntersectionObserver.ts:23-33 | with an element bound, the new state is `Observe` of the old state and the entry; with none, the state never changes; the latch is never cleared |
| `IntersectionObserver.VisibilityObserver.Output` | src/hooks/useIntersectionObserver.ts:48-52 | returns the live flag, plus the latch with `triggerOnce` or the live flag without it |
| `IntersectionObserver.ProgressThresholds` | src/hooks/useIntersectionObserver.ts:89 | 101 strictly increasing ratios from 0 to 1, all in [0, 1] |
| `IntersectionObserver.ProgressObserverOptions` | src/hooks/useIntersectionObserver.ts:88-91 | the progress observer asks for the 101 ratios i/100 and uses root margin "0px" |
| `IntersectionObserver.RawProgress` | src/hooks/useIntersectionObserver.ts:73-83 | the branch formula is defined whenever it does not divide 0 by 0, and always lies in [0, 1] |
| `IntersectionObserver.ScrollProgress` | src/hooks/useIntersectionObserver.ts:85 | the stored progress always lies in [0, 1]; `ProgressOutsideWindow`, `ProgressAboveTop` and `ProgressEntering` give its value branch by branch |
| `IntersectionObserver.FinalClampIsIdentity` | src/hooks/useIntersectionObserver.ts:85 | the final clamp never changes the value, which is always in [0, 1] |
| `IntersectionObserver.ProgressOutsideWindow` | src/hooks/useIntersectionObserver.ts:73-75 | an element wholly below or wholly above the window has progress 0 |
| `IntersectionObserver.ProgressAboveTop` | src/hooks/useIntersectionObserver.ts:76-78 | once the top has passed the window top, progress times height is the part of the element above the window |
| `IntersectionObserver.ProgressEntering` | src/hooks/useIntersectionObserver.ts:79-81 | while entering from below, progress times window height is how far the top has risen above the bottom edge |
| `IntersectionObserver.ProgressJumpsAtWindowTop` | src/hooks/useIntersectionObserver.ts:76-81 | the two branches do not meet: at top 0 the progress is 0, but it is at least 1/2 anywhere in the upper half of the window |
| `IntersectionObserver.ProgressAtBottomEdgeLeaving` | src/hooks/useIntersectionObserver.ts:75-78 | the progress is 1 when the bottom edge reaches the window top and falls to 0 one pixel later |
| `IntersectionObserver.ProgressGrowsWhileEntering` | src/hooks/useIntersectionObserver.ts:79-81 | while entering, a higher top gives at least as much progress |
| `IntersectionObserver.ProgressGrowsWhileLeaving` | src/hooks/useIntersectionObserver.ts:76-78 | while leaving over the top, a higher top gives at least as much progress |
| `IntersectionObserver.ScrollProgressTracker.constructor` | src/hooks/useIntersectionObserver.ts:56-91 | the progress starts at 0, and the observer is created with the progress observer's options |
| `IntersectionObserver.ScrollProgressTracker.OnIntersection` | src/hooks/useIntersectionObserver.ts:59-86 | an intersecting callback with an element bound stores `ScrollProgress` of the box; any other callback leaves the progress unchanged; the progress stays in [0, 1] |
| `ScrollRevealSection.InitialTransform` | src/components/ScrollRevealSection.tsx:47-61 | the hidden transform always has opacity 0; fade sets only opacity; the other directions also set a 60 px offset on their own axis |
| `ScrollRevealSection.AnimateTransform` | src/components/ScrollRevealSection.tsx:63-75 | every property of the revealed transform is at its neutral value |
| `ScrollRevealSection.RevealResetsHiddenProperties` | src/components/ScrollRevealSection.tsx:47-75 | the revealed transform sets exactly the properties the hidden one sets, each to its neutral value |
| `ScrollRevealSection.OppositeDirectionsMirror` | src/components/ScrollRevealSection.tsx:49-56 | up starts 60 px low and down 60 px high; right starts 60 px right and left 60 px left |
| `ScrollRevealSection.Target` | src/components/ScrollRevealSection.tsx:91 | the target sets the same properties as the hidden transform, with opacity 1 when the latch is set and 0 otherwise; `TargetRevealedIff` states the choice in both directions |
| `ScrollRevealSection.TargetRevealedIff` | src/components/ScrollRevealSection.tsx:91 | the animate target is the revealed transform if and only if the latch is set, and the hidden one otherwise |
| `ScrollRevealSection.ProgressOpacity` | src/components/ScrollRevealSection.tsx:77-79 | the opacity is 1 when dimming is off; with dimming on it never drops below 0.3 and is exactly `1 - 0.7 p` for progress up to 1; it never exceeds 1 for non-negative progress |
| `ScrollRevealSection.ProgressOpacityBounds` | src/components/ScrollRevealSection.tsx:77-79 | for progress in [0, 1] the opacity lies in [0.3, 1]: exactly `1 - 0.7 p` when dimming is on, and 1 when it is off |
| `ScrollRevealSection.ProgressOpacityLandmarks` | src/components/ScrollRevealSection.tsx:78 | the dimmed opacity is 1 at progress 0, 0.65 at 1/2 and 0.3 at 1 |
| `ScrollRevealSection.ProgressOpacityNonIncreasing` | src/components/ScrollRevealSection.tsx:78 | more progress never gives a higher opacity |
| `ScrollRevealSection.ResolveSection` | src/components/ScrollRevealSection.tsx:18-28 | the section's defaults: slide up, delay 0, duration 0.3, ratio 0.1, margin "0px 0px -10% 0px", no dimming; every prop that is supplied passes through unchanged |
| `ScrollRevealSection.SectionObserverOptions` | src/components/ScrollRevealSection.tsx:29-33 | the section observes with its own ratio and margin, and always with the latch on |
| `ScrollRevealSection.RenderSection` | src/components/ScrollRevealSection.tsx:90-99 | the initial prop is the hidden transform; the target is `Target` of the latch: the revealed transform if and only if the latch is set, the hidden one otherwise; the transition uses the section's duration, delay and the 0.25/0.1/0.25/1 curve; an inline opacity is present exactly when dimming is on, equals `ProgressOpacity` of the progress, and lies in [0.3, 1] for progress in [0, 1] |
| `ScrollRevealSection.SectionNeverHidesAgain` | src/components/ScrollRevealSection.tsx:29-33 | once a section has been sent to its revealed transform, no later callbacks send it back |
| `ScrollRevealSection.LeftSectionScenario` | src/components/ScrollRevealSection.tsx:53-54 | a left-sliding section waits at x = -60, is revealed by the first visible callback, and stays revealed after it leaves the viewport |
| `ScrollRevealSection.ResolveContent` | src/components/ScrollRevealSection.tsx:116-117 | the content's defaults are base delay 0 and stagger 0.1 |
| `ScrollRevealSection.ContentObserverOptions` | src/components/ScrollRevealSection.tsx:119-123 | the content wrapper observes with ratio 0.2, root margin "0px 0px -5% 0px" and the latch on |
| `ScrollRevealSection.ChildDelays` | src/components/ScrollRevealSection.tsx:140 | the first child waits the base delay, and each later child waits one stagger longer than the one before |
| `ScrollRevealSection.StaggerOrdersChildren` | src/components/ScrollRevealSection.tsx:140 | with a positive stagger, a later child always starts strictly later |
| `ScrollRevealSection.DefaultStaggerOfThree` | src/components/ScrollRevealSection.tsx:116-117 | with the default props, three children wait 0, 0.1 and 0.2 s |
| `ScrollRevealSection.ChildTarget` | src/components/ScrollRevealSection.tsx:136-137 | a child's target sets y and opacity, and its opacity is 1 exactly when the latch is set; `ChildTargets` gives both targets in full |
| `ScrollRevealSection.ChildTargets` | src/components/ScrollRevealSection.tsx:129-137 | a revealed child is at rest; a hidden child is 30 px low and invisible; the wrapper's opacity follows the children's |
| `ScrollRevealSection.RenderContainer` | src/components/ScrollRevealSection.tsx:126-132 | the content wrapper starts at opacity 0, fades to 1 exactly when the latch is set, agreeing with its children, over 0.3 s after the base delay, with no ease curve of its own |
| `ScrollRevealSection.RenderChildren` | src/components/ScrollRevealSection.tsx:133-146 | one view per child: it starts hidden, heads for the latch's target, lasts 0.3 s with the 0.25/0.1/0.25/1 curve, and waits its staggered delay |
| `ScrollEffects.InitialValues` | src/components/ScrollEffects.tsx:23-31 | each direction starts 100 px away along exactly one axis: the y axis for up and down, the x axis for left and right |
| `ScrollEffects.ScrollRevealStyle` | src/components/ScrollEffects.tsx:33-37 | four ramps (x, y, opacity, scale), each over progress [0, 0.3] and each ending at the property's neutral value |
| `ScrollEffects.ScrollRevealStartValues` | src/components/ScrollEffects.tsx:33-37 | at progress 0 the element sits at its initial offset, with opacity 0 and scale 0.8 |
| `ScrollEffects.HorizontalConventionsDiffer` | src/components/ScrollEffects.tsx:25-28 | `ScrollReveal` starts a left element on the right and a right element on the left, the opposite of `ScrollRevealSection`; up and down agree |
| `ScrollEffects.ParallaxRamp` | src/components/ScrollEffects.tsx:57-64 | over the whole scroll range the element moves from 0 to `speed * 100` px, or 50 px with the default speed |
| `ScrollEffects.TriggerStyle` | src/components/ScrollEffects.tsx:96-121 | every animation fades opacity 0 to 1 over [0, threshold]; every ramp ends at its neutral value; fade is the only animation with no other property |
| `ScrollEffects.TriggerExtraChannels` | src/components/ScrollEffects.tsx:102-116 | slide adds y from 50, scale adds scale from 0.8, and rotate adds rotation from -180 |
| `ScrollEffects.ScrollTriggerStyle` | src/components/ScrollEffects.tsx:84-124 | with the defaults, the component is a single opacity fade over [0, 0.3]; with the animation left out it is the fade table over the given threshold; a supplied threshold ends every ramp, and a supplied animation selects its own table from `TriggerStyle`, which is opacity only exactly when it is fade |
| `ScrollHooks.EaseInOutCubic` | src/hooks/useScrollEffects.ts:81-83 | the curve maps 0 to 0, 1/2 to 1/2 and 1 to 1; `EaseSymmetric`, `EaseMonotone` and `EaseInUnitInterval` state its shape |
| `ScrollHooks.EaseLandmarks` | src/hooks/useScrollEffects.ts:81-83 | the curve maps 0 to 0, 1/2 to 1/2 and 1 to 1 |
| `ScrollHooks.EaseSymmetric` | src/hooks/useScrollEffects.ts:81-83 | the second half is the point reflection of the first through (1/2, 1/2) |
| `ScrollHooks.EaseMonotone` | src/hooks/useScrollEffects.ts:81-83 | the curve is non-decreasing everywhere |
| `ScrollHooks.EaseInUnitInterval` | src/hooks/useScrollEffects.ts:81-83 | on [0, 1] the curve stays within [0, 1] |
| `ScrollHooks.FrameProgress` | src/hooks/useScrollEffects.ts:86-87 | the progress never exceeds 1, is non-negative after the start, and equals 1 exactly when the elapsed time has reached the duration |
| `ScrollHooks.InterpolateBetween` | src/hooks/useScrollEffects.ts:78-90 | an eased fraction of 0 gives the start, 1 gives the target, and any fraction in between gives a point between the two |
| `ScrollHooks.FramePositionBounds` | src/hooks/useScrollEffects.ts:86-90 | the frame at progress 1 writes exactly the target and the one at progress 0 the start; for progress in [0, 1] the position lies between them |
| `ScrollHooks.SmoothScrollTo` | src/hooks/useScrollEffects.ts:76-98 | each frame writes the eased position for its timestamp; frames stop after the first one whose elapsed time reaches the duration, and that frame writes exactly the target; if no frame reaches it, every frame given is used |
| `ScrollHooks.ScrollFrame` | src/hooks/useScrollEffects.ts:85-95 | one frame writes the eased position for its timestamp, asks for another frame exactly while the elapsed time is below the duration, and writes exactly the target when it stops |
| `ScrollHooks.SmoothScrollStaysBetween` | src/hooks/useScrollEffects.ts:85-90 | a frame at or after the start never writes a position outside the segment between the start and the target |
| `ScrollHooks.TargetIdRoundTrip` | src/hooks/useScrollEffects.ts:105 | stripping the `#` and putting it back gives the href again, and the id of `#id` is `id` |
| `ScrollHooks.HandleAnchorClick` | src/hooks/useScrollEffects.ts:101-113 | the default action is cancelled exactly for an `A` whose href starts with `#`; a scroll starts exactly when the id after the `#` is non-empty and names an element, and it aims 80 px above that element |
| `ScrollHooks.EmptyOrUnknownFragmentIsSwallowed` | src/hooks/useScrollEffects.ts:104-108 | a bare `#`, or a fragment naming no element, cancels the default action but scrolls nowhere |
| `ScrollHooks.OnDocumentClick` | src/hooks/useScrollEffects.ts:101-113 | a click that starts no scroll writes no position; one that does writes, frame by frame, the eased 800 ms scroll from the current position to the target, stops after the first frame at or after 800 ms, and then ends exactly on the target |
| `ScrollHooks.ScrollToTop` | src/hooks/useScrollEffects.ts:171-176 | scrolls to offset 0, smoothly unless `false` is passed |
| `ScrollHooks.ScrollToSection` | src/hooks/useScrollEffects.ts:178-187 | a smooth scroll to `offset` above the element (80 px by default) happens exactly when the element exists |
| `ScrollHooks.SectionScrollMatchesAnchorClick` | src/hooks/useScrollEffects.ts:109 | with the default offset, a section scroll and an anchor click on the same element aim at the same position |
| `ScrollHooks.DirectionStep` | src/hooks/useScrollEffects.ts:197-207 | the direction becomes down exactly when the page moved down past 100 px or was already down and did not move up; it becomes up exactly when the page moved up, or was already up and did not move down past 100 px; a known direction never becomes null; the last position becomes the current one |
| `ScrollHooks.NoDownNearTop` | src/hooks/useScrollEffects.ts:200 | scrolling that never goes past 100 px never reports down |
| `ScrollHooks.LastScrollYIsLatest` | src/hooks/useScrollEffects.ts:206 | after any non-empty run, the last position is the latest event's |
| `ScrollHooks.DirectionStaysKnown` | src/hooks/useScrollEffects.ts:200-204 | once a direction has been reported, it never returns to null |
| `ScrollHooks.OneExecutionPerWindow` | src/hooks/useScrollEffects.ts:226-231 | between two timer expiries at most one call gets through; none does while throttled; exactly one does if the gate was open and a call arrives |
| `ScrollHooks.Throttle.constructor` | src/hooks/useScrollEffects.ts:225 | the gate starts open |
| `ScrollHooks.Throttle.Invoke` | src/hooks/useScrollEffects.ts:227-230 | the call runs exactly when the gate was open, agrees with `Executions`, and leaves the gate closed |
| `ScrollHooks.Throttle.TimerFires` | src/hooks/useScrollEffects.ts:230 | the timer reopens the gate |
| `ScrollHooks.ScrollDirectionHook.constructor` | src/hooks/useScrollEffects.ts:193-194 | the direction starts null and the last position at 0, behind an open 100 ms throttle |
| `ScrollHooks.ScrollDirectionHook.OnScroll` | src/hooks/useScrollEffects.ts:197-210 | a scroll event is handled exactly when the throttle is open, and then the state advances by `DirectionStep`; a dropped event changes nothing but the throttle |
| `ScrollHooks.ScrollDirectionHook.OnThrottleTimer` | src/hooks/useScrollEffects.ts:230 | the timer reopens the throttle and leaves the direction state unchanged |
| `HeaderComponent.NavItems` | src/components/Header.tsx:58-63 | four entries, each naming a different one of the four section ids |
| `HeaderComponent.Header.constructor` | src/components/Header.tsx:7-8 | the header starts unscrolled with the menu closed |
| `HeaderComponent.Header.OnScroll` | src/components/Header.tsx:10-13 | after a scroll event, `isScrolled` holds exactly when `scrollY` is above 50, and the menu is untouched |
| `HeaderComponent.Header.ToggleMobileMenu` | src/components/Header.tsx:95 | the menu button flips the menu and nothing else |
| `HeaderComponent.Header.ScrollToSection` | src/components/Header.tsx:19-25 | it scrolls exactly when the element exists, and then closes the menu; for a missing id the menu is unchanged |
| `HeaderComponent.Header.ClickNavItem` | src/components/Header.tsx:111-116 | the entry scrolls to the section its own id names, exactly as `scrollToSection` with that id, and closes the menu when it scrolls; on a page with all four sections every entry scrolls |
| `HeaderComponent.Header.JoinUs` | src/components/Header.tsx:84 | the "Join Us" button scrolls to the contact section's offset exactly when that section exists, and then closes the menu |
| `HeaderComponent.ToggleTwiceRestores` | src/components/Header.tsx:95 | pressing the menu button twice leaves the menu as it was |
| `HeaderComponent.ScrollDownAndBack` | src/components/Header.tsx:12 | `isScrolled` reflects only the latest scroll event: scrolling past 50 px and back leaves the header transparent |

## Left out

- Rendering and framer-motion internals are not modelled: JSX, Tailwind
  classes, `useScroll`, how `useTransform` interpolates and clamps, and the
  `useSpring` physics. The model keeps the tables and ranges the code hands
  to the library.
- Browser lifecycle is not modelled:
  - `IntersectionObserver` registration and `unobserve`;
  - effects re-subscribing when their dependencies change;
  - the `combinedRef` merging in `ScrollRevealSection`.

  Each callback is one sequential method call. Whether an element was bound
  is a constructor argument.
- `IntersectionObserver.VisibilityObserver.OnIntersection` and
  `IntersectionObserver.ScrollProgressTracker.OnIntersection` take the first
  entry of a callback's batch. Both hooks destructure `([entry])`
  (src/hooks/useIntersectionObserver.ts:27, 64), so any later entries for
  the same element in that batch are ignored, and the model never sees them.
- The `threshold` and `rootMargin` options are carried but not interpreted.
  Which callbacks the browser delivers for them is platform behaviour.
- `ScrollDirectionHook`: `useScrollDirection` re-registers its listener
  whenever `lastScrollY` changes, which creates a new throttle with an open
  gate. The model keeps one throttle for the hook's lifetime. It therefore
  models the throttle as written in `throttle`, not the extra events the
  re-registration lets through.
- `useScrollDirection` calls `React.useState` and `React.useEffect`, but
  `src/hooks/useScrollEffects.ts` never imports `React`
  (src/hooks/useScrollEffects.ts:1, 193). The model gives the intended
  logic and does not model module resolution.
- Host I/O becomes parameters and results. This covers `setTimeout`,
  `requestAnimationFrame`, `performance.now`, `window.scrollTo`,
  `scrollIntoView`, `window.scrollY`, `window.innerHeight`,
  `window.pageYOffset` and `getElementById`. Frame timestamps, scroll
  positions and the document are inputs. Scroll targets are returned, not
  performed.
- `useScrollBehavior` and `useSmoothScroll` inject CSS `<style>` blocks and
  hold no logic, so they are not modelled.
- Numbers are exact reals. IEEE-754 rounding is not modelled; for example,
  `1 - 0.5 * 0.7` is exactly 0.65 here.
- `IntersectionObserver.RawProgress` requires `top != 0 || height != 0`.
  That is the only input where the source divides 0 by 0 and stores NaN
  (src/hooks/useIntersectionObserver.ts:78). `ScrollProgressTracker.OnIntersection`
  demands the same of intersecting callbacks. No "height 0 gives 0" rule
  is added, because the code has none.
- `ScrollHooks.SmoothScrollTo` requires a positive duration. A zero
  duration would divide by zero. The only caller passes 800 ms.
- The `delay` prop of `ScrollReveal` only feeds a motion `transition` on a
  scroll-linked element, so it is not modelled.
- The `default` arms of `getInitialValues`, `getInitialTransform`,
  `getAnimateTransform` and `getAnimationValues` cannot be reached through
  the typed props. They are not modelled. Each repeats a listed case.
- `HeaderComponent.Header.ClickNavItem` takes the entry by index, so it
  requires an index below four.
- These files are not part of this model, because they are decorative or
  static content:
  - `Scene3D.tsx` (three.js);
  - `ScrollProgress.tsx` (spring and SVG);
  - the section components, `Index.tsx` and `NotFound.tsx`.
