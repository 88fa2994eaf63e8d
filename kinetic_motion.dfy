/**
 * The motion presets of the kit: easing curves, duration presets, variant
 * records for the animation library, and the three builders that compute
 * such records from parameters. Every member is a value; nothing changes.
 */
module KineticMotion {
  import opened Wrappers

  /** A cubic Bézier easing curve, `[x1, y1, x2, y2]`. */
  datatype Easing = CubicBezier(x1: real, y1: real, x2: real, y2: real)

  const KineticEasing: Easing := CubicBezier(0.22, 1.0, 0.36, 1.0)
  const SnapEasing: Easing := CubicBezier(0.86, 0.0, 0.07, 1.0)
  const BounceEasing: Easing := CubicBezier(0.68, -0.55, 0.265, 1.55)

  /** The duration presets, in seconds. */
  datatype DurationPresets = DurationPresets(instant: real, fast: real, base: real, slow: real)

  const Duration: DurationPresets := DurationPresets(0.1, 0.2, 0.3, 0.4)

  /** The presets are strictly increasing from `instant` to `slow`. */
  lemma DurationsIncrease()
    ensures 0.0 < Duration.instant < Duration.fast < Duration.base < Duration.slow
  {
  }

  /** An animation pose: visual property name to value (`{ opacity: 0, x: -60 }`). */
  type Props = map<string, real>

  datatype Transition = Transition(duration: real, ease: Easing)

  /** A variants record; a field the object literal does not have is `None`. */
  datatype Variants = Variants(
    initial: Option<Props>,
    animate: Option<Props>,
    exit: Option<Props>,
    transition: Option<Transition>)

  const SlideInLeft: Variants := Variants(
    Some(map["opacity" := 0.0, "x" := -60.0]),
    Some(map["opacity" := 1.0, "x" := 0.0]),
    Some(map["opacity" := 0.0, "x" := -60.0]),
    Some(Transition(Duration.base, SnapEasing)))

  const SlideInRight: Variants := Variants(
    Some(map["opacity" := 0.0, "x" := 60.0]),
    Some(map["opacity" := 1.0, "x" := 0.0]),
    Some(map["opacity" := 0.0, "x" := 60.0]),
    Some(Transition(Duration.base, SnapEasing)))

  const SlideUp: Variants := Variants(
    Some(map["opacity" := 0.0, "y" := 40.0]),
    Some(map["opacity" := 1.0, "y" := 0.0]),
    Some(map["opacity" := 0.0, "y" := 40.0]),
    Some(Transition(Duration.base, KineticEasing)))

  const PopIn: Variants := Variants(
    Some(map["opacity" := 0.0, "scale" := 0.9]),
    Some(map["opacity" := 1.0, "scale" := 1.0]),
    Some(map["opacity" := 0.0, "scale" := 0.9]),
    Some(Transition(Duration.fast, SnapEasing)))

  const PageTransition: Variants := Variants(
    Some(map["opacity" := 0.0]),
    Some(map["opacity" := 1.0]),
    Some(map["opacity" := 0.0]),
    Some(Transition(Duration.base, KineticEasing)))

  /**
   * Every entrance preset leaves the way it came in (exit pose equals start
   * pose), starts invisible and ends fully visible.
   */
  lemma PresetsExitWhereTheyStart()
    ensures forall v :: v in [SlideInLeft, SlideInRight, SlideUp, PopIn, PageTransition] ==>
      && v.initial.Some? && v.animate.Some? && v.initial == v.exit
      && "opacity" in v.initial.value && v.initial.value["opacity"] == 0.0
      && "opacity" in v.animate.value && v.animate.value["opacity"] == 1.0
  {
  }

  /** `{ animate: { transition: { staggerChildren, delayChildren } } }`. */
  datatype StaggerContainer = StaggerContainer(staggerChildren: real, delayChildren: real)

  const StaggerContainerPreset: StaggerContainer := StaggerContainer(0.08, 0.1)

  /** `createStaggerContainer`: a container record carrying the two delays it is given. */
  function CreateStaggerContainer(staggerDelay: real := 0.08, initialDelay: real := 0.1): (c: StaggerContainer)
    ensures c.staggerChildren == staggerDelay && c.delayChildren == initialDelay
  {
    StaggerContainer(staggerDelay, initialDelay)
  }

  /** With its defaults the builder gives the preset record: stagger 0.08 s, delay 0.1 s. */
  lemma DefaultStaggerIsPreset()
    ensures CreateStaggerContainer() == StaggerContainerPreset
  {
  }

  /** The axis of a slide: `y` for `up` and `down`, `x` for every other string. */
  function SlideAxis(direction: string): string {
    if direction == "up" || direction == "down" then "y" else "x"
  }

  /** The start offset of a slide: `+distance` for `right` and `down`, `-distance` otherwise. */
  function SlideValue(direction: string, distance: real): real {
    if direction == "right" || direction == "down" then distance else -distance
  }

  /** `createSlide`. */
  function CreateSlide(direction: string := "left", distance: real := 60.0, dur: real := Duration.base): (v: Variants)
    ensures v.initial.Some? && v.animate.Some? && v.exit.Some?
    ensures v.initial == v.exit
    ensures v.transition == Some(Transition(dur, SnapEasing))
  {
    var axis := SlideAxis(direction);
    var value := SlideValue(direction, distance);
    Variants(
      Some(map["opacity" := 0.0, axis := value]),
      Some(map["opacity" := 1.0, axis := 0.0]),
      Some(map["opacity" := 0.0, axis := value]),
      Some(Transition(dur, SnapEasing)))
  }

  /**
   * A slide animates opacity and exactly one axis, the same in all three
   * poses: `y` exactly for `up` and `down`, `x` for everything else.
   */
  lemma CreateSlideAxis(direction: string, distance: real, dur: real)
    ensures var v := CreateSlide(direction, distance, dur);
      && v.initial.value.Keys == v.animate.value.Keys == v.exit.value.Keys
      && |v.initial.value.Keys| == 2 && "opacity" in v.initial.value
      && ("y" in v.initial.value <==> direction == "up" || direction == "down")
      && ("x" in v.initial.value <==> direction != "up" && direction != "down")
  {
    var axis := SlideAxis(direction);
    assert CreateSlide(direction, distance, dur).initial.value.Keys == {"opacity", axis};
  }

  /**
   * A slide starts and ends `distance` away from its place, on the positive
   * side exactly for `right` and `down`, invisible; it animates to full
   * opacity at offset 0.
   */
  lemma CreateSlidePoses(direction: string, distance: real, dur: real)
    requires distance > 0.0
    ensures var v := CreateSlide(direction, distance, dur);
      var axis := SlideAxis(direction);
      && v.initial.value["opacity"] == 0.0
      && (v.initial.value[axis] == distance || v.initial.value[axis] == -distance)
      && (v.initial.value[axis] > 0.0 <==> direction == "right" || direction == "down")
      && v.animate.value["opacity"] == 1.0 && v.animate.value[axis] == 0.0
  {
  }

  /**
   * The left and right presets are what the builder gives with its defaults;
   * the slide-up preset is not the builder's `up`: it starts 40 below rather
   * than 60 above, and eases with the kinetic curve.
   */
  lemma PresetsAgreeWithCreateSlide()
    ensures SlideInLeft == CreateSlide("left")
    ensures SlideInRight == CreateSlide("right")
    ensures SlideUp.initial.value["y"] == 40.0 && CreateSlide("up").initial.value["y"] == -60.0
    ensures SlideUp.transition.value.ease == KineticEasing && CreateSlide("up").transition.value.ease == SnapEasing
    ensures SlideUp != CreateSlide("up")
  {
    assert SlideInLeft.initial == CreateSlide("left").initial;
    assert SlideInRight.initial == CreateSlide("right").initial;
    assert SlideUp.initial.value["y"] != CreateSlide("up").initial.value["y"];
  }

  /**
   * `withReducedMotion`, with the media query's answer (`prefers-reduced-motion:
   * reduce` in a browser window) as `reducedMotion`: every pose becomes the
   * target pose (`variants.animate || {}`); otherwise the record is returned
   * as it is.
   */
  function WithReducedMotion(variants: Variants, reducedMotion: bool): Variants {
    if reducedMotion then
      var still := variants.animate.GetOr(map[]);
      Variants(Some(still), Some(still), Some(still), None)
    else variants
  }

  /**
   * Under reduced motion nothing moves: start, target and exit pose are all
   * the original target pose (or empty), with no transition of its own;
   * otherwise the variants are unchanged. Applying the wrapper twice is the
   * same as applying it once.
   */
  lemma ReducedMotionIsStill(variants: Variants, reducedMotion: bool)
    ensures var r := WithReducedMotion(variants, reducedMotion);
      && (reducedMotion ==>
            && r.initial == r.animate == r.exit
            && r.animate == Some(if variants.animate.Some? then variants.animate.value else map[])
            && r.transition.None?)
      && (!reducedMotion ==> r == variants)
      && WithReducedMotion(r, reducedMotion) == r
  {
  }
}
