/**
 * The hover-driven image effects: the RGB split (three tinted copies, two of
 * them pushed apart by the pointer's horizontal offset), the pixelated image
 * (pixelated until hovered) and the glitch image (channel flicker while
 * hovered). Each keeps one state field set by its pointer handlers; what it
 * renders is a function of that field. CSS filter strings are not modelled.
 */
module ImageEffects {
  import opened Dom
  import opened Wrappers

  /** The RGB split's default `intensity`, in pixels. */
  const DefaultRgbIntensity: real := 5.0

  /** The pixelated image's default `pixelSize`. */
  const DefaultPixelSize: real := 10.0

  /**
   * The RGB split's offset for a pointer at `clientX`: its distance from the
   * horizontal centre as a share of half the width, times `intensity`.
   */
  function SplitOffset(rect: Rect, clientX: real, intensity: real): real
    requires rect.width > 0.0
  {
    var x := clientX - rect.left;
    var centerX := rect.width / 2.0;
    ((x - centerX) / centerX) * intensity
  }

  /**
   * The offset is 0 at the centre, `-intensity` at the left edge and
   * `+intensity` at the right edge, and stays within `intensity` while the
   * pointer is over the image.
   */
  lemma SplitOffsetRange(rect: Rect, clientX: real, intensity: real)
    requires rect.width > 0.0
    ensures clientX == rect.CenterX() ==> SplitOffset(rect, clientX, intensity) == 0.0
    ensures clientX == rect.left ==> SplitOffset(rect, clientX, intensity) == -intensity
    ensures clientX == rect.left + rect.width ==> SplitOffset(rect, clientX, intensity) == intensity
    ensures intensity >= 0.0 && rect.left <= clientX <= rect.left + rect.width ==>
      -intensity <= SplitOffset(rect, clientX, intensity) <= intensity
  {
    var c := rect.width / 2.0;
    var d := clientX - rect.left - c;
    var q := d / c;
    assert q * c == d;
    if intensity >= 0.0 && rect.left <= clientX <= rect.left + rect.width {
      UnitRatio(d, c, intensity);
    }
  }

  lemma UnitRatio(d: real, c: real, k: real)
    requires c > 0.0 && k >= 0.0 && -c <= d <= c
    ensures -k <= (d / c) * k <= k
  {
    var q := d / c;
    assert q * c == d;
    assert -1.0 <= q <= 1.0;
    assert -1.0 * k <= q * k <= 1.0 * k;
  }

  /**
   * The horizontal target of each colour layer; `None` for a layer that is
   * a plain image and never moves.
   */
  datatype LayerTargets = LayerTargets(red: Option<real>, green: Option<real>, blue: Option<real>)

  /** The layers for a given offset: red at `-offset`, blue at `+offset`, green fixed. */
  function SplitLayers(offset: real): LayerTargets {
    LayerTargets(Some(-offset), None, Some(offset))
  }

  /**
   * The two moving layers sit symmetrically about the fixed green one, and
   * they line up with it exactly when the offset is 0.
   */
  lemma SplitLayersSymmetric(offset: real)
    ensures var l := SplitLayers(offset);
      && l.green.None? && l.red.Some? && l.blue.Some?
      && l.red.value + l.blue.value == 0.0
      && l.blue.value - l.red.value == 2.0 * offset
      && (l.red.value == 0.0 && l.blue.value == 0.0 <==> offset == 0.0)
  {
  }

  /** `SplitRGBImage`: its `offset` state. */
  class SplitRGBImage {
    const intensity: real
    var offset: real

    constructor (intensity: real := DefaultRgbIntensity)
      ensures this.intensity == intensity && offset == 0.0
    {
      this.intensity := intensity;
      offset := 0.0;
    }

    function Layers(): LayerTargets
      reads this
    {
      SplitLayers(offset)
    }

    method MouseMove(rect: Rect, clientX: real)
      requires rect.width > 0.0
      modifies this
      ensures offset == SplitOffset(rect, clientX, intensity)
    {
      var x := clientX - rect.left;
      var centerX := rect.width / 2.0;
      offset := ((x - centerX) / centerX) * intensity;
    }

    /** Mouse-leave: all three layers line up again. */
    method MouseLeave()
      modifies this
      ensures offset == 0.0 && Layers() == LayerTargets(Some(0.0), None, Some(0.0))
    {
      offset := 0.0;
    }
  }

  /** The SVG pixelation stage of the filter: tile size and dilation radius. */
  datatype Pixelate = Pixelate(tileSize: real, dilateRadius: real)

  /** An image filter: contrast, saturation and an optional pixelation stage. */
  datatype ImageFilter = ImageFilter(contrast: real, saturate: real, pixelate: Option<Pixelate>)

  /** The pixelated image's filter target for a given state. */
  function PixelatedFilter(isPixelated: bool, pixelSize: real): ImageFilter {
    ImageFilter(1.2, 1.5, if isPixelated then Some(Pixelate(pixelSize, pixelSize / 2.0)) else None)
  }

  /**
   * The pixelation stage is present exactly in the pixelated state, with
   * tiles of `pixelSize` dilated by half that; contrast and saturation are
   * the same in both states.
   */
  lemma PixelateExactlyWhenPixelated(isPixelated: bool, pixelSize: real)
    ensures var f := PixelatedFilter(isPixelated, pixelSize);
      && (f.pixelate.Some? <==> isPixelated)
      && (isPixelated ==> f.pixelate.value.dilateRadius * 2.0 == f.pixelate.value.tileSize == pixelSize)
      && f.contrast == PixelatedFilter(!isPixelated, pixelSize).contrast
      && f.saturate == PixelatedFilter(!isPixelated, pixelSize).saturate
  {
  }

  /** `PixelatedImage`: its `isPixelated` state. */
  class PixelatedImage {
    const pixelSize: real
    var isPixelated: bool

    constructor (pixelSize: real := DefaultPixelSize)
      ensures this.pixelSize == pixelSize && isPixelated
    {
      this.pixelSize := pixelSize;
      isPixelated := true;
    }

    function Filter(): ImageFilter
      reads this
    {
      PixelatedFilter(isPixelated, pixelSize)
    }

    method MouseEnter()
      modifies this
      ensures !isPixelated && Filter().pixelate.None?
    {
      isPixelated := false;
    }

    method MouseLeave()
      modifies this
      ensures isPixelated && Filter().pixelate.Some?
    {
      isPixelated := true;
    }
  }

  /**
   * An `animate` target as keyframe tracks per property (one value is a
   * plain target, an empty track leaves the property alone) and whether the
   * animation repeats for ever.
   */
  datatype Animate = Animate(opacity: seq<real>, x: seq<real>, grayscale: seq<real>, repeatForever: bool)

  const NoAnimation: Animate := Animate([], [], [], false)

  /** The targets of the glitch image's three layers. */
  datatype GlitchLayers = GlitchLayers(main: Animate, red: Animate, cyan: Animate)

  function GlitchImageLayers(isGlitching: bool): GlitchLayers {
    if isGlitching then
      GlitchLayers(
        Animate([], [0.0, -2.0, 2.0, -1.0, 1.0, 0.0], [0.0, 0.8, 0.0], true),
        Animate([0.0, 0.3, 0.0], [0.0, -5.0, 0.0], [], true),
        Animate([0.0, 0.3, 0.0], [0.0, 5.0, 0.0], [], true))
    else
      GlitchLayers(NoAnimation, Animate([0.0], [], [], false), Animate([0.0], [], [], false))
  }

  /** Every keyframe track starts and ends at 0, so each repetition joins the next seamlessly. */
  predicate Seamless(a: Animate) {
    && (a.opacity != [] ==> a.opacity[0] == 0.0 && a.opacity[|a.opacity| - 1] == 0.0)
    && (a.x != [] ==> a.x[0] == 0.0 && a.x[|a.x| - 1] == 0.0)
    && (a.grayscale != [] ==> a.grayscale[0] == 0.0 && a.grayscale[|a.grayscale| - 1] == 0.0)
  }

  /**
   * At rest both channel layers target opacity 0 and nothing repeats; while
   * glitching every layer loops over tracks that start and end at rest, and
   * the cyan layer jitters opposite to the red one.
   */
  lemma GlitchLayersAtRest(isGlitching: bool)
    ensures var l := GlitchImageLayers(isGlitching);
      && (!isGlitching ==>
            && l.red.opacity == [0.0] && l.cyan.opacity == [0.0]
            && l.main == NoAnimation
            && !l.red.repeatForever && !l.cyan.repeatForever)
      && (isGlitching ==>
            && Seamless(l.main) && Seamless(l.red) && Seamless(l.cyan)
            && l.main.repeatForever && l.red.repeatForever && l.cyan.repeatForever
            && l.red.opacity == l.cyan.opacity
            && |l.red.x| == |l.cyan.x|
            && forall i :: 0 <= i < |l.red.x| ==> l.cyan.x[i] == -l.red.x[i])
  {
  }

  /** `GlitchImage`: its `isGlitching` state. */
  class GlitchImage {
    var isGlitching: bool

    constructor ()
      ensures !isGlitching
    {
      isGlitching := false;
    }

    function Layers(): GlitchLayers
      reads this
    {
      GlitchImageLayers(isGlitching)
    }

    method MouseEnter()
      modifies this
      ensures isGlitching
    {
      isGlitching := true;
    }

    /** Mouse-leave: both channel layers fade to opacity 0. */
    method MouseLeave()
      modifies this
      ensures !isGlitching && Layers().red.opacity == [0.0] && Layers().cyan.opacity == [0.0]
    {
      isGlitching := false;
    }
  }
}
