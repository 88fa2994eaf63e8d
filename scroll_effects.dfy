/**
 * The scroll-driven parts of the interaction kit: the progress bar at the top
 * of the page and the direction table of the reveal-on-scroll wrapper.
 */
module ScrollEffects {

  /** An animation pose: visual property name to value (`{ opacity: 0, y: 60 }`). */
  type Props = map<string, real>

  /**
   * The scroll handler's `progress`: the scrolled distance as a percentage of
   * the scrollable distance `scrollHeight - innerHeight`. The code has no
   * guard for a page that fits the window (where it divides by zero) and no
   * clamp, so the model asks for a positive scrollable distance and clamps
   * nothing.
   */
  function Progress(scrollY: real, scrollHeight: real, innerHeight: real): real
    requires scrollHeight - innerHeight > 0.0
  {
    var totalHeight := scrollHeight - innerHeight;
    (scrollY / totalHeight) * 100.0
  }

  /** The bar's horizontal scale, `scrollProgress / 100`. */
  function ScaleX(progress: real): real {
    progress / 100.0
  }

  /**
   * The bar's scale is the scrolled share of the scrollable distance: 0 at
   * the top, 1 at the bottom, between the two in between, and growing with
   * the scroll position.
   */
  lemma ScaleXIsScrolledShare(scrollY: real, scrollHeight: real, innerHeight: real)
    requires scrollHeight - innerHeight > 0.0
    ensures ScaleX(Progress(scrollY, scrollHeight, innerHeight)) == scrollY / (scrollHeight - innerHeight)
    ensures scrollY == 0.0 ==> ScaleX(Progress(scrollY, scrollHeight, innerHeight)) == 0.0
    ensures scrollY == scrollHeight - innerHeight ==> ScaleX(Progress(scrollY, scrollHeight, innerHeight)) == 1.0
    ensures 0.0 <= scrollY <= scrollHeight - innerHeight ==>
      0.0 <= ScaleX(Progress(scrollY, scrollHeight, innerHeight)) <= 1.0
  {
    var total := scrollHeight - innerHeight;
    var q := scrollY / total;
    assert q * total == scrollY;
    assert ScaleX(q * 100.0) == q;
    if 0.0 <= scrollY <= total {
      assert 0.0 <= q <= 1.0;
    }
  }

  /** A position further down the page never gives a shorter bar. */
  lemma ScaleXMonotone(y1: real, y2: real, scrollHeight: real, innerHeight: real)
    requires scrollHeight - innerHeight > 0.0 && y1 <= y2
    ensures ScaleX(Progress(y1, scrollHeight, innerHeight)) <= ScaleX(Progress(y2, scrollHeight, innerHeight))
  {
    var total := scrollHeight - innerHeight;
    ScaleXIsScrolledShare(y1, scrollHeight, innerHeight);
    ScaleXIsScrolledShare(y2, scrollHeight, innerHeight);
    assert (y2 / total) - (y1 / total) == (y2 - y1) / total;
  }

  /**
   * Nothing clamps the bar: a position past the end of the scrollable
   * distance (an overscroll) gives a scale above 1, and one above the top a
   * negative scale.
   */
  lemma ScaleXNotClamped(scrollY: real, scrollHeight: real, innerHeight: real)
    requires scrollHeight - innerHeight > 0.0
    ensures scrollY > scrollHeight - innerHeight ==> ScaleX(Progress(scrollY, scrollHeight, innerHeight)) > 1.0
    ensures scrollY < 0.0 ==> ScaleX(Progress(scrollY, scrollHeight, innerHeight)) < 0.0
  {
    var total := scrollHeight - innerHeight;
    ScaleXIsScrolledShare(scrollY, scrollHeight, innerHeight);
    var q := scrollY / total;
    assert q * total == scrollY;
    if scrollY > total {
      RatioAboveOne(scrollY, total);
    }
  }

  lemma RatioAboveOne(a: real, b: real)
    requires b > 0.0 && a > b
    ensures a / b > 1.0
  {
    var q := a / b;
    assert q * b == a;
    assert (q - 1.0) * b == a - b;
    assert (q - 1.0) * b > 0.0;
  }

  /** `ScrollProgress`: the `scrollProgress` state (a percentage). */
  class ScrollProgress {
    var scrollProgress: real

    constructor ()
      ensures scrollProgress == 0.0
    {
      scrollProgress := 0.0;
    }

    /** The `scroll` listener. */
    method HandleScroll(scrollY: real, scrollHeight: real, innerHeight: real)
      requires scrollHeight - innerHeight > 0.0
      modifies this
      ensures scrollProgress == Progress(scrollY, scrollHeight, innerHeight)
      ensures ScaleX(scrollProgress) == scrollY / (scrollHeight - innerHeight)
    {
      ScaleXIsScrolledShare(scrollY, scrollHeight, innerHeight);
      scrollProgress := Progress(scrollY, scrollHeight, innerHeight);
    }
  }

  /** The reveal wrapper's default direction. */
  const DefaultDirection: string := "up"

  /** The reveal wrapper's target pose: fully visible, at its place. */
  const RevealTarget: Props := map["opacity" := 1.0, "x" := 0.0, "y" := 0.0]

  predicate KnownDirection(direction: string) {
    direction == "up" || direction == "down" || direction == "left" || direction == "right"
  }

  /**
   * `directions[direction]`: the starting displacement per direction; a
   * direction outside the table looks up `undefined`, which adds nothing.
   */
  function RevealOffset(direction: string): Props {
    if direction == "up" then map["y" := 60.0, "x" := 0.0]
    else if direction == "down" then map["y" := -60.0, "x" := 0.0]
    else if direction == "left" then map["x" := 60.0, "y" := 0.0]
    else if direction == "right" then map["x" := -60.0, "y" := 0.0]
    else map[]
  }

  /** The starting pose: invisible, displaced by the direction's offset. */
  function RevealInitial(direction: string := DefaultDirection): Props {
    map["opacity" := 0.0] + RevealOffset(direction)
  }

  /**
   * For a direction in the table the start and target poses name the same
   * properties, the element fades from 0 to 1, and it travels 60 pixels in
   * the named direction (screen y grows downwards): `up` moves it up,
   * `left` moves it left.
   */
  lemma RevealTravelsInDirection(direction: string)
    requires KnownDirection(direction)
    ensures RevealInitial(direction).Keys == RevealTarget.Keys
    ensures RevealInitial(direction)["opacity"] == 0.0 && RevealTarget["opacity"] == 1.0
    ensures var dx := RevealTarget["x"] - RevealInitial(direction)["x"];
      var dy := RevealTarget["y"] - RevealInitial(direction)["y"];
      (direction == "up" ==> dx == 0.0 && dy == -60.0) &&
      (direction == "down" ==> dx == 0.0 && dy == 60.0) &&
      (direction == "left" ==> dx == -60.0 && dy == 0.0) &&
      (direction == "right" ==> dx == 60.0 && dy == 0.0)
  {
  }

  /** Any other direction only fades in: the start pose sets no position. */
  lemma RevealUnknownOnlyFades(direction: string)
    requires !KnownDirection(direction)
    ensures RevealInitial(direction) == map["opacity" := 0.0]
  {
  }
}
