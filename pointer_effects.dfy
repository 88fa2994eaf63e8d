/**
 * The two pointer-following effects of the interaction kit: the magnetic
 * button, which moves towards the pointer, and the tilt card, which rotates
 * towards it. Each mouse-move sets a target from the pointer position and the
 * element's bounding box; mouse-leave sets the target back to 0. The springs
 * that animate towards the targets belong to the animation library and are
 * not modelled: the model is the target values.
 */
module PointerEffects {
  import opened Dom
  import opened Wrappers

  /** The share of the pointer's distance from the centre the magnetic button moves by. */
  const Pull: real := 0.3

  /** The tilt card's default `intensity`, in degrees. */
  const DefaultIntensity: real := 15.0

  datatype Offset = Offset(x: real, y: real)

  datatype Rotation = Rotation(rotateX: real, rotateY: real)

  /**
   * The magnetic button's target offset for a pointer at
   * `(clientX, clientY)`: the button's centre closes 30% of its distance to
   * the pointer on each axis, so 70% of the distance remains.
   */
  function MagneticTarget(rect: Rect, clientX: real, clientY: real): (o: Offset)
    ensures clientX - (rect.CenterX() + o.x) == (1.0 - Pull) * (clientX - rect.CenterX())
    ensures clientY - (rect.CenterY() + o.y) == (1.0 - Pull) * (clientY - rect.CenterY())
    ensures o == Offset(0.0, 0.0) <==> clientX == rect.CenterX() && clientY == rect.CenterY()
  {
    var centerX := rect.left + rect.width / 2.0;
    var centerY := rect.top + rect.height / 2.0;
    Offset((clientX - centerX) * Pull, (clientY - centerY) * Pull)
  }

  /** While the pointer is over the button, the offset stays within 30% of half its size. */
  lemma MagneticBounded(rect: Rect, clientX: real, clientY: real)
    requires rect.width >= 0.0 && rect.height >= 0.0 && rect.Contains(clientX, clientY)
    ensures var o := MagneticTarget(rect, clientX, clientY);
      -Pull * rect.width / 2.0 <= o.x <= Pull * rect.width / 2.0 &&
      -Pull * rect.height / 2.0 <= o.y <= Pull * rect.height / 2.0
  {
  }

  /**
   * The tilt card's target rotation: the horizontal distance from the centre
   * as a share of the width turns the card about its vertical axis, the
   * vertical share (negated) about its horizontal axis, both scaled by
   * `intensity` degrees.
   */
  function TiltTarget(rect: Rect, clientX: real, clientY: real, intensity: real): Rotation
    requires rect.width > 0.0 && rect.height > 0.0
  {
    var mouseX := clientX - (rect.left + rect.width / 2.0);
    var mouseY := clientY - (rect.top + rect.height / 2.0);
    Rotation(-(mouseY / rect.height) * intensity, (mouseX / rect.width) * intensity)
  }

  /**
   * The card turns towards the pointer: for a positive intensity, a pointer
   * right of the centre gives a positive `rotateY`, one above the centre a
   * positive `rotateX`, and the centre no rotation at all.
   */
  lemma TiltFacesPointer(rect: Rect, clientX: real, clientY: real, intensity: real)
    requires rect.width > 0.0 && rect.height > 0.0 && intensity > 0.0
    ensures var r := TiltTarget(rect, clientX, clientY, intensity);
      (r.rotateY > 0.0 <==> clientX > rect.CenterX()) &&
      (r.rotateY == 0.0 <==> clientX == rect.CenterX()) &&
      (r.rotateX > 0.0 <==> clientY < rect.CenterY()) &&
      (r.rotateX == 0.0 <==> clientY == rect.CenterY())
  {
    var mouseX := clientX - rect.CenterX();
    var mouseY := clientY - rect.CenterY();
    SignOfScaledRatio(mouseX, rect.width, intensity);
    SignOfScaledRatio(mouseY, rect.height, intensity);
  }

  lemma SignOfScaledRatio(d: real, size: real, k: real)
    requires size > 0.0 && k > 0.0
    ensures (d / size) * k > 0.0 <==> d > 0.0
    ensures (d / size) * k < 0.0 <==> d < 0.0
    ensures (d / size) * k == 0.0 <==> d == 0.0
  {
    var q := d / size;
    assert q * size == d;
    if d > 0.0 {
      assert q > 0.0;
    } else if d < 0.0 {
      assert q < 0.0;
    } else {
      assert q == 0.0;
    }
  }

  /**
   * While the pointer is over the card, neither rotation exceeds half the
   * intensity: the pointer is at most half a side from the centre.
   */
  lemma TiltBounded(rect: Rect, clientX: real, clientY: real, intensity: real)
    requires rect.width > 0.0 && rect.height > 0.0 && intensity >= 0.0
    requires rect.Contains(clientX, clientY)
    ensures var r := TiltTarget(rect, clientX, clientY, intensity);
      -intensity / 2.0 <= r.rotateX <= intensity / 2.0 &&
      -intensity / 2.0 <= r.rotateY <= intensity / 2.0
  {
    HalfSideRatio(clientX - rect.CenterX(), rect.width, intensity);
    HalfSideRatio(clientY - rect.CenterY(), rect.height, intensity);
  }

  lemma HalfSideRatio(d: real, size: real, k: real)
    requires size > 0.0 && k >= 0.0 && -size / 2.0 <= d <= size / 2.0
    ensures -k / 2.0 <= (d / size) * k <= k / 2.0
  {
    var q := d / size;
    assert q * size == d;
    assert -0.5 <= q <= 0.5;
    assert -0.5 * k <= q * k <= 0.5 * k;
  }

  /** `MagneticButton`: the motion values `x` and `y` its springs follow. */
  class MagneticButton {
    var x: real
    var y: real

    constructor ()
      ensures x == 0.0 && y == 0.0
    {
      x, y := 0.0, 0.0;
    }

    /** `handleMouseMove`; `rect` is `None` while the element is not mounted. */
    method MouseMove(rect: Option<Rect>, clientX: real, clientY: real)
      modifies this
      ensures rect.None? ==> x == old(x) && y == old(y)
      ensures rect.Some? ==> Offset(x, y) == MagneticTarget(rect.value, clientX, clientY)
    {
      if rect.Some? {
        var o := MagneticTarget(rect.value, clientX, clientY);
        x, y := o.x, o.y;
      }
    }

    /** `handleMouseLeave`: back to rest, whatever the last pointer position was. */
    method MouseLeave()
      modifies this
      ensures x == 0.0 && y == 0.0
    {
      x, y := 0.0, 0.0;
    }
  }

  /** `TiltCard`: the `rotateX` and `rotateY` state its spring follows. */
  class TiltCard {
    const intensity: real
    var rotateX: real
    var rotateY: real

    constructor (intensity: real := DefaultIntensity)
      ensures this.intensity == intensity && rotateX == 0.0 && rotateY == 0.0
    {
      this.intensity := intensity;
      rotateX, rotateY := 0.0, 0.0;
    }

    /** `handleMouseMove`; `rect` is `None` while the element is not mounted. */
    method MouseMove(rect: Option<Rect>, clientX: real, clientY: real)
      requires rect.Some? ==> rect.value.width > 0.0 && rect.value.height > 0.0
      modifies this
      ensures rect.None? ==> rotateX == old(rotateX) && rotateY == old(rotateY)
      ensures rect.Some? ==>
        Rotation(rotateX, rotateY) == TiltTarget(rect.value, clientX, clientY, intensity)
    {
      if rect.Some? {
        var r := TiltTarget(rect.value, clientX, clientY, intensity);
        rotateY := r.rotateY;
        rotateX := r.rotateX;
      }
    }

    /** `handleMouseLeave`: no rotation, whatever the last pointer position was. */
    method MouseLeave()
      modifies this
      ensures rotateX == 0.0 && rotateY == 0.0
    {
      rotateX := 0.0;
      rotateY := 0.0;
    }
  }
}
