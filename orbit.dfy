/**
 * The scalar side of the orbit camera of the scatter widget: how the camera
 * distance (`translate`) follows the mouse wheel, how the orbit angles follow
 * a drag, and the point-size uniform derived from the distance.  The 4x4
 * matrices built from these scalars by vispy are not modelled; a model
 * matrix is represented by the two angles it is built from.
 */
module Orbit {

  /** Camera distance when the widget is created. */
  const InitialTranslate: real := 20.0

  /** The wheel never brings the camera closer than this. */
  const MinTranslate: real := 2.0

  /** Period of the animation timer, in seconds (60 ticks a second). */
  const TimerDt: real := 1.0 / 60.0

  /** Scale from a relative cursor displacement to degrees of rotation. */
  const DegreesPerDrag: real := 180.0

  /**
   * The model matrix rotate(theta, z-axis) . rotate(phi, y-axis), kept as its
   * two angles in degrees.  Rotation(0, 0) is the identity matrix.
   */
  datatype ModelMatrix = Rotation(theta: real, phi: real)

  /**
   * Camera distance after a wheel event: the distance shrinks by the vertical
   * wheel delta and is then clamped from below at MinTranslate.
   */
  function Zoom(translate: real, delta: real): (r: real)
    ensures r >= MinTranslate
    ensures r >= translate - delta
    ensures r == MinTranslate || r == translate - delta
  {
    if translate - delta > MinTranslate then translate - delta else MinTranslate
  }

  /** The point-size uniform: five divided by the camera distance. */
  function PointSize(translate: real): (u: real)
    requires translate >= MinTranslate
  {
    5.0 / translate
  }

  /**
   * At any legal distance the point-size uniform is positive, at most 2.5,
   * and shrinks exactly in inverse proportion to the distance.
   */
  lemma PointSizeBounds(translate: real)
    requires translate >= MinTranslate
    ensures 0.0 < PointSize(translate) <= 5.0 / 2.0
    ensures PointSize(translate) * translate == 5.0
  {
  }

  /**
   * One orbit angle after a drag step along one cursor axis: the displacement
   * from the previous cursor coordinate, divided by the new coordinate itself
   * (not by the viewport size), scaled to 180 degrees.
   */
  function DragTurn(angle: real, pos: int, prev: int): (r: real)
    requires pos != 0
  {
    angle + ((pos - prev) as real) / (pos as real) * DegreesPerDrag
  }

  /**
   * The turn of a drag step, times the new cursor coordinate, is the cursor
   * displacement times 180 degrees; the angle stays put exactly when the
   * cursor coordinate does.
   */
  lemma DragTurnSpec(angle: real, pos: int, prev: int)
    requires pos != 0
    ensures (DragTurn(angle, pos, prev) - angle) * (pos as real) == ((pos - prev) as real) * DegreesPerDrag
    ensures DragTurn(angle, pos, prev) == angle <==> pos == prev
  {
  }

  /** Camera distance after a sequence of wheel events, oldest first. */
  function Zooms(translate: real, deltas: seq<real>): (r: real)
    ensures deltas == [] ==> r == translate
    ensures deltas != [] ==> r >= MinTranslate
    decreases |deltas|
  {
    if deltas == [] then translate else Zooms(Zoom(translate, deltas[0]), deltas[1..])
  }

  /** Total wheel delta of a sequence of wheel events. */
  function Sum(deltas: seq<real>): (total: real)
    decreases |deltas|
  {
    if deltas == [] then 0.0 else deltas[0] + Sum(deltas[1..])
  }

  lemma {:induction false} SumNonNegative(deltas: seq<real>)
    requires forall i :: 0 <= i < |deltas| ==> deltas[i] >= 0.0
    ensures Sum(deltas) >= 0.0
    decreases |deltas|
  {
    if deltas != [] {
      assert forall i :: 0 <= i < |deltas[1..]| ==> deltas[1..][i] == deltas[i + 1];
      SumNonNegative(deltas[1..]);
    }
  }

  /**
   * Scrolling inwards only (every delta non-negative), the clamp acts once at
   * the end: the sequence of wheel events ends where one wheel event of the
   * total delta would, max(MinTranslate, translate - total).  In particular, scrolling inwards by at least
   * the remaining headroom lands exactly on MinTranslate, never below.
   */
  lemma {:induction false} ZoomsInward(translate: real, deltas: seq<real>)
    requires translate >= MinTranslate
    requires forall i :: 0 <= i < |deltas| ==> deltas[i] >= 0.0
    ensures Zooms(translate, deltas) == Zoom(translate, Sum(deltas))
    ensures Sum(deltas) >= translate - MinTranslate ==> Zooms(translate, deltas) == MinTranslate
    decreases |deltas|
  {
    if deltas != [] {
      var rest := deltas[1..];
      assert forall i :: 0 <= i < |rest| ==> rest[i] == deltas[i + 1];
      SumNonNegative(rest);
      ZoomsInward(Zoom(translate, deltas[0]), rest);
    }
  }

  /**
   * Scrolling outwards only (every delta non-positive), the clamp never acts:
   * the distance grows by exactly the total delta.
   */
  lemma {:induction false} ZoomsOutward(translate: real, deltas: seq<real>)
    requires translate >= MinTranslate
    requires forall i :: 0 <= i < |deltas| ==> deltas[i] <= 0.0
    ensures Zooms(translate, deltas) == translate - Sum(deltas)
    decreases |deltas|
  {
    if deltas != [] {
      var rest := deltas[1..];
      assert forall i :: 0 <= i < |rest| ==> rest[i] == deltas[i + 1];
      ZoomsOutward(Zoom(translate, deltas[0]), rest);
    }
  }

  /**
   * From the initial distance 20, three wheel events of delta 5 give the
   * distances 15, 10 and 5, with point sizes 1/3, 1/2 and 1.
   */
  lemma ScrollScenario()
    ensures Zooms(InitialTranslate, [5.0]) == 15.0
    ensures Zooms(InitialTranslate, [5.0, 5.0]) == 10.0
    ensures Zooms(InitialTranslate, [5.0, 5.0, 5.0]) == 5.0
    ensures PointSize(15.0) == 1.0 / 3.0 && PointSize(10.0) == 0.5 && PointSize(5.0) == 1.0
  {
    assert [5.0, 5.0][1..] == [5.0];
    assert [5.0, 5.0, 5.0][1..] == [5.0, 5.0];
  }
}
