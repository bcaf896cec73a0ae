/**
 * The die's face table and the orientation table (script.js, initDiceFaces
 * and getRotationForValue).
 */
module Faces {
  import opened Wrappers

  /** The six sides of a die cube. */
  datatype Face = Front | Back | Right | Left | Top | Bottom

  /** A cube pose as the two CSS angles `rotateX(x) rotateY(y)`, in degrees. */
  datatype Rotation = Rotation(x: int, y: int)

  predicate IsPip(v: int) { 1 <= v <= 6 }

  /** The pip count painted on each side (the `faceConfig` table). */
  function FaceValue(f: Face): (v: int)
    ensures IsPip(v)
  {
    match f
    case Front => 1
    case Back => 6
    case Right => 2
    case Left => 5
    case Top => 3
    case Bottom => 4
  }

  /** The side across the cube. */
  function Opposite(f: Face): (g: Face)
    ensures g != f
  {
    match f
    case Front => Back
    case Back => Front
    case Right => Left
    case Left => Right
    case Top => Bottom
    case Bottom => Top
  }

  /** Opposite sides of a standard die sum to seven, and facing is symmetric. */
  lemma OppositeFacesSumToSeven(f: Face)
    ensures FaceValue(f) + FaceValue(Opposite(f)) == 7
    ensures Opposite(Opposite(f)) == f
  {
  }

  /** Every pip count 1..6 is painted on exactly one side. */
  lemma FaceValueIsBijective(v: int)
    ensures IsPip(v) <==> exists f :: FaceValue(f) == v
    ensures forall f, g :: FaceValue(f) == v && FaceValue(g) == v ==> f == g
  {
    if IsPip(v) {
      var f := if v == 1 then Front else if v == 2 then Right else if v == 3 then Top
               else if v == 4 then Bottom else if v == 5 then Left else Back;
      assert FaceValue(f) == v;
    }
  }

  predicate IsRightAngle(a: int) { a == -90 || a == 0 || a == 90 || a == 180 }

  /**
   * The pose that turns the side showing `v` towards the viewer. The lookup
   * object has keys 1..6 only; any other key yields `undefined`, modelled as
   * `None`.
   */
  function RotationForValue(v: int): (r: Option<Rotation>)
    ensures r.Some? <==> IsPip(v)
    ensures r.Some? ==> IsRightAngle(r.value.x) && IsRightAngle(r.value.y)
    ensures r.Some? ==> r.value.x == 0 || r.value.y == 0
  {
    match v
    case 1 => Some(Rotation(0, 0))
    case 2 => Some(Rotation(0, -90))
    case 3 => Some(Rotation(-90, 0))
    case 4 => Some(Rotation(90, 0))
    case 5 => Some(Rotation(0, 90))
    case 6 => Some(Rotation(0, 180))
    case _ => None
  }

  /** Distinct values are shown by distinct poses. */
  lemma RotationForValueIsInjective(v: int, w: int)
    requires IsPip(v) && IsPip(w)
    ensures RotationForValue(v) == RotationForValue(w) ==> v == w
  {
  }
}
