/**
 * Which side of the cube faces the viewer under a CSS pose.
 *
 * Coordinates are CSS's: x to the right, y downwards, z out of the screen
 * towards the viewer. Each side's outward normal points to the side it is
 * named after. Only multiples of 90 degrees occur in the poses the game
 * settles on, so the rotations are exact integer quarter turns.
 */
module Orientation {
  import opened Wrappers
  import opened Faces

  datatype Vec = Vec(x: int, y: int, z: int)

  /** The direction towards the viewer. */
  const Viewer: Vec := Vec(0, 0, 1)

  function Normal(f: Face): Vec
  {
    match f
    case Front => Vec(0, 0, 1)
    case Back => Vec(0, 0, -1)
    case Right => Vec(1, 0, 0)
    case Left => Vec(-1, 0, 0)
    case Top => Vec(0, -1, 0)
    case Bottom => Vec(0, 1, 0)
  }

  predicate IsQuarterAngle(a: int) { a % 90 == 0 }

  predicate IsQuarterPose(r: Rotation) { IsQuarterAngle(r.x) && IsQuarterAngle(r.y) }

  /** The number of quarter turns, counter-clockwise, that angle `a` amounts to. */
  function QuarterTurns(a: int): (q: int)
    requires IsQuarterAngle(a)
    ensures 0 <= q < 4
    ensures a == 90 * (a / 90)
  {
    (a / 90) % 4
  }

  function CosQ(q: int): int requires 0 <= q < 4 { if q == 0 then 1 else if q == 2 then -1 else 0 }
  function SinQ(q: int): int requires 0 <= q < 4 { if q == 1 then 1 else if q == 3 then -1 else 0 }

  /** CSS `rotateX(a)` applied to a vector. */
  function RotateX(a: int, p: Vec): Vec
    requires IsQuarterAngle(a)
  {
    var c, s := CosQ(QuarterTurns(a)), SinQ(QuarterTurns(a));
    Vec(p.x, c * p.y - s * p.z, s * p.y + c * p.z)
  }

  /** CSS `rotateY(a)` applied to a vector. */
  function RotateY(a: int, p: Vec): Vec
    requires IsQuarterAngle(a)
  {
    var c, s := CosQ(QuarterTurns(a)), SinQ(QuarterTurns(a));
    Vec(c * p.x + s * p.z, p.y, -s * p.x + c * p.z)
  }

  /** `rotateX(x) rotateY(y)`: the right-hand rotation acts on the cube first. */
  function Turn(r: Rotation, p: Vec): Vec
    requires IsQuarterPose(r)
  {
    RotateX(r.x, RotateY(r.y, p))
  }

  predicate FacesViewer(r: Rotation, f: Face)
    requires IsQuarterPose(r)
  {
    Turn(r, Normal(f)) == Viewer
  }

  /**
   * The pose looked up for value `v` turns exactly the side painted with `v`
   * towards the viewer.
   */
  lemma {:induction false} PoseShowsValue(v: int, f: Face)
    requires IsPip(v)
    ensures IsQuarterPose(RotationForValue(v).value)
    ensures FacesViewer(RotationForValue(v).value, f) <==> FaceValue(f) == v
  {
  }

  /** Angles that differ by whole turns rotate alike. */
  lemma {:induction false} QuarterTurnsPeriodic(a: int, n: int)
    requires IsQuarterAngle(a)
    ensures IsQuarterAngle(a + 360 * n)
    ensures QuarterTurns(a + 360 * n) == QuarterTurns(a)
  {
  }

  /** Two poses whose angles differ by whole turns put every vector in the same place. */
  lemma TurnPeriodic(r: Rotation, nx: int, ny: int, p: Vec)
    requires IsQuarterPose(r)
    ensures IsQuarterPose(Rotation(r.x + 360 * nx, r.y + 360 * ny))
    ensures Turn(Rotation(r.x + 360 * nx, r.y + 360 * ny), p) == Turn(r, p)
  {
    QuarterTurnsPeriodic(r.x, nx);
    QuarterTurnsPeriodic(r.y, ny);
  }
}
