/**
 * The over-rotated pose a roll spins to before settling (script.js,
 * rollDice): each axis turns three or four extra full turns, clockwise or
 * counter-clockwise, past the target pose.
 */
module Spin {
  import opened Faces
  import opened Orientation

  /** A spin direction drawn as `Math.random() > 0.5 ? 1 : -1`. */
  predicate IsDirection(d: int) { d == 1 || d == -1 }

  /** A count of extra turns drawn as `3 + Math.floor(Math.random() * 2)`. */
  predicate IsExtraTurns(k: int) { k == 3 || k == 4 }

  /** The difference between a spun angle and its target: three or four whole turns either way. */
  predicate IsSpinOffset(d: int) { d == -1440 || d == -1080 || d == 1080 || d == 1440 }

  /** The final angle on one axis. */
  function SpunAngle(target: int, k: int, dir: int): (a: int)
    requires IsExtraTurns(k) && IsDirection(dir)
    ensures IsSpinOffset(a - target)
    ensures (a > target) <==> dir == 1
    ensures (a - target) % 360 == 0
  {
    target + k * 360 * dir
  }

  /** The final pose, `finalX` and `finalY`. */
  function SpunPose(target: Rotation, kX: int, dirX: int, kY: int, dirY: int): (r: Rotation)
    requires IsExtraTurns(kX) && IsDirection(dirX) && IsExtraTurns(kY) && IsDirection(dirY)
    ensures IsSpinOffset(r.x - target.x) && IsSpinOffset(r.y - target.y)
  {
    Rotation(SpunAngle(target.x, kX, dirX), SpunAngle(target.y, kY, dirY))
  }

  /** A pose whose angles are spin offsets past `target`. */
  predicate IsSpinOf(r: Rotation, target: Rotation)
  {
    IsSpinOffset(r.x - target.x) && IsSpinOffset(r.y - target.y)
  }

  /**
   * Snapping from the spun pose to the target pose at the end of the
   * animation changes the angles but not where any part of the cube points.
   */
  lemma {:induction false} SnapKeepsOrientation(final: Rotation, target: Rotation, p: Vec)
    requires IsQuarterPose(target) && IsSpinOf(final, target)
    ensures IsQuarterPose(final)
    ensures Turn(final, p) == Turn(target, p)
  {
    var nx := (final.x - target.x) / 360;
    var ny := (final.y - target.y) / 360;
    assert final == Rotation(target.x + 360 * nx, target.y + 360 * ny);
    TurnPeriodic(target, nx, ny, p);
  }

  /** The spun pose for value `v` also shows the side painted with `v`. */
  lemma SpunPoseShowsValue(v: int, kX: int, dirX: int, kY: int, dirY: int, f: Face)
    requires IsPip(v)
    requires IsExtraTurns(kX) && IsDirection(dirX) && IsExtraTurns(kY) && IsDirection(dirY)
    ensures IsQuarterPose(SpunPose(RotationForValue(v).value, kX, dirX, kY, dirY))
    ensures FacesViewer(SpunPose(RotationForValue(v).value, kX, dirX, kY, dirY), f) <==> FaceValue(f) == v
  {
    var target := RotationForValue(v).value;
    PoseShowsValue(v, f);
    SnapKeepsOrientation(SpunPose(target, kX, dirX, kY, dirY), target, Normal(f));
  }
}
