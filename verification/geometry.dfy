/** Angle geometry of `PoseDetector.calculate_angle` (pose_detector.py).

    The source takes the difference of two `atan2` bearings, converts it to degrees and
    folds it into [0, 180]. The bearings and the radian-to-degree conversion are floating
    point and are not modelled: the model starts from the signed bearing difference `d`
    in degrees. Since each `atan2` lies in [-180, 180], `d` lies in [-360, 360]. */
module Geometry {

  function Abs(x: real): (r: real)
    ensures 0.0 <= r && (r == x || r == -x)
  {
    if x < 0.0 then -x else x
  }

  /** The fold: take the magnitude and replace anything above 180 by 360 minus it. */
  function Fold(d: real): (r: real)
    requires -360.0 <= d <= 360.0
    ensures 0.0 <= r <= 180.0
    ensures r == Abs(d) || r == 360.0 - Abs(d)
  {
    var a := Abs(d);
    if a > 180.0 then 360.0 - a else a
  }

  /** Swapping the outer points negates the bearing difference, so
      `calculate_angle(a, b, c) == calculate_angle(c, b, a)`. */
  lemma FoldSymmetric(d: real)
    requires -360.0 <= d <= 360.0
    ensures Fold(-d) == Fold(d)
  {
  }

  /** A bearing difference that wrapped around by a full turn folds to the same angle,
      so the result does not depend on where `atan2` cuts the circle. */
  lemma FoldFullTurn(d: real)
    requires -360.0 <= d <= 0.0
    ensures Fold(d + 360.0) == Fold(d)
  {
  }

  /** A right angle reads 90 whichever way round the bearings are taken, a straight
      joint reads 180 and a folded-back one reads 0. */
  lemma FoldLandmarks()
    ensures Fold(90.0) == 90.0 && Fold(-90.0) == 90.0 && Fold(270.0) == 90.0 && Fold(-270.0) == 90.0
    ensures Fold(180.0) == 180.0 && Fold(-180.0) == 180.0
    ensures Fold(0.0) == 0.0 && Fold(360.0) == 0.0 && Fold(-360.0) == 0.0
  {
  }
}
