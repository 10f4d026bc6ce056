/** The per-frame input of the detectors: the named landmarks MediaPipe reports and the
    joint angles `calculate_angle` derives from them (pose_detector.py). */
module Landmarks {
  import opened Geometry

  /** One landmark: normalised image coordinates (y grows downwards) and a visibility score. */
  datatype Landmark = Landmark(x: real, y: real, visibility: real)

  /** The twelve landmarks the detectors read. */
  datatype Pose = Pose(
    leftShoulder: Landmark, rightShoulder: Landmark,
    leftElbow: Landmark, rightElbow: Landmark,
    leftWrist: Landmark, rightWrist: Landmark,
    leftHip: Landmark, rightHip: Landmark,
    leftKnee: Landmark, rightKnee: Landmark,
    leftAnkle: Landmark, rightAnkle: Landmark)

  /** The joint angles the detectors use, each `calculate_angle(a, b, c)` of the joints named:
      - leftArm / rightArm: shoulder, elbow, wrist;
      - leftLeg / rightLeg: hip, knee, ankle;
      - leftBody: left shoulder, left hip, left ankle;
      - torso: left shoulder, left hip, left knee;
      - hipFlexion: the averages of the two shoulders, the two hips and the two ankles. */
  datatype Angles = Angles(
    leftArm: real, rightArm: real,
    leftLeg: real, rightLeg: real,
    leftBody: real, torso: real, hipFlexion: real)

  /** What a detector receives for one frame. */
  datatype Frame = Frame(pose: Pose, angles: Angles)

  predicate InDegreeRange(d: real) { -360.0 <= d <= 360.0 }

  /** Builds the angles from the signed bearing differences `calculate_angle` computes
      before its fold (in degrees, in the same order as the fields of `Angles`). */
  function AnglesOf(turns: Angles): (a: Angles)
    requires InDegreeRange(turns.leftArm) && InDegreeRange(turns.rightArm)
    requires InDegreeRange(turns.leftLeg) && InDegreeRange(turns.rightLeg)
    requires InDegreeRange(turns.leftBody) && InDegreeRange(turns.torso) && InDegreeRange(turns.hipFlexion)
    ensures Folded(a)
  {
    Angles(Fold(turns.leftArm), Fold(turns.rightArm), Fold(turns.leftLeg), Fold(turns.rightLeg),
           Fold(turns.leftBody), Fold(turns.torso), Fold(turns.hipFlexion))
  }

  predicate InAngleRange(v: real) { 0.0 <= v <= 180.0 }

  /** Every angle lies in [0, 180], as `calculate_angle` guarantees. */
  predicate Folded(a: Angles) {
    InAngleRange(a.leftArm) && InAngleRange(a.rightArm) && InAngleRange(a.leftLeg)
    && InAngleRange(a.rightLeg) && InAngleRange(a.leftBody) && InAngleRange(a.torso)
    && InAngleRange(a.hipFlexion)
  }
}
