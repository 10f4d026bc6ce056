/** The repetition state machines of the `detect_*` methods (pose_detector.py), one pure
    step function per exercise. A step takes the stage the detector holds before the frame
    and the frame, and gives the stage after it and whether the frame completed a rep.
    The methods of `Detector.PoseDetector` are proved against these functions. */
module Machines {
  import opened Wrappers
  import opened Geometry
  import opened Landmarks

  /** The stage labels the source stores in `stage` and `arm_circle_stage`
      ("up", "down", "middle", "init", "together", "apart", "standing", "lunge",
      "plank", "unknown"). One label type is shared by all exercises, as in the source. */
  datatype Stage = Up | Down | Middle | Init | Together | Apart | Standing | InLunge | InPlank | Unknown

  /** The stage after a frame and whether that frame completed a rep. */
  datatype Step = Step(stage: Option<Stage>, counted: bool)

  /** The two-phase toggle shared by push-up, squat, sit-up and tricep-dip: the up
      threshold is tested first and counts only out of "down"; the down threshold only
      arms; in between nothing happens. */
  function Toggle(stage: Option<Stage>, up: bool, down: bool): Step
  {
    if up then Step(Some(Up), stage == Some(Down))
    else if down then Step(Some(Down), false)
    else Step(stage, false)
  }

  /** The cycle shared by jumping-jack, lunge, burpee, high-knees and leg-raise: from the
      rest stage the arming condition moves to the armed stage; from the armed stage the
      release condition counts a rep and returns to rest; any other stage stays. */
  function Cycle(stage: Option<Stage>, rest: Stage, armed: Stage, arm: bool, release: bool): Step
  {
    if stage == Some(rest) && arm then Step(Some(armed), false)
    else if stage == Some(armed) && release then Step(Some(rest), true)
    else Step(stage, false)
  }

  function Mean(a: real, b: real): real { (a + b) / 2.0 }

  // ---------------------------------------------------------------- push-up

  function AvgArm(f: Frame): real { Mean(f.angles.leftArm, f.angles.rightArm) }

  /** Body straight (160 < shoulder-hip-ankle < 200), shoulders within 0.15 of hip height
      and both wrists below their shoulders. */
  predicate PushUpPosition(f: Frame) {
    var p := f.pose;
    && 160.0 < f.angles.leftBody < 200.0
    && Abs(p.leftShoulder.y - p.leftHip.y) < 0.15
    && p.leftWrist.y > p.leftShoulder.y && p.rightWrist.y > p.rightShoulder.y
  }

  function PushUpStep(stage: Option<Stage>, f: Frame): (r: Step)
    ensures !PushUpPosition(f) ==> r == Step(stage, false)
    ensures r.counted <==> PushUpPosition(f) && stage == Some(Down) && AvgArm(f) > 160.0
    ensures PushUpPosition(f) && AvgArm(f) > 160.0 ==> r.stage == Some(Up)
    ensures PushUpPosition(f) && AvgArm(f) < 90.0 ==> r.stage == Some(Down)
    ensures 90.0 <= AvgArm(f) <= 160.0 ==> r == Step(stage, false)
  {
    if !PushUpPosition(f) then Step(stage, false)
    else Toggle(stage, AvgArm(f) > 160.0, AvgArm(f) < 90.0)
  }

  /** A frame that can arm the push-up machine (set "down"). */
  predicate PushUpArming(f: Frame) { PushUpPosition(f) && AvgArm(f) < 90.0 }

  // ---------------------------------------------------------------- squat

  function AvgKnee(f: Frame): real { Mean(f.angles.leftLeg, f.angles.rightLeg) }

  /** The two knee angles differ by at most 30 degrees. */
  predicate LegsEven(f: Frame) { Abs(f.angles.leftLeg - f.angles.rightLeg) <= 30.0 }

  function SquatStep(stage: Option<Stage>, f: Frame): (r: Step)
    ensures !LegsEven(f) ==> r == Step(stage, false)
    ensures r.counted <==> LegsEven(f) && stage == Some(Down) && AvgKnee(f) > 160.0
    ensures LegsEven(f) && AvgKnee(f) > 160.0 ==> r.stage == Some(Up)
    ensures LegsEven(f) && AvgKnee(f) < 100.0 ==> r.stage == Some(Down)
    ensures 100.0 <= AvgKnee(f) <= 160.0 ==> r == Step(stage, false)
  {
    if !LegsEven(f) then Step(stage, false)
    else Toggle(stage, AvgKnee(f) > 160.0, AvgKnee(f) < 100.0)
  }

  predicate SquatArming(f: Frame) { LegsEven(f) && AvgKnee(f) < 100.0 }

  // ---------------------------------------------------------------- sit-up

  /** Knees bent to the "pyramid" position: mean knee angle below 95. */
  predicate KneesBent(f: Frame) { AvgKnee(f) < 95.0 }

  function SitUpStep(stage: Option<Stage>, f: Frame): (r: Step)
    ensures !KneesBent(f) ==> r == Step(stage, false)
    ensures r.counted <==> KneesBent(f) && stage == Some(Down) && f.angles.torso < 60.0
    ensures KneesBent(f) && f.angles.torso < 60.0 ==> r.stage == Some(Up)
    ensures KneesBent(f) && f.angles.torso > 100.0 ==> r.stage == Some(Down)
    ensures 60.0 <= f.angles.torso <= 100.0 ==> r == Step(stage, false)
  {
    if !KneesBent(f) then Step(stage, false)
    else Toggle(stage, f.angles.torso < 60.0, f.angles.torso > 100.0)
  }

  predicate SitUpArming(f: Frame) { KneesBent(f) && f.angles.torso > 100.0 }

  // ---------------------------------------------------------------- tricep-dip

  /** The mean wrist x lies more than 0.05 beyond the left hip's x. */
  predicate HandsBehind(f: Frame) {
    Mean(f.pose.leftWrist.x, f.pose.rightWrist.x) > f.pose.leftHip.x + 0.05
  }

  function TricepDipStep(stage: Option<Stage>, f: Frame): (r: Step)
    ensures !HandsBehind(f) ==> r == Step(None, false)
    ensures r.counted <==> HandsBehind(f) && stage == Some(Down) && AvgArm(f) > 160.0
    ensures HandsBehind(f) && AvgArm(f) > 160.0 ==> r.stage == Some(Up)
    ensures HandsBehind(f) && AvgArm(f) < 100.0 ==> r.stage == Some(Down)
    ensures HandsBehind(f) && 100.0 <= AvgArm(f) <= 160.0 ==> r == Step(stage, false)
  {
    if !HandsBehind(f) then Step(None, false)
    else Toggle(stage, AvgArm(f) > 160.0, AvgArm(f) < 100.0)
  }

  predicate TricepDipArming(f: Frame) { HandsBehind(f) && AvgArm(f) < 100.0 }

  // ---------------------------------------------------------------- jumping-jack

  function ShoulderWidth(p: Pose): real { Abs(p.leftShoulder.x - p.rightShoulder.x) }

  predicate ArmsRaised(p: Pose) {
    p.leftWrist.y < p.leftShoulder.y && p.rightWrist.y < p.rightShoulder.y
  }

  predicate LegsSpread(p: Pose) {
    Abs(p.leftAnkle.x - p.rightAnkle.x) > ShoulderWidth(p) * 1.5
  }

  predicate ArmsSpread(p: Pose) {
    Abs(p.leftWrist.x - p.rightWrist.x) > ShoulderWidth(p) * 1.8
  }

  /** Arms not raised and legs not spread. */
  predicate Neutral(p: Pose) { !ArmsRaised(p) && !LegsSpread(p) }

  /** Arms raised, arms spread and legs spread. */
  predicate Open(p: Pose) { ArmsRaised(p) && ArmsSpread(p) && LegsSpread(p) }

  function JumpingJackStep(stage: Option<Stage>, f: Frame): (r: Step)
    ensures stage == None ==> r == Step(Some(Init), false)
    ensures stage == Some(Init) ==> !r.counted && r.stage == (if Neutral(f.pose) then Some(Together) else Some(Init))
    ensures stage == Some(Together) ==> !r.counted && r.stage == (if Open(f.pose) then Some(Apart) else Some(Together))
    ensures r.counted <==> stage == Some(Apart) && Neutral(f.pose)
    ensures stage == Some(Apart) ==> r.stage == (if Neutral(f.pose) then Some(Together) else Some(Apart))
  {
    if stage == None then Step(Some(Init), false)
    else if stage == Some(Init) then Step(if Neutral(f.pose) then Some(Together) else stage, false)
    else Cycle(stage, Together, Apart, Open(f.pose), Neutral(f.pose))
  }

  predicate JumpingJackArming(f: Frame) { Open(f.pose) }

  // ---------------------------------------------------------------- lunge

  function AnkleDistance(p: Pose): real { Abs(p.leftAnkle.x - p.rightAnkle.x) }

  /** Split stance: ankles farther apart than 1.5 and than 1.2 shoulder widths. */
  predicate LungeStance(f: Frame) {
    AnkleDistance(f.pose) > ShoulderWidth(f.pose) * 1.5
    && AnkleDistance(f.pose) > ShoulderWidth(f.pose) * 1.2
  }

  predicate BothKneesBent(f: Frame) { f.angles.leftLeg < 120.0 && f.angles.rightLeg < 120.0 }
  predicate BothKneesStraight(f: Frame) { f.angles.leftLeg > 160.0 && f.angles.rightLeg > 160.0 }

  function LungeStep(stage: Option<Stage>, f: Frame): (r: Step)
    ensures !LungeStance(f) ==> r == Step(stage, false)
    ensures r.counted <==> LungeStance(f) && stage == Some(InLunge) && BothKneesStraight(f)
    ensures LungeStance(f) && (stage == None || stage == Some(Standing)) ==>
              r.stage == (if BothKneesBent(f) then Some(InLunge) else Some(Standing))
    ensures LungeStance(f) && stage == Some(InLunge) ==>
              r.stage == (if BothKneesStraight(f) then Some(Standing) else Some(InLunge))
    // a stage left behind by another exercise is kept
    ensures stage.Some? && stage.value != Standing && stage.value != InLunge ==> r == Step(stage, false)
  {
    if !LungeStance(f) then Step(stage, false)
    else Cycle(if stage == None then Some(Standing) else stage, Standing, InLunge,
               BothKneesBent(f), BothKneesStraight(f))
  }

  predicate LungeArming(f: Frame) { LungeStance(f) && BothKneesBent(f) }

  /** The 1.2-shoulder-width test of the stance adds nothing: widths are never negative,
      so passing the 1.5 test passes it too. */
  lemma LungeStanceIsOneTest(f: Frame)
    ensures LungeStance(f) <==> AnkleDistance(f.pose) > ShoulderWidth(f.pose) * 1.5
  {
  }

  // ---------------------------------------------------------------- burpee

  predicate BurpeeStanding(f: Frame) { f.angles.leftBody > 160.0 }

  predicate BurpeePlank(f: Frame) {
    160.0 < f.angles.leftBody < 200.0 && f.pose.leftShoulder.y < f.pose.leftAnkle.y
  }

  function BurpeeStep(stage: Option<Stage>, f: Frame): (r: Step)
    ensures r.counted <==> stage == Some(InPlank) && BurpeeStanding(f)
    ensures stage == None || stage == Some(Standing) ==>
              r.stage == (if BurpeePlank(f) then Some(InPlank) else Some(Standing))
    ensures stage == Some(InPlank) ==>
              r.stage == (if BurpeeStanding(f) then Some(Standing) else Some(InPlank))
    ensures stage.Some? && stage.value != Standing && stage.value != InPlank ==> r == Step(stage, false)
  {
    Cycle(if stage == None then Some(Standing) else stage, Standing, InPlank,
          BurpeePlank(f), BurpeeStanding(f))
  }

  predicate BurpeeArming(f: Frame) { BurpeePlank(f) }

  // ---------------------------------------------------------------- high-knees

  /** The leg high-knees tracks: hip, knee and the hip-knee-ankle angle. */
  datatype Leg = Leg(hip: Landmark, knee: Landmark, angle: real)

  /** The left leg when the left hip is at least as visible as the right one. */
  function TrackedLeg(f: Frame): (leg: Leg)
    ensures f.pose.leftHip.visibility >= f.pose.rightHip.visibility ==>
              leg == Leg(f.pose.leftHip, f.pose.leftKnee, f.angles.leftLeg)
    ensures f.pose.leftHip.visibility < f.pose.rightHip.visibility ==>
              leg == Leg(f.pose.rightHip, f.pose.rightKnee, f.angles.rightLeg)
  {
    if f.pose.leftHip.visibility >= f.pose.rightHip.visibility
    then Leg(f.pose.leftHip, f.pose.leftKnee, f.angles.leftLeg)
    else Leg(f.pose.rightHip, f.pose.rightKnee, f.angles.rightLeg)
  }

  /** Knee angle below 90 with the knee above the hip. */
  predicate KneeUp(f: Frame) {
    var leg := TrackedLeg(f);
    leg.angle < 90.0 && leg.knee.y < leg.hip.y
  }

  predicate KneeDown(f: Frame) { TrackedLeg(f).angle > 150.0 }

  function HighKneesStep(stage: Option<Stage>, f: Frame): (r: Step)
    ensures stage == None ==> r == Step(Some(Down), false)
    ensures r.counted <==> stage == Some(Up) && KneeDown(f)
    ensures stage == Some(Down) ==> r.stage == (if KneeUp(f) then Some(Up) else Some(Down))
    ensures stage == Some(Up) ==> r.stage == (if KneeDown(f) then Some(Down) else Some(Up))
    ensures stage.Some? && stage.value != Down && stage.value != Up ==> r == Step(stage, false)
  {
    if stage == None then Step(Some(Down), false)
    else Cycle(stage, Down, Up, KneeUp(f), KneeDown(f))
  }

  predicate HighKneesArming(f: Frame) { KneeUp(f) }

  // ---------------------------------------------------------------- leg-raise

  /** Mean hip-knee-ankle angle above 150. */
  predicate LegsStraight(f: Frame) { AvgKnee(f) > 150.0 }

  /** Mean shoulder height within 0.35 of mean hip height. */
  predicate LyingFlat(f: Frame) {
    var p := f.pose;
    Abs(Mean(p.leftShoulder.y, p.rightShoulder.y) - Mean(p.leftHip.y, p.rightHip.y)) < 0.35
  }

  function LegRaiseStep(stage: Option<Stage>, f: Frame): (r: Step)
    ensures !(LegsStraight(f) && LyingFlat(f)) ==> r == Step(None, false)
    ensures r.counted <==> LegsStraight(f) && LyingFlat(f) && stage == Some(Up) && f.angles.hipFlexion > 150.0
    ensures LegsStraight(f) && LyingFlat(f) && stage == Some(Down) ==>
              r.stage == (if f.angles.hipFlexion < 105.0 then Some(Up) else Some(Down))
    ensures LegsStraight(f) && LyingFlat(f) && (stage == None || stage == Some(Unknown)) ==>
              r.stage == (if f.angles.hipFlexion > 150.0 then Some(Down) else Some(Unknown))
    ensures LegsStraight(f) && LyingFlat(f) && stage == Some(Up) ==>
              r.stage == (if f.angles.hipFlexion > 150.0 then Some(Down) else Some(Up))
    ensures (LegsStraight(f) && LyingFlat(f) && stage.Some? &&
             stage.value != Down && stage.value != Up && stage.value != Unknown) ==> r == Step(stage, false)
  {
    if !(LegsStraight(f) && LyingFlat(f)) then Step(None, false)
    else
      var h := f.angles.hipFlexion;
      var s := if stage == None then Some(if h > 150.0 then Down else Unknown) else stage;
      if s == Some(Unknown) then Step(if h > 150.0 then Some(Down) else s, false)
      else Cycle(s, Down, Up, h < 105.0, h > 150.0)
  }

  predicate LegRaiseArming(f: Frame) {
    LegsStraight(f) && LyingFlat(f) && f.angles.hipFlexion < 105.0
  }

  // ---------------------------------------------------------------- arm-circles

  predicate ArmsExtended(f: Frame) { f.angles.leftArm > 140.0 && f.angles.rightArm > 140.0 }

  /** Where the mean wrist height lies against the mean shoulder height: more than 0.05
      above is "up", more than 0.05 below is "down", otherwise "middle". */
  function WristPosition(p: Pose): (s: Stage)
    ensures s == Up || s == Down || s == Middle
  {
    var shoulder := Mean(p.leftShoulder.y, p.rightShoulder.y);
    var wrist := Mean(p.leftWrist.y, p.rightWrist.y);
    if wrist < shoulder - 0.05 then Up
    else if wrist > shoulder + 0.05 then Down
    else Middle
  }

  /** The values the arm-circle tracker itself writes. */
  predicate CircleStage(s: Stage) { s == Middle || s == Up || s == Down }

  /** Follows the wrists while the arms are extended (any unset or tracker value moves to
      the current wrist position); a rep is a move from below to above the shoulders.
      A value the tracker never writes is left alone. */
  function ArmCirclesStep(stage: Option<Stage>, f: Frame): (r: Step)
    ensures !ArmsExtended(f) ==> r == Step(None, false)
    ensures ArmsExtended(f) && (stage.None? || CircleStage(stage.value)) ==> r.stage == Some(WristPosition(f.pose))
    ensures ArmsExtended(f) && stage.Some? && !CircleStage(stage.value) ==> r == Step(stage, false)
    ensures r.counted <==> ArmsExtended(f) && stage == Some(Down) && WristPosition(f.pose) == Up
  {
    if !ArmsExtended(f) then Step(None, false)
    else if stage.Some? && !CircleStage(stage.value) then Step(stage, false)
    else Step(Some(WristPosition(f.pose)), stage == Some(Down) && WristPosition(f.pose) == Up)
  }

  predicate ArmCirclesArming(f: Frame) { ArmsExtended(f) && WristPosition(f.pose) == Down }
}
