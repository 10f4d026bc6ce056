/** `PoseDetector` (pose_detector.py): the mutable record the twelve detectors step frame
    by frame, `reset`, and the exercise dispatch of `process_frame`. Each method follows
    the source statement by statement and is proved against the pure step function of
    `Machines`, `Holds` or `Sessions` that describes it. The MediaPipe model, drawing and
    the clock are outside: landmarks and angles come in as a `Frame`, the time as `now`. */
module Detector {
  import opened Wrappers
  import opened Geometry
  import opened Landmarks
  import opened Machines
  import opened Holds
  import opened Sessions

  class PoseDetector {
    var currentExercise: Option<string>
    var repCount: int
    var stage: Option<Stage>
    var formFeedback: string
    var plankStartTime: Option<real>
    var plankDuration: real
    var plankHoldActive: bool
    /** Exists in the source only between leaving a plank and coming back (or giving up). */
    var plankPauseTime: Option<real>
    /** Created by the first arm-circles frame in the source; absent and `None` behave alike. */
    var armCircleStage: Option<Stage>
    /** Created by the first wall-sit frame in the source; absent and `None` behave alike. */
    var wallSitStartTime: Option<real>
    var wallSitDuration: real

    function PlankFields(): PlankTimer
      reads this`plankStartTime, this`plankDuration, this`plankHoldActive, this`plankPauseTime
    {
      PlankTimer(plankStartTime, plankDuration, plankHoldActive, plankPauseTime)
    }

    function WallSitFields(): WallSitTimer
      reads this`wallSitStartTime, this`wallSitDuration
    {
      WallSitTimer(wallSitStartTime, wallSitDuration)
    }

    /** The whole state as a value. */
    function Snapshot(): Session
      reads this
    {
      Session(currentExercise, repCount, stage, formFeedback, PlankFields(), armCircleStage, WallSitFields())
    }

    ghost predicate Valid()
      reads this`plankStartTime, this`plankDuration, this`plankHoldActive, this`plankPauseTime
    {
      PlankValid(PlankFields())
    }

    /** `__init__` without the MediaPipe model and the hardware probe. */
    constructor ()
      ensures Valid() && Snapshot() == Initial
    {
      currentExercise := None;
      repCount := 0;
      stage := None;
      formFeedback := "";
      plankStartTime := None;
      plankDuration := 0.0;
      plankHoldActive := false;
      plankPauseTime := None;
      armCircleStage := None;
      wallSitStartTime := None;
      wallSitDuration := 0.0;
    }

    method DetectPushUp(f: Frame) returns (repComplete: bool, feedback: string)
      modifies this`stage, this`repCount
      ensures Step(stage, repComplete) == PushUpStep(old(stage), f)
      ensures repCount == old(repCount) + (if repComplete then 1 else 0)
      ensures feedback != ""
      // uneven arms change only the message, never the count
      ensures PushUpPosition(f) && Abs(f.angles.leftArm - f.angles.rightArm) > 20.0 ==> feedback == "KEEP ARMS EVEN"
    {
      var p := f.pose;
      var leftArmAngle, rightArmAngle := f.angles.leftArm, f.angles.rightArm;
      var avgArmAngle := (leftArmAngle + rightArmAngle) / 2.0;
      var bodyAngle := f.angles.leftBody;
      var isHorizontal := 160.0 < bodyAngle < 200.0;
      var shouldersHipsAligned := Abs(p.leftShoulder.y - p.leftHip.y) < 0.15;
      var wristsBelowShoulders := p.leftWrist.y > p.leftShoulder.y && p.rightWrist.y > p.rightShoulder.y;
      var isPlankPosition := isHorizontal && shouldersHipsAligned && wristsBelowShoulders;
      feedback := "GET IN PLANK POSITION";
      repComplete := false;
      if !isPlankPosition {
        return false, "Get in proper plank position - body straight, hands below shoulders";
      }
      if avgArmAngle > 160.0 {
        if stage == Some(Down) {
          repCount := repCount + 1;
          repComplete := true;
        }
        stage := Some(Up);
        feedback := "START PUSH UP";
      } else if avgArmAngle < 90.0 {
        stage := Some(Down);
        if avgArmAngle < 70.0 {
          feedback := "GO LOWER - CHEST TO GROUND";
        } else {
          feedback := "GOOD DEPTH";
        }
      }
      var armSymmetry := Abs(leftArmAngle - rightArmAngle);
      if armSymmetry > 20.0 {
        feedback := "KEEP ARMS EVEN";
      }
    }

    method DetectSquat(f: Frame) returns (repComplete: bool, feedback: string)
      modifies this`stage, this`repCount
      ensures Step(stage, repComplete) == SquatStep(old(stage), f)
      ensures repCount == old(repCount) + (if repComplete then 1 else 0)
      ensures feedback != ""
      // uneven knees block the frame and say so
      ensures !LegsEven(f) ==> feedback == "KEEP LEGS EVEN - BOTH KNEES SHOULD BEND TOGETHER"
    {
      var leftAngle, rightAngle := f.angles.leftLeg, f.angles.rightLeg;
      var avgAngle := (leftAngle + rightAngle) / 2.0;
      var legSymmetry := Abs(leftAngle - rightAngle);
      feedback := "GOOD FORM";
      repComplete := false;
      if legSymmetry > 30.0 {
        feedback := "KEEP LEGS EVEN - BOTH KNEES SHOULD BEND TOGETHER";
        return false, feedback;
      }
      if avgAngle > 160.0 {
        if stage == Some(Down) {
          repCount := repCount + 1;
          repComplete := true;
        }
        stage := Some(Up);
        feedback := "YOU ARE STANDING, SQUAD DOWN";
      } else if avgAngle < 100.0 {
        stage := Some(Down);
        if avgAngle < 80.0 {
          feedback := "PERFECT DEPTH! NOW GET BACK UP";
        } else {
          feedback := "GOOD SQUAT";
        }
      }
    }

    method DetectJumpingJack(f: Frame) returns (repComplete: bool, feedback: string)
      modifies this`stage, this`repCount
      ensures Step(stage, repComplete) == JumpingJackStep(old(stage), f)
      ensures repCount == old(repCount) + (if repComplete then 1 else 0)
      ensures feedback != ""
    {
      var p := f.pose;
      var leftArmRaised := p.leftWrist.y < p.leftShoulder.y;
      var rightArmRaised := p.rightWrist.y < p.rightShoulder.y;
      var armsRaised := leftArmRaised && rightArmRaised;
      var shoulderWidth := Abs(p.leftShoulder.x - p.rightShoulder.x);
      var legSpread := Abs(p.leftAnkle.x - p.rightAnkle.x);
      var legsSpread := legSpread > shoulderWidth * 1.5;
      var armSpread := Abs(p.leftWrist.x - p.rightWrist.x);
      var armsSpread := armSpread > shoulderWidth * 1.8;
      var isNeutral := !armsRaised && !legsSpread;
      feedback := "START IN NEUTRAL POSITION";
      repComplete := false;
      if stage == None {
        stage := Some(Init);
        return false, "Get ready - arms down, legs together";
      }
      if stage == Some(Init) {
        if isNeutral {
          stage := Some(Together);
          feedback := "READY - JUMP AND SPREAD!";
        } else {
          feedback := "START WITH ARMS DOWN & LEGS TOGETHER";
        }
      } else if stage == Some(Together) {
        if armsRaised && armsSpread && legsSpread {
          stage := Some(Apart);
          feedback := "GOOD SPREAD! NOW RETURN";
        } else if isNeutral {
          feedback := "JUMP! SPREAD ARMS & LEGS WIDER";
        } else {
          feedback := "SPREAD ARMS & LEGS WIDER";
        }
      } else if stage == Some(Apart) {
        if isNeutral {
          repCount := repCount + 1;
          repComplete := true;
          stage := Some(Together);
          feedback := "REP COMPLETE!";
        } else if !armsRaised {
          feedback := "BRING LEGS TOGETHER";
        } else if !legsSpread {
          feedback := "BRING ARMS DOWN";
        } else {
          feedback := "RETURN TO START POSITION";
        }
      }
    }

    method DetectSitUp(f: Frame) returns (repComplete: bool, feedback: string)
      modifies this`stage, this`repCount
      ensures Step(stage, repComplete) == SitUpStep(old(stage), f)
      ensures repCount == old(repCount) + (if repComplete then 1 else 0)
      ensures feedback != ""
    {
      var avgLegAngle := (f.angles.leftLeg + f.angles.rightLeg) / 2.0;
      var torsoAngle := f.angles.torso;
      feedback := "GET IN SIT-UP POSITION";
      repComplete := false;
      var legsBent := avgLegAngle < 95.0;
      if !legsBent {
        return false, "Bend knees to pyramid position (knees at <95\U{B0})";
      }
      if torsoAngle < 60.0 {
        if stage == Some(Down) {
          repCount := repCount + 1;
          repComplete := true;
        }
        stage := Some(Up);
        feedback := "SIT UP COMPLETE!";
      } else if torsoAngle > 100.0 {
        stage := Some(Down);
        if torsoAngle > 140.0 {
          feedback := "FULL RANGE - EXCELLENT!";
        } else {
          feedback := "GOOD RANGE OF MOTION";
        }
      }
    }

    method DetectLunge(f: Frame) returns (repComplete: bool, feedback: string)
      modifies this`stage, this`repCount
      ensures Step(stage, repComplete) == LungeStep(old(stage), f)
      ensures repCount == old(repCount) + (if repComplete then 1 else 0)
      ensures feedback != ""
    {
      var p := f.pose;
      var leftKneeAngle, rightKneeAngle := f.angles.leftLeg, f.angles.rightLeg;
      var ankleDistance := Abs(p.leftAnkle.x - p.rightAnkle.x);
      var shoulderWidth := Abs(p.leftShoulder.x - p.rightShoulder.x);
      var isSplitStance := ankleDistance > shoulderWidth * 1.5;
      var frontLegForward := Abs(p.leftAnkle.x - p.rightAnkle.x) > shoulderWidth * 1.2;
      feedback := "Step into a lunge - one leg forward, one back";
      repComplete := false;
      if !isSplitStance || !frontLegForward {
        return false, "Get into lunge position - step one leg forward";
      }
      var bothKneesBent := leftKneeAngle < 120.0 && rightKneeAngle < 120.0;
      var bothKneesStraight := leftKneeAngle > 160.0 && rightKneeAngle > 160.0;
      if stage == None {
        stage := Some(Standing);
        feedback := "Good stance! Now lower into lunge";
      }
      if stage == Some(Standing) && bothKneesBent {
        stage := Some(InLunge);
        feedback := "Good lunge! Hold it for a moment";
      } else if stage == Some(InLunge) && bothKneesStraight {
        repCount := repCount + 1;
        repComplete := true;
        stage := Some(Standing);
        feedback := "REP COMPLETE! Great work!";
      } else if stage == Some(InLunge) && !bothKneesBent {
        feedback := "Hold the lunge position";
      } else if stage == Some(Standing) && !bothKneesStraight {
        feedback := "Stand up fully between reps";
      }
      if bothKneesBent && isSplitStance {
        if leftKneeAngle < 90.0 || rightKneeAngle < 90.0 {
          feedback := "Perfect depth!";
        } else {
          feedback := "Good! Lower a bit more for full depth";
        }
      }
    }

    method DetectPlank(f: Frame, now: real) returns (repComplete: bool, feedback: string)
      requires Valid()
      modifies this`plankStartTime, this`plankDuration, this`plankHoldActive, this`plankPauseTime, this`repCount
      ensures Valid()
      ensures Hold(PlankFields(), repCount) == PlankStep(old(PlankFields()), old(repCount), PlankPosition(f), now)
      ensures !repComplete && feedback != ""
    {
      var p := f.pose;
      var bodyAngle := f.angles.leftBody;
      var avgArmAngle := (f.angles.leftArm + f.angles.rightArm) / 2.0;
      feedback := "GET IN PLANK POSITION";
      repComplete := false;
      var isBodyStraight := 160.0 < bodyAngle < 200.0;
      var isBodyHorizontal := Abs(p.leftShoulder.y - p.leftHip.y) < 0.15;
      var isFacingDown := p.leftShoulder.y < p.leftAnkle.y;
      var hasProperArms := 80.0 < avgArmAngle < 100.0;
      var wristsBelowShoulders := p.leftWrist.y > p.leftShoulder.y && p.rightWrist.y > p.rightShoulder.y;
      var isPlankPosition := isBodyStraight && isBodyHorizontal && isFacingDown && hasProperArms && wristsBelowShoulders;
      var currentTime := now;
      if isPlankPosition {
        if !plankHoldActive {
          if plankPauseTime.Some? {
            var pauseDuration := currentTime - plankPauseTime.value;
            if pauseDuration <= GraceSeconds {
              plankStartTime := Some(plankStartTime.value + pauseDuration);
              feedback := "WELCOME BACK! PLANK RESUMED";
              plankPauseTime := None;
            } else {
              plankStartTime := Some(currentTime);
              plankDuration := 0.0;
              repCount := 0;
              feedback := "REST TIME EXCEEDED - PLANK RESET!";
              plankPauseTime := None;
            }
          } else {
            if plankStartTime.None? {
              plankStartTime := Some(currentTime);
              plankDuration := 0.0;
            }
            feedback := "PLANK STARTED! HOLD IT!";
          }
          plankHoldActive := true;
        }
        plankDuration := currentTime - plankStartTime.value;
        repCount := Truncate(plankDuration);
        if plankDuration < 10.0 {
          feedback := "PLANK: KEEP GOING!";
        } else if plankDuration < 30.0 {
          feedback := "PLANK: GREAT HOLD!";
        } else if plankDuration < 60.0 {
          feedback := "PLANK: AMAZING ENDURANCE!";
        } else {
          feedback := "PLANK: LEGENDARY!";
        }
      } else {
        if plankHoldActive {
          plankHoldActive := false;
          plankPauseTime := Some(currentTime);
          feedback := "PLANK PAUSED - GET BACK IN 20s!";
        } else {
          if plankPauseTime.Some? {
            var restTime := currentTime - plankPauseTime.value;
            var timeRemaining := GraceSeconds - restTime;
            if timeRemaining > 0.0 {
              feedback := "RETURN TO PLANK!";
            } else {
              plankStartTime := None;
              plankDuration := 0.0;
              repCount := 0;
              feedback := "REST TIME EXCEEDED - PLANK RESET!";
              plankPauseTime := None;
            }
          } else {
            if !isBodyStraight {
              feedback := "KEEP BODY STRAIGHT - DON'T SAG OR ARCH";
            } else if !isBodyHorizontal {
              feedback := "ALIGN SHOULDERS WITH HIPS";
            } else if !hasProperArms {
              feedback := "FORM 90-DEGREE ANGLES WITH ARMS";
            } else if !isFacingDown {
              feedback := "FACE DOWN - HEAD IN NEUTRAL POSITION";
            } else {
              feedback := "GET IN PLANK POSITION - ARMS BENT, BODY STRAIGHT";
            }
          }
        }
      }
    }

    method DetectArmCircles(f: Frame) returns (repComplete: bool, feedback: string)
      modifies this`armCircleStage, this`repCount
      ensures Step(armCircleStage, repComplete) == ArmCirclesStep(old(armCircleStage), f)
      ensures repCount == old(repCount) + (if repComplete then 1 else 0)
      ensures feedback != ""
    {
      var p := f.pose;
      var leftArmAngle, rightArmAngle := f.angles.leftArm, f.angles.rightArm;
      var armsExtended := leftArmAngle > 140.0 && rightArmAngle > 140.0;
      feedback := "EXTEND YOUR ARMS OUT";
      repComplete := false;
      if !armsExtended {
        armCircleStage := None;
        return false, "EXTEND ARMS STRAIGHT OUT (like airplane wings)";
      }
      var shoulderHeight := (p.leftShoulder.y + p.rightShoulder.y) / 2.0;
      var avgWristHeight := (p.leftWrist.y + p.rightWrist.y) / 2.0;
      var wristsAboveShoulder := avgWristHeight < shoulderHeight - 0.05;
      var wristsBelowShoulder := avgWristHeight > shoulderHeight + 0.05;
      var wristsAtShoulder := !wristsAboveShoulder && !wristsBelowShoulder;
      if armCircleStage == None {
        if wristsAtShoulder {
          armCircleStage := Some(Middle);
          feedback := "GOOD! START ROTATING - MAKE BIG CIRCLES!";
        } else if wristsAboveShoulder {
          armCircleStage := Some(Up);
          feedback := "START FROM HERE - ROTATE ARMS!";
        } else if wristsBelowShoulder {
          armCircleStage := Some(Down);
          feedback := "START FROM HERE - ROTATE ARMS!";
        }
      } else if armCircleStage == Some(Middle) {
        if wristsAboveShoulder {
          armCircleStage := Some(Up);
          feedback := "ARMS UP! KEEP GOING!";
        } else if wristsBelowShoulder {
          armCircleStage := Some(Down);
          feedback := "ARMS DOWN! KEEP GOING!";
        }
      } else if armCircleStage == Some(Up) {
        if wristsBelowShoulder {
          armCircleStage := Some(Down);
          feedback := "HALFWAY! KEEP ROTATING!";
        } else if wristsAtShoulder {
          armCircleStage := Some(Middle);
        }
      } else if armCircleStage == Some(Down) {
        if wristsAboveShoulder {
          repCount := repCount + 1;
          repComplete := true;
          armCircleStage := Some(Up);
          feedback := "CIRCLE COMPLETE!";
        } else if wristsAtShoulder {
          armCircleStage := Some(Middle);
        }
      }
    }

    method DetectHighKnees(f: Frame) returns (repComplete: bool, feedback: string)
      modifies this`stage, this`repCount
      ensures Step(stage, repComplete) == HighKneesStep(old(stage), f)
      ensures repCount == old(repCount) + (if repComplete then 1 else 0)
      ensures feedback != ""
    {
      var p := f.pose;
      var hip, knee, kneeAngle;
      if p.leftHip.visibility >= p.rightHip.visibility {
        hip, knee, kneeAngle := p.leftHip, p.leftKnee, f.angles.leftLeg;
      } else {
        hip, knee, kneeAngle := p.rightHip, p.rightKnee, f.angles.rightLeg;
      }
      feedback := "STAND SIDEWAYS - DRIVE KNEES UP!";
      repComplete := false;
      var kneeAboveHip := knee.y < hip.y;
      var legIsUp := kneeAngle < 90.0 && kneeAboveHip;
      var legIsDown := kneeAngle > 150.0;
      if stage == None {
        stage := Some(Down);
        return false, "STAND SIDEWAYS - KNEES UP!";
      }
      if stage == Some(Down) {
        if legIsUp {
          stage := Some(Up);
          feedback := "KNEE UP! NOW SWITCH!";
        } else {
          feedback := "DRIVE THAT KNEE HIGHER!";
        }
      } else if stage == Some(Up) {
        if legIsDown {
          repCount := repCount + 1;
          repComplete := true;
          stage := Some(Down);
          feedback := "REP! KEEP RUNNING!";
        } else if !legIsUp {
          feedback := "SWITCH LEGS FAST!";
        }
      }
    }

    method DetectTricepDip(f: Frame) returns (repComplete: bool, feedback: string)
      modifies this`stage, this`repCount
      ensures Step(stage, repComplete) == TricepDipStep(old(stage), f)
      ensures repCount == old(repCount) + (if repComplete then 1 else 0)
      ensures feedback != ""
    {
      var p := f.pose;
      var avgArmAngle := (f.angles.leftArm + f.angles.rightArm) / 2.0;
      var avgWristX := (p.leftWrist.x + p.rightWrist.x) / 2.0;
      var avgHipX := p.leftHip.x;
      var elbowsBehind := avgWristX > avgHipX + 0.05;
      feedback := "SIT ON EDGE, HANDS BEHIND";
      repComplete := false;
      if !elbowsBehind {
        stage := None;
        return false, "Place hands behind you on chair/bench";
      }
      if avgArmAngle > 160.0 {
        if stage == Some(Down) {
          repCount := repCount + 1;
          repComplete := true;
        }
        stage := Some(Up);
        feedback := "LOWER DOWN";
      } else if avgArmAngle < 100.0 {
        stage := Some(Down);
        if avgArmAngle < 80.0 {
          feedback := "PERFECT DEPTH! Push up!";
        } else {
          feedback := "GOOD! Now push up!";
        }
      }
    }

    method DetectBurpee(f: Frame) returns (repComplete: bool, feedback: string)
      modifies this`stage, this`repCount
      ensures Step(stage, repComplete) == BurpeeStep(old(stage), f)
      ensures repCount == old(repCount) + (if repComplete then 1 else 0)
      ensures feedback != ""
    {
      var p := f.pose;
      var bodyAngle := f.angles.leftBody;
      var isStanding := bodyAngle > 160.0;
      var isPlank := 160.0 < bodyAngle < 200.0 && p.leftShoulder.y < p.leftAnkle.y;
      feedback := "START STANDING";
      repComplete := false;
      if stage == None {
        stage := Some(Standing);
      }
      if stage == Some(Standing) {
        if isPlank {
          stage := Some(InPlank);
          feedback := "IN PLANK! Now jump up!";
        } else {
          feedback := "Drop to plank position!";
        }
      } else if stage == Some(InPlank) {
        if isStanding {
          repCount := repCount + 1;
          repComplete := true;
          stage := Some(Standing);
          feedback := "BURPEE!";
        } else {
          feedback := "Jump back up to standing!";
        }
      }
    }

    method DetectLegRaise(f: Frame) returns (repComplete: bool, feedback: string)
      modifies this`stage, this`repCount
      ensures Step(stage, repComplete) == LegRaiseStep(old(stage), f)
      ensures repCount == old(repCount) + (if repComplete then 1 else 0)
      ensures feedback != ""
    {
      var p := f.pose;
      var avgShoulderY := (p.leftShoulder.y + p.rightShoulder.y) / 2.0;
      var avgHipY := (p.leftHip.y + p.rightHip.y) / 2.0;
      var avgLegStraightness := (f.angles.leftLeg + f.angles.rightLeg) / 2.0;
      var legsStraight := avgLegStraightness > 150.0;
      var hipFlexionAngle := f.angles.hipFlexion;
      feedback := "LIE FLAT - LEGS STRAIGHT";
      repComplete := false;
      if !legsStraight {
        stage := None;
        return false, "STRAIGHTEN LEGS - NO KNEE TUCKS!";
      }
      var isLying := Abs(avgShoulderY - avgHipY) < 0.35;
      if !isLying {
        stage := None;
        return false, "LIE FLAT ON YOUR BACK";
      }
      if stage == None {
        if hipFlexionAngle > 150.0 {
          stage := Some(Down);
          feedback := "LEGS DOWN - READY TO RAISE!";
        } else {
          stage := Some(Unknown);
          feedback := "Lower legs to start position";
        }
      }
      if stage == Some(Down) {
        if hipFlexionAngle > 175.0 {
          feedback := "DON'T REST - HOVER HEELS!";
        }
        if hipFlexionAngle < 105.0 {
          stage := Some(Up);
          feedback := "PERFECT L-SHAPE! NOW LOWER SLOWLY";
        } else {
          feedback := "RAISE LEGS TO 90\U{B0} (L-SHAPE)";
        }
      } else if stage == Some(Up) {
        if hipFlexionAngle > 150.0 {
          repCount := repCount + 1;
          repComplete := true;
          stage := Some(Down);
          feedback := "REP COMPLETE! GREAT CONTROL!";
        } else {
          feedback := "LOWER SLOWLY - CONTROL THE ECCENTRIC";
        }
      } else if stage == Some(Unknown) {
        if hipFlexionAngle > 150.0 {
          stage := Some(Down);
          feedback := "GOOD START - NOW RAISE LEGS!";
        } else {
          feedback := "Lower legs to floor to begin";
        }
      }
    }

    method DetectWallSit(f: Frame, now: real) returns (repComplete: bool, feedback: string)
      modifies this`wallSitStartTime, this`wallSitDuration, this`repCount
      ensures Hold(WallSitFields(), repCount) == WallSitStep(old(WallSitFields()), old(repCount), WallSitPosition(f), now)
      ensures !repComplete && feedback != ""
    {
      var p := f.pose;
      var legAngle := f.angles.leftLeg;
      var isSitting := 80.0 < legAngle < 110.0;
      var isUpright := Abs(p.leftShoulder.x - p.leftHip.x) < 0.1;
      feedback := "GET INTO WALL SIT POSITION";
      repComplete := false;
      var isWallSit := isSitting && isUpright;
      if !isWallSit {
        if !isUpright {
          feedback := "LEAN BACK AGAINST WALL";
        } else if !isSitting {
          if legAngle > 110.0 {
            feedback := "SLIDE DOWN - KNEES AT 90\U{B0}";
          } else {
            feedback := "LIFT UP SLIGHTLY - 90\U{B0} ANGLE";
          }
        }
        wallSitStartTime := None;
        return false, feedback;
      }
      var currentTime := now;
      if wallSitStartTime.None? {
        wallSitStartTime := Some(currentTime);
        wallSitDuration := 0.0;
      }
      wallSitDuration := currentTime - wallSitStartTime.value;
      repCount := Truncate(wallSitDuration);
      if wallSitDuration < 10.0 {
        feedback := "HOLD IT!";
      } else if wallSitDuration < 30.0 {
        feedback := "STRONG!";
      } else {
        feedback := "AMAZING!";
      }
    }

    /** Runs the detector of `e` on one frame. */
    method RunDetector(e: Exercise, f: Frame, now: real) returns (repComplete: bool, feedback: string)
      requires Valid()
      modifies this
      ensures Valid()
      ensures (Snapshot(), repComplete) == Detect(old(Snapshot()), e, f, now)
      ensures feedback != ""
    {
      match e {
        case PushUp => repComplete, feedback := DetectPushUp(f);
        case Squat => repComplete, feedback := DetectSquat(f);
        case JumpingJack => repComplete, feedback := DetectJumpingJack(f);
        case SitUp => repComplete, feedback := DetectSitUp(f);
        case Lunge => repComplete, feedback := DetectLunge(f);
        case Plank => repComplete, feedback := DetectPlank(f, now);
        case ArmCircles => repComplete, feedback := DetectArmCircles(f);
        case WallSit => repComplete, feedback := DetectWallSit(f, now);
        case TricepDip => repComplete, feedback := DetectTricepDip(f);
        case Burpee => repComplete, feedback := DetectBurpee(f);
        case HighKnees => repComplete, feedback := DetectHighKnees(f);
        case LegRaise => repComplete, feedback := DetectLegRaise(f);
      }
    }

    /** The landmark part of `process_frame`: `frame` is `None` when no pose was found.
        The `exercise_type` chain is `ExerciseOf`; an identifier it does not know runs no
        detector. Returns `rep_complete`, the feedback and the cumulative `rep_count`. */
    method ProcessLandmarks(exerciseType: string, frame: Option<Frame>, now: real)
      returns (repComplete: bool, feedback: string, count: int)
      requires Valid()
      modifies this
      ensures Valid()
      ensures (Snapshot(), repComplete) == Process(old(Snapshot()), exerciseType, frame, now)
      ensures count == repCount
      ensures frame.None? || ExerciseOf(exerciseType).None? ==> feedback == ""
      ensures frame.Some? && ExerciseOf(exerciseType).Some? ==> feedback != ""
    {
      repComplete := false;
      feedback := "";
      var exercise := ExerciseOf(exerciseType);
      if frame.Some? && exercise.Some? {
        repComplete, feedback := RunDetector(exercise.value, frame.value, now);
      }
      count := repCount;
    }

    /** `reset`. */
    method Reset()
      requires Valid()
      modifies this`repCount, this`stage, this`formFeedback, this`plankStartTime,
               this`plankDuration, this`plankHoldActive, this`plankPauseTime
      ensures Valid()
      ensures Snapshot() == Sessions.Reset(old(Snapshot()))
    {
      repCount := 0;
      stage := None;
      formFeedback := "";
      plankStartTime := None;
      plankDuration := 0.0;
      plankHoldActive := false;
      if plankPauseTime.Some? {
        plankPauseTime := None;
      }
      if currentExercise == Some("jumping-jack") {
        stage := Some(Init);
      } else if currentExercise == Some("plank") {
        stage := None;
      } else {
        stage := None;
      }
    }
  }
}
