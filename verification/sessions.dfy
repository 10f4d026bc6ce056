/** The detector's whole state as a value, the exercise-id dispatch of `process_frame` and
    `reset` (pose_detector.py). `Detector.PoseDetector` keeps the same state in fields and
    is proved against `Detect`, `Process` and `Reset` below. */
module Sessions {
  import opened Wrappers
  import opened Landmarks
  import opened Machines
  import opened Holds

  /** The twelve exercises `process_frame` dispatches on. */
  datatype Exercise =
    | PushUp | Squat | JumpingJack | SitUp | Lunge | Plank
    | ArmCircles | WallSit | TricepDip | Burpee | HighKnees | LegRaise

  /** The identifier string of each exercise. */
  function IdOf(e: Exercise): string {
    match e
    case PushUp => "push-up"
    case Squat => "squat"
    case JumpingJack => "jumping-jack"
    case SitUp => "sit-up"
    case Lunge => "lunge"
    case Plank => "plank"
    case ArmCircles => "arm-circles"
    case WallSit => "wall-sit"
    case TricepDip => "tricep-dip"
    case Burpee => "burpee"
    case HighKnees => "high-knees"
    case LegRaise => "leg-raise"
  }

  /** The `if exercise_type == ...` chain: the exercise whose detector runs, if any. */
  function ExerciseOf(id: string): (r: Option<Exercise>)
    ensures r.Some? ==> IdOf(r.value) == id
  {
    if id == "push-up" then Some(PushUp)
    else if id == "squat" then Some(Squat)
    else if id == "jumping-jack" then Some(JumpingJack)
    else if id == "sit-up" then Some(SitUp)
    else if id == "lunge" then Some(Lunge)
    else if id == "plank" then Some(Plank)
    else if id == "arm-circles" then Some(ArmCircles)
    else if id == "wall-sit" then Some(WallSit)
    else if id == "tricep-dip" then Some(TricepDip)
    else if id == "burpee" then Some(Burpee)
    else if id == "high-knees" then Some(HighKnees)
    else if id == "leg-raise" then Some(LegRaise)
    else None
  }

  /** Every exercise is reached by its own identifier, so no branch of the chain is
      shadowed and each identifier selects exactly one detector. */
  lemma DispatchRoundTrip(e: Exercise)
    ensures ExerciseOf(IdOf(e)) == Some(e)
  {
  }

  /** Everything the detector object holds between frames. */
  datatype Session = Session(
    currentExercise: Option<string>,
    repCount: int,
    stage: Option<Stage>,
    formFeedback: string,
    plank: PlankTimer,
    armCircleStage: Option<Stage>,
    wallSit: WallSitTimer)

  /** The object invariant: only the plank fields are constrained. */
  predicate Valid(s: Session) { PlankValid(s.plank) }

  /** The state right after construction: nothing counted, no exercise selected, the
      optional attributes absent. */
  const Initial := Session(None, 0, None, "", PlankCleared, None, WallSitTimer(None, 0.0))

  /** The state machine of a rep exercise applied to `stage` and `rep_count`. */
  function Counted(s: Session, st: Step): Session {
    s.(stage := st.stage, repCount := s.repCount + if st.counted then 1 else 0)
  }

  /** One call of the detector of `e`: the new state and `rep_complete`. */
  function Detect(s: Session, e: Exercise, f: Frame, now: real): (r: (Session, bool))
    requires Valid(s)
    ensures Valid(r.0)
    ensures r.0.currentExercise == s.currentExercise && r.0.formFeedback == s.formFeedback
    // only the two timed exercises can lower the count, and they never report a rep
    ensures e != Plank && e != WallSit ==> r.0.repCount == s.repCount + (if r.1 then 1 else 0)
    ensures e == Plank || e == WallSit ==> !r.1
  {
    match e
    case PushUp => var st := PushUpStep(s.stage, f); (Counted(s, st), st.counted)
    case Squat => var st := SquatStep(s.stage, f); (Counted(s, st), st.counted)
    case JumpingJack => var st := JumpingJackStep(s.stage, f); (Counted(s, st), st.counted)
    case SitUp => var st := SitUpStep(s.stage, f); (Counted(s, st), st.counted)
    case Lunge => var st := LungeStep(s.stage, f); (Counted(s, st), st.counted)
    case TricepDip => var st := TricepDipStep(s.stage, f); (Counted(s, st), st.counted)
    case Burpee => var st := BurpeeStep(s.stage, f); (Counted(s, st), st.counted)
    case HighKnees => var st := HighKneesStep(s.stage, f); (Counted(s, st), st.counted)
    case LegRaise => var st := LegRaiseStep(s.stage, f); (Counted(s, st), st.counted)
    case ArmCircles =>
      var st := ArmCirclesStep(s.armCircleStage, f);
      (s.(armCircleStage := st.stage, repCount := s.repCount + if st.counted then 1 else 0), st.counted)
    case Plank =>
      var h := PlankStep(s.plank, s.repCount, PlankPosition(f), now);
      (s.(plank := h.timer, repCount := h.repCount), false)
    case WallSit =>
      var h := WallSitStep(s.wallSit, s.repCount, WallSitPosition(f), now);
      (s.(wallSit := h.timer, repCount := h.repCount), false)
  }

  /** The dispatch of `process_frame` once the landmarks are in: `frame` is `None` when no
      pose was found. An unknown identifier, like a missing pose, changes nothing and
      reports no rep. */
  function Process(s: Session, id: string, frame: Option<Frame>, now: real): (r: (Session, bool))
    requires Valid(s)
    ensures Valid(r.0)
    ensures frame.None? || ExerciseOf(id).None? ==> r == (s, false)
    ensures frame.Some? && ExerciseOf(id).Some? ==> r == Detect(s, ExerciseOf(id).value, frame.value, now)
  {
    match (frame, ExerciseOf(id))
    case (Some(f), Some(e)) => Detect(s, e, f, now)
    case _ => (s, false)
  }

  /** `reset`: clears the count and the plank fields and removes the pause; the stage
      becomes "init" only when the current exercise is jumping-jack. `arm_circle_stage`
      and the wall-sit fields are left as they are. */
  function Reset(s: Session): (r: Session)
    ensures Valid(r)
    ensures r.repCount == 0 && r.plank == PlankCleared && r.formFeedback == ""
    ensures r.stage == (if s.currentExercise == Some("jumping-jack") then Some(Init) else None)
    ensures r.currentExercise == s.currentExercise
    ensures r.armCircleStage == s.armCircleStage && r.wallSit == s.wallSit
  {
    var s1 := s.(repCount := 0, stage := None, formFeedback := "", plank := PlankCleared);
    if s1.currentExercise == Some("jumping-jack") then s1.(stage := Some(Init))
    else if s1.currentExercise == Some("plank") then s1.(stage := None)
    else s1.(stage := None)
  }

  /** Resetting twice is resetting once. */
  lemma ResetIdempotent(s: Session)
    ensures Reset(Reset(s)) == Reset(s)
  {
  }

  /** A call the application can make on the detector. */
  datatype Call = ProcessCall(id: string, frame: Option<Frame>, now: real) | ResetCall

  /** The state after a sequence of calls. */
  function Replay(s: Session, calls: seq<Call>): (r: Session)
    requires Valid(s)
    ensures Valid(r)
    decreases |calls|
  {
    if calls == [] then s
    else
      var next := match calls[0]
        case ProcessCall(id, frame, now) => Process(s, id, frame, now).0
        case ResetCall => Reset(s);
      Replay(next, calls[1..])
  }

  /** No call assigns `current_exercise`, so it keeps its value for the whole session. */
  lemma {:induction false} CurrentExerciseNeverChanges(s: Session, calls: seq<Call>)
    requires Valid(s)
    ensures Replay(s, calls).currentExercise == s.currentExercise
    decreases |calls|
  {
    if calls != [] {
      var next := match calls[0]
        case ProcessCall(id, frame, now) => Process(s, id, frame, now).0
        case ResetCall => Reset(s);
      CurrentExerciseNeverChanges(next, calls[1..]);
    }
  }

  /** Hence the jumping-jack branch of `reset` is never taken: whatever happened since the
      detector was built, `reset` leaves the stage unset, for jumping-jack too. */
  lemma ResetNeverInitialisesJumpingJack(calls: seq<Call>)
    ensures Reset(Replay(Initial, calls)).stage == None
  {
    CurrentExerciseNeverChanges(Initial, calls);
  }
}
