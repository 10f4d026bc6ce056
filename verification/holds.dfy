/** The duration-hold exercises of pose_detector.py: plank (with its 20-second grace
    window) and wall-sit. The clock `time.time()` is the parameter `now`; `rep_count`
    holds the whole seconds held, computed with Python's `int()`. */
module Holds {
  import opened Wrappers
  import opened Geometry
  import opened Landmarks
  import opened Machines

  /** Python's `int()` on a float: truncation toward zero. */
  function Truncate(x: real): (r: int)
    ensures 0.0 <= x ==> 0 <= r && r as real <= x < r as real + 1.0
    ensures x < 0.0 ==> r <= 0 && x <= r as real < x + 1.0
  {
    if x >= 0.0 then x.Floor else -((-x).Floor)
  }

  /** On a non-negative duration `int()` is the floor. */
  lemma TruncateIsFloor(x: real)
    requires 0.0 <= x
    ensures Truncate(x) == x.Floor
  {
  }

  // ---------------------------------------------------------------- plank

  /** How long a plank may be broken off and still resumed, in seconds. */
  const GraceSeconds: real := 20.0

  /** `plank_start_time`, `plank_duration`, `plank_hold_active` and `plank_pause_time`
      (the last one an attribute that exists only while paused). */
  datatype PlankTimer = PlankTimer(start: Option<real>, duration: real, holdActive: bool, pause: Option<real>)

  /** The shapes the plank fields can take: a start time exists exactly while a hold is
      active or paused, and a hold is never active and paused at once. */
  predicate PlankValid(t: PlankTimer) {
    (t.start.Some? <==> t.holdActive || t.pause.Some?) && !(t.holdActive && t.pause.Some?)
  }

  const PlankCleared := PlankTimer(None, 0.0, false, None)

  /** Body straight, shoulders level with hips, shoulders above ankles, elbows near 90
      degrees (mean arm angle strictly between 80 and 100) and wrists below shoulders. */
  predicate PlankPosition(f: Frame) {
    var p := f.pose;
    && 160.0 < f.angles.leftBody < 200.0
    && Abs(p.leftShoulder.y - p.leftHip.y) < 0.15
    && p.leftShoulder.y < p.leftAnkle.y
    && 80.0 < AvgArm(f) < 100.0
    && p.leftWrist.y > p.leftShoulder.y && p.rightWrist.y > p.rightShoulder.y
  }

  /** A timer together with `rep_count`. */
  datatype Hold<T> = Hold(timer: T, repCount: int)

  /** One plank frame. */
  function PlankStep(t: PlankTimer, repCount: int, inPosition: bool, now: real): (r: Hold<PlankTimer>)
    requires PlankValid(t)
    ensures PlankValid(r.timer)
    // in position: the hold is active and rep_count is the whole seconds since the start
    ensures inPosition ==> && r.timer.holdActive && r.timer.start.Some?
                           && r.timer.duration == now - r.timer.start.value
                           && r.repCount == Truncate(r.timer.duration)
    ensures inPosition && t.holdActive ==> r.timer.start == t.start
    ensures inPosition && !t.holdActive && t.pause.None? ==> r.timer.start == Some(now) && r.repCount == 0
    // resumed within the grace window: the start moves forward by the pause, so the
    // credit is what had been held when the pause began
    ensures inPosition && !t.holdActive && t.pause.Some? && now - t.pause.value <= GraceSeconds ==>
              r.timer.start == Some(t.start.value + (now - t.pause.value))
              && r.timer.duration == t.pause.value - t.start.value
    // resumed too late: everything restarts from now
    ensures inPosition && !t.holdActive && t.pause.Some? && now - t.pause.value > GraceSeconds ==>
              r.timer.start == Some(now) && r.repCount == 0
    // leaving the position records the pause and keeps everything else
    ensures !inPosition && t.holdActive ==>
              r == Hold(t.(holdActive := false, pause := Some(now)), repCount)
    // out of position and paused: the grace window runs out at 20 seconds
    ensures !inPosition && !t.holdActive && t.pause.Some? ==>
              r == if now - t.pause.value < GraceSeconds then Hold(t, repCount) else Hold(PlankCleared, 0)
    ensures !inPosition && !t.holdActive && t.pause.None? ==> r == Hold(t, repCount)
  {
    if inPosition then
      var start :=
        if t.holdActive then t.start.value
        else match t.pause
          case Some(p) => if now - p <= GraceSeconds then t.start.value + (now - p) else now
          // a fresh hold: the source tests that the start is unset, which PlankValid implies here
          case None => now;
      Hold(PlankTimer(Some(start), now - start, true, None), Truncate(now - start))
    else if t.holdActive then
      Hold(t.(holdActive := false, pause := Some(now)), repCount)
    else match t.pause
      case Some(p) =>
        if GraceSeconds - (now - p) > 0.0 then Hold(t, repCount) else Hold(PlankCleared, 0)
      case None => Hold(t, repCount)
  }

  /** Hold 15 s, break off for 10 s, come back: the plank resumes at 15 s, the seconds of
      the pause are not credited. */
  lemma PlankShortBreakResumes(t0: real)
    ensures var a := PlankStep(PlankCleared, 0, true, t0);
            var b := PlankStep(a.timer, a.repCount, true, t0 + 15.0);
            var c := PlankStep(b.timer, b.repCount, false, t0 + 15.0);
            var d := PlankStep(c.timer, c.repCount, true, t0 + 25.0);
            b.repCount == 15 && c.repCount == 15 && d.repCount == 15 && d.timer.start == Some(t0 + 10.0)
  {
  }

  /** Hold 15 s, break off for 25 s: the count drops to 0 once 20 s have passed, and the
      next hold starts again from 0. */
  lemma PlankLongBreakResets(t0: real)
    ensures var a := PlankStep(PlankCleared, 0, true, t0);
            var b := PlankStep(a.timer, a.repCount, true, t0 + 15.0);
            var c := PlankStep(b.timer, b.repCount, false, t0 + 15.0);
            var d := PlankStep(c.timer, c.repCount, false, t0 + 40.0);
            var e := PlankStep(d.timer, d.repCount, true, t0 + 41.0);
            b.repCount == 15 && d.repCount == 0 && d.timer == PlankCleared
            && e.timer.start == Some(t0 + 41.0) && e.repCount == 0
  {
  }

  /** At exactly 20 seconds the two branches disagree: coming back resumes the hold, while
      a frame still out of position resets it. */
  lemma PlankGraceBoundary(t: PlankTimer, repCount: int, p: real)
    requires PlankValid(t) && !t.holdActive && t.pause == Some(p)
    ensures PlankStep(t, repCount, true, p + GraceSeconds).timer.start == Some(t.start.value + GraceSeconds)
    ensures PlankStep(t, repCount, false, p + GraceSeconds) == Hold(PlankCleared, 0)
  {
  }

  // ---------------------------------------------------------------- wall-sit

  /** `wall_sit_start_time` (absent or `None` alike) and `wall_sit_duration`. */
  datatype WallSitTimer = WallSitTimer(start: Option<real>, duration: real)

  /** Knee angle strictly between 80 and 110 and shoulder within 0.1 of the hip horizontally. */
  predicate WallSitPosition(f: Frame) {
    80.0 < f.angles.leftLeg < 110.0 && Abs(f.pose.leftShoulder.x - f.pose.leftHip.x) < 0.1
  }

  /** One wall-sit frame. */
  function WallSitStep(t: WallSitTimer, repCount: int, inPosition: bool, now: real): (r: Hold<WallSitTimer>)
    ensures !inPosition ==> r == Hold(t.(start := None), repCount)
    ensures inPosition ==> && r.timer.start == Some(if t.start.None? then now else t.start.value)
                           && r.timer.duration == now - r.timer.start.value
                           && r.repCount == Truncate(r.timer.duration)
  {
    if !inPosition then Hold(t.(start := None), repCount)
    else
      var start := if t.start.None? then now else t.start.value;
      Hold(WallSitTimer(Some(start), now - start), Truncate(now - start))
  }

  /** Unlike the plank, a wall-sit has no grace window: one frame out of position and the
      next hold counts from 0 again, even if 30 seconds had been held. */
  lemma WallSitBreakRestarts(t0: real)
    ensures var a := WallSitStep(WallSitTimer(None, 0.0), 0, true, t0);
            var b := WallSitStep(a.timer, a.repCount, true, t0 + 30.0);
            var c := WallSitStep(b.timer, b.repCount, false, t0 + 31.0);
            var d := WallSitStep(c.timer, c.repCount, true, t0 + 32.0);
            b.repCount == 30 && c.repCount == 30 && d.repCount == 0
  {
  }
}
