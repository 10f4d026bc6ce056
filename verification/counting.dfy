/** Counting over a stream of frames: no state machine of `Machines` can count two reps
    without seeing a frame that arms it in between, so jitter across a single threshold
    never double counts. Proved once for any step function with two local properties
    (`Gated`), then instantiated for every exercise. */
module Counting {
  import opened Wrappers
  import opened Landmarks
  import opened Machines

  /** Feeds the frames one by one to a step function; gives the final stage and the
      number of reps counted. */
  function Run<T>(step: (Option<Stage>, T) -> Step, stage: Option<Stage>, xs: seq<T>): (Option<Stage>, nat)
    decreases |xs|
  {
    if xs == [] then (stage, 0)
    else
      var s := step(stage, xs[0]);
      var rest := Run(step, s.stage, xs[1..]);
      (rest.0, rest.1 + if s.counted then 1 else 0)
  }

  /** How many of the frames satisfy `p`. */
  function CountWhere<T>(p: T -> bool, xs: seq<T>): (n: nat)
    ensures n <= |xs|
    decreases |xs|
  {
    if xs == [] then 0 else (if p(xs[0]) then 1 else 0) + CountWhere(p, xs[1..])
  }

  /** The two local properties: a counted frame starts in the armed stage and leaves it;
      the armed stage is reached only from itself or on an arming frame. */
  ghost predicate Gated<T(!new)>(step: (Option<Stage>, T) -> Step, armed: Stage, arming: T -> bool) {
    forall s: Option<Stage>, x: T ::
      && (step(s, x).counted ==> s == Some(armed) && step(s, x).stage != Some(armed))
      && (step(s, x).stage == Some(armed) ==> s == Some(armed) || arming(x))
  }

  /** The number of reps in a run is at most the number of arming frames, plus one when
      the run starts armed. */
  lemma {:induction false} NoDoubleCount<T(!new)>(step: (Option<Stage>, T) -> Step, armed: Stage,
                                                   arming: T -> bool, stage: Option<Stage>, xs: seq<T>)
    requires Gated(step, armed, arming)
    ensures Run(step, stage, xs).1 <= CountWhere(arming, xs) + (if stage == Some(armed) then 1 else 0)
    decreases |xs|
  {
    if xs != [] {
      var s := step(stage, xs[0]);
      NoDoubleCount(step, armed, arming, s.stage, xs[1..]);
    }
  }

  lemma PushUpGated() ensures Gated(PushUpStep, Down, PushUpArming) {}
  lemma SquatGated() ensures Gated(SquatStep, Down, SquatArming) {}
  lemma SitUpGated() ensures Gated(SitUpStep, Down, SitUpArming) {}
  lemma TricepDipGated() ensures Gated(TricepDipStep, Down, TricepDipArming) {}
  lemma JumpingJackGated() ensures Gated(JumpingJackStep, Apart, JumpingJackArming) {}
  lemma LungeGated() ensures Gated(LungeStep, InLunge, LungeArming) {}
  lemma BurpeeGated() ensures Gated(BurpeeStep, InPlank, BurpeeArming) {}
  lemma HighKneesGated() ensures Gated(HighKneesStep, Up, HighKneesArming) {}
  lemma LegRaiseGated() ensures Gated(LegRaiseStep, Up, LegRaiseArming) {}
  lemma ArmCirclesGated() ensures Gated(ArmCirclesStep, Down, ArmCirclesArming) {}

  /** A run with no arming frame arms nothing. */
  lemma {:induction false} NoArmingFrames<T>(arming: T -> bool, xs: seq<T>)
    requires forall i :: 0 <= i < |xs| ==> !arming(xs[i])
    ensures CountWhere(arming, xs) == 0
    decreases |xs|
  {
    if xs != [] {
      NoArmingFrames(arming, xs[1..]);
    }
  }

  /** Push-up jitter: elbow angles that never drop below 90 (for instance wobbling between
      159 and 161) count at most the one rep a run started in "down" was already owed. */
  lemma PushUpJitterNeverDoubleCounts(stage: Option<Stage>, xs: seq<Frame>)
    requires forall i :: 0 <= i < |xs| ==> AvgArm(xs[i]) >= 90.0
    ensures Run(PushUpStep, stage, xs).1 <= (if stage == Some(Down) then 1 else 0)
  {
    PushUpGated();
    NoArmingFrames(PushUpArming, xs);
    NoDoubleCount(PushUpStep, Down, PushUpArming, stage, xs);
  }

  /** Down, up, down again: exactly one push-up, whatever the stage before. */
  lemma PushUpDownUpDownCountsOnce(stage: Option<Stage>, low: Frame, high: Frame, low2: Frame)
    requires PushUpArming(low) && PushUpArming(low2)
    requires PushUpPosition(high) && AvgArm(high) > 160.0
    ensures Run(PushUpStep, stage, [low, high, low2]) == (Some(Down), 1)
  {
    assert [low, high, low2][1..] == [high, low2];
    assert [high, low2][1..] == [low2];
    assert [low2][1..] == [];
    assert Run(PushUpStep, Some(Up), [low2]) == (Some(Down), 0);
    assert Run(PushUpStep, Some(Down), [high, low2]) == (Some(Down), 1);
  }

  /** The burpee's plank test implies its standing test, so a standing user who holds one
      plank-shaped frame for two frames is credited a burpee. */
  lemma BurpeeHeldPlankCounts(f: Frame)
    requires BurpeePlank(f)
    ensures BurpeeStanding(f)
    ensures Run(BurpeeStep, Some(Standing), [f, f]) == (Some(Standing), 1)
  {
    assert [f, f][1..] == [f];
    assert [f][1..] == [];
    assert Run(BurpeeStep, Some(InPlank), [f]) == (Some(Standing), 1);
  }

  /** Jumping-jack never leaves a stage another exercise left behind ("up", "down", ...):
      without a reset the machine is stuck and counts nothing. */
  lemma {:induction false} JumpingJackStuckOnForeignStage(s: Stage, xs: seq<Frame>)
    requires s != Init && s != Together && s != Apart
    ensures Run(JumpingJackStep, Some(s), xs) == (Some(s), 0)
    decreases |xs|
  {
    if xs != [] {
      JumpingJackStuckOnForeignStage(s, xs[1..]);
    }
  }
}
