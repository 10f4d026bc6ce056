# Next-level-fitness pose counting, modelled in Dafny

The application watches a user through a camera and counts exercise repetitions.
MediaPipe finds body landmarks in each frame. `PoseDetector` (pose_detector.py) turns the
landmarks into joint angles and steps a per-exercise state machine. That machine decides
when a repetition is complete, and for the two timed exercises (plank, wall sit) how many
seconds have been held. Two further files are modelled:

- exercise_categories.py: a catalog of exercises grouped in four categories, each locked
  below a user level, with three queries over it.
- system_utils.py: a decision table that picks the MediaPipe and camera settings from the
  detected hardware.

The project is organised as follows.

- `Geometry`: the fold of `calculate_angle`, which maps a signed bearing difference
  (degrees) into [0, 180].
- `Landmarks`: landmarks, the twelve tracked body points (`Pose`), and the joint angles a
  frame yields (`Angles`, `Frame`).
- `Machines`: one pure step function per counting exercise. Each takes the stage before a
  frame and gives the stage after it and whether a rep was completed. Two shared shapes,
  `Toggle` and `Cycle`, show which exercises work alike.
- `Counting`: runs of frames. `NoDoubleCount` is the generic theorem that a run counts
  at most once per frame that can arm the machine. Scenario lemmas cover push-up jitter,
  the burpee and the jumping jack.
- `Holds`: the plank timer with its 20-second grace window, the wall-sit timer, and
  Python's `int()` truncation.
- `Sessions`: the detector's whole state as a value (`Session`), the exercise-id dispatch
  of `process_frame`, and `reset`.
- `Detector`: `class PoseDetector`. Its fields are the source's attributes, and its
  methods follow the source statement by statement. Each method is proved against the
  function of `Machines`, `Holds` or `Sessions` that describes it.
- `Catalog`: `EXERCISE_CATEGORIES` and the loops `get_available_exercises`,
  `get_exercise_info` and `get_all_exercise_ids`.
- `Optimizer`: `get_optimal_settings` and the `os.cpu_count() or 4` default.

Behaviour of the code that the model reproduces and that a reader might not expect:

- An exercise id that no detector handles is not rejected. `process_frame` returns no
  rep, empty feedback and the unchanged count, and the state is unchanged
  (`Sessions.Process`).
- Resuming a plank within the grace window shifts the start time forward by the length
  of the pause, so the paused seconds are not credited. For example, 15 s held, 10 s
  paused and then resumed reads 15 s, not 25 s (`Holds.PlankShortBreakResumes`).
- Elapsed times are not clamped. A clock that goes backwards gives a negative duration,
  which `int()` truncates toward zero.
- The two timed exercises overwrite `rep_count`, so it can drop. A wall sit interrupted
  for one frame restarts from 0 (`Holds.WallSitBreakRestarts`).
- At exactly 20 s of rest the plank both resumes on re-entry (`<= 20`) and resets while
  still out of position (`20 - rest > 0` fails) (`Holds.PlankGraceBoundary`).
- The burpee's plank test implies its standing test. A user who holds a plank-shaped
  pose for two frames is credited a burpee (`Counting.BurpeeHeldPlankCounts`).
- `current_exercise` is never assigned after construction, so the jumping-jack branch of
  `reset` is never taken (`Sessions.ResetNeverInitialisesJumpingJack`). A jumping-jack
  stage left over from another exercise ("up", "down", …) is never left, so nothing is
  counted until a reset (`Counting.JumpingJackStuckOnForeignStage`).
- `reset` clears neither `arm_circle_stage` nor the wall-sit timer.
- The lunge's 1.2-shoulder-width test is implied by its 1.5 test
  (`Machines.LungeStanceIsOneTest`).

Not modelled: the camera, MediaPipe, drawing, the clock and hardware probing. Landmarks,
joint angles, the current time `now` and the hardware figures are parameters.

## Model

| member | source | states |
|---|---|---|
| Geometry.Fold | pose_detector.py:71-77 | the folded angle lies in [0, 180] and is either the magnitude of the bearing difference or 360 minus it |
| Geometry.FoldSymmetric | pose_detector.py:71-77 | swapping the two outer points gives the same angle |
| Geometry.FoldFullTurn | pose_detector.py:71-77 | a bearing difference that wrapped by a full turn folds to the same angle |
| Geometry.FoldLandmarks | pose_detector.py:71-77 | right angles read 90 in every orientation, a straight joint 180, a folded-back one 0 |
| Landmarks.AnglesOf | pose_detector.py:66-77 | folding the seven bearing differences gives angles in [0, 180] |
| Machines.PushUpStep | pose_detector.py:103-138 | out of the plank position nothing changes; a rep counts exactly when in position, the stage was "down" and the mean elbow angle exceeds 160, and the stage becomes "up"; below 90 the stage becomes "down"; between 90 and 160 nothing changes |
| Machines.SquatStep | pose_detector.py:162-188 | knees more than 30 degrees apart change nothing; a rep counts exactly on "down" with mean knee angle above 160; below 100 arms "down"; in between nothing changes |
| Machines.SitUpStep | pose_detector.py:282-310 | knees not bent below 95 change nothing; a rep counts exactly on "down" with torso angle below 60; above 100 arms "down"; in between nothing changes |
| Machines.TricepDipStep | pose_detector.py:715-746 | hands not behind the hip clear the stage without counting; a rep counts exactly on "down" with mean elbow angle above 160; below 100 arms "down" |
| Machines.JumpingJackStep | pose_detector.py:205-259 | no stage becomes "init"; "init" moves to "together" only when neutral; "together" moves to "apart" only when arms are raised and spread and legs are spread; a rep counts exactly on "apart" to neutral, which returns to "together" |
| Machines.LungeStep | pose_detector.py:334-378 | outside the split stance nothing changes; an unset stage is "standing" and can reach "lunge" on the same frame; a rep counts exactly on "lunge" with both knees above 160; a stage left by another exercise is kept |
| Machines.LungeStanceIsOneTest | pose_detector.py:346-356 | the stance gate is equivalent to its 1.5-shoulder-width test alone |
| Machines.BurpeeStep | pose_detector.py:772-797 | an unset stage is "standing"; "standing" moves to "plank" on a plank-shaped frame; a rep counts exactly on "plank" with body angle above 160; a stage left by another exercise is kept |
| Machines.TrackedLeg | pose_detector.py:646-652 | high knees tracks the left leg when the left hip is at least as visible as the right, otherwise the right leg |
| Machines.HighKneesStep | pose_detector.py:658-688 | the first frame only sets "down"; "down" moves to "up" on a raised knee; a rep counts exactly on "up" with knee angle above 150, returning to "down", otherwise "up" stays; a stage left by another exercise is kept |
| Machines.LegRaiseStep | pose_detector.py:840-905 | bent legs or not lying flat clear the stage without counting; an unset stage starts at "down" or "unknown" by hip flexion; "down" moves to "up" below 105; a rep counts exactly on "up" above 150, returning to "down", otherwise "up" stays; "unknown" moves to "down" above 150; a stage left by another exercise is kept |
| Machines.WristPosition | pose_detector.py:565-571 | the wrists are "up", "down" or "middle" against the shoulders, with a 0.05 band |
| Machines.ArmCirclesStep | pose_detector.py:545-611 | arms not extended clear the stage without counting; otherwise the stage follows the wrists; a rep counts exactly when the stage was "down" and the wrists are above the shoulders |
| Counting.NoDoubleCount | pose_detector.py:127-138 | for any machine where only the armed stage counts, leaves it, and is entered only by an arming frame, a run counts at most one rep per arming frame, plus one if it started armed |
| Counting.PushUpGated | pose_detector.py:127-138 | push-up counts only by leaving "down", entered only below 90 degrees |
| Counting.SquatGated | pose_detector.py:177-188 | squat counts only by leaving "down", entered only below 100 degrees |
| Counting.SitUpGated | pose_detector.py:299-310 | sit-up counts only by leaving "down", entered only with torso above 100 |
| Counting.TricepDipGated | pose_detector.py:734-746 | tricep dip counts only by leaving "down", entered only below 100 degrees |
| Counting.JumpingJackGated | pose_detector.py:236-259 | jumping jack counts only by leaving "apart", entered only on an open pose |
| Counting.LungeGated | pose_detector.py:364-378 | lunge counts only by leaving "lunge", entered only with both knees bent |
| Counting.BurpeeGated | pose_detector.py:780-797 | burpee counts only by leaving "plank", entered only on a plank-shaped frame |
| Counting.HighKneesGated | pose_detector.py:668-688 | high knees counts only by leaving "up", entered only on a raised knee |
| Counting.LegRaiseGated | pose_detector.py:867-905 | leg raise counts only by leaving "up", entered only below 105 degrees |
| Counting.ArmCirclesGated | pose_detector.py:574-611 | arm circles count only by leaving "down", entered only with the wrists below the shoulders |
| Counting.PushUpJitterNeverDoubleCounts | pose_detector.py:127-138 | elbow angles that never drop below 90 count at most the one rep owed by a run that started in "down" |
| Counting.PushUpDownUpDownCountsOnce | pose_detector.py:127-138 | down, up, down counts exactly one push-up and ends in "down" |
| Counting.BurpeeHeldPlankCounts | pose_detector.py:774-797 | a plank-shaped frame is also a standing frame, so two such frames in a row count a burpee |
| Counting.JumpingJackStuckOnForeignStage | pose_detector.py:226-259 | from a stage the jumping-jack machine does not use, no frame changes the stage or counts |
| Holds.Truncate | pose_detector.py:475 | `int()` truncates toward zero: below or equal to a non-negative duration by less than 1, above or equal to a negative one by less than 1 |
| Holds.TruncateIsFloor | pose_detector.py:475 | for non-negative durations `int()` is the floor |
| Holds.PlankStep | pose_detector.py:443-523 | keeps the timer invariant; in position the count is the truncated time since the (possibly shifted) start; leaving records a pause; re-entry within 20 s shifts the start by the pause and clears it, later re-entry restarts at now with count 0; still out after 20 s clears the timer and the count |
| Holds.PlankShortBreakResumes | pose_detector.py:443-475 | 15 s held, 10 s paused, then resumed reads 15 s, with the start shifted by the pause |
| Holds.PlankLongBreakResets | pose_detector.py:487-509 | a 25 s pause clears the count once 20 s have passed, and the next hold starts from 0 |
| Holds.PlankGraceBoundary | pose_detector.py:450-500 | at exactly 20 s of rest, re-entry resumes while a frame still out of position resets |
| Holds.WallSitStep | pose_detector.py:939-961 | out of position the start time is cleared and the count kept; in position the start is set if absent and the count is the truncated time since it |
| Holds.WallSitBreakRestarts | pose_detector.py:939-961 | a 30 s wall sit interrupted for one frame restarts from 0 |
| Sessions.ExerciseOf | pose_detector.py:994-1017 | a recognised id selects the exercise whose id it is |
| Sessions.DispatchRoundTrip | pose_detector.py:994-1017 | each of the twelve exercises is reached by its own id, so exactly one detector runs for each |
| Sessions.Detect | pose_detector.py:994-1017 | a detector call keeps the object invariant and `current_exercise`; every counting exercise raises the count by exactly one when it reports a rep and otherwise keeps it; the timed ones never report a rep |
| Sessions.Process | pose_detector.py:982-1026 | no pose or an unknown id leaves the state unchanged and reports no rep; otherwise exactly the selected detector runs |
| Sessions.Reset | pose_detector.py:1028-1048 | count 0, plank timer cleared and pause removed, feedback empty; the stage is "init" exactly when the current exercise is jumping-jack; arm-circle stage and wall-sit timer kept |
| Sessions.ResetIdempotent | pose_detector.py:1028-1048 | resetting twice is resetting once |
| Sessions.Replay | pose_detector.py:972-1048 | any sequence of frame and reset calls keeps the object invariant |
| Sessions.CurrentExerciseNeverChanges | pose_detector.py:972-1048 | no call changes `current_exercise` |
| Sessions.ResetNeverInitialisesJumpingJack | pose_detector.py:1040-1048 | after any calls on a new detector, `reset` leaves the stage unset |
| Detector.PoseDetector.constructor | pose_detector.py:40-48 | a new detector has no exercise, count 0, no stage, empty feedback and a cleared plank timer |
| Detector.PoseDetector.DetectPushUp | pose_detector.py:79-145 | steps `stage` as `PushUpStep`, raises `rep_count` by one exactly on a rep, returns feedback, and says "KEEP ARMS EVEN" in position when the arms differ by over 20 degrees |
| Detector.PoseDetector.DetectSquat | pose_detector.py:147-190 | steps `stage` as `SquatStep`, counts exactly on a rep, and reports uneven knees when they differ by over 30 degrees |
| Detector.PoseDetector.DetectJumpingJack | pose_detector.py:192-261 | steps `stage` as `JumpingJackStep` and counts exactly on a rep |
| Detector.PoseDetector.DetectSitUp | pose_detector.py:263-312 | steps `stage` as `SitUpStep` and counts exactly on a rep |
| Detector.PoseDetector.DetectLunge | pose_detector.py:314-393 | steps `stage` as `LungeStep` and counts exactly on a rep |
| Detector.PoseDetector.DetectPlank | pose_detector.py:396-523 | steps the plank fields and `rep_count` as `PlankStep`, keeps the timer invariant, never reports a rep |
| Detector.PoseDetector.DetectArmCircles | pose_detector.py:525-613 | steps `arm_circle_stage` as `ArmCirclesStep` and counts exactly on a rep |
| Detector.PoseDetector.DetectHighKnees | pose_detector.py:615-690 | steps `stage` as `HighKneesStep` and counts exactly on a rep |
| Detector.PoseDetector.DetectTricepDip | pose_detector.py:695-748 | steps `stage` as `TricepDipStep` and counts exactly on a rep |
| Detector.PoseDetector.DetectBurpee | pose_detector.py:758-799 | steps `stage` as `BurpeeStep` and counts exactly on a rep |
| Detector.PoseDetector.DetectLegRaise | pose_detector.py:801-907 | steps `stage` as `LegRaiseStep` and counts exactly on a rep |
| Detector.PoseDetector.DetectWallSit | pose_detector.py:912-970 | steps the wall-sit fields and `rep_count` as `WallSitStep`, never reports a rep |
| Detector.PoseDetector.RunDetector | pose_detector.py:994-1017 | runs the detector of one exercise, with the state change `Sessions.Detect` describes |
| Detector.PoseDetector.ProcessLandmarks | pose_detector.py:982-1026 | the new state and rep flag are `Sessions.Process` of the old state; the returned count is `rep_count`; feedback is empty exactly when no pose was found or the id is unknown |
| Detector.PoseDetector.Reset | pose_detector.py:1028-1048 | the new state is `Sessions.Reset` of the old one |
| Catalog.Tags | exercise_categories.py:282-292 | every exercise kept in order, locked exactly when the user level is below its required level |
| Catalog.Availability | exercise_categories.py:275-299 | one section per category in order, with its name and colour, holding its tagged exercises |
| Catalog.GetAvailableExercises | exercise_categories.py:275-299 | the nested loops build exactly `Availability` |
| Catalog.UnlockingIsMonotone | exercise_categories.py:283 | raising the user level never locks an exercise that was unlocked |
| Catalog.LevelTwelveUnlocksEverything | exercise_categories.py:13-251 | at level 12 nothing in the catalog is locked, at level 11 the burpee still is |
| Catalog.Ids | exercise_categories.py:318-319 | the ids of a category's exercises, in order |
| Catalog.AllIds | exercise_categories.py:314-320 | one id per exercise, so its length is the number of exercises |
| Catalog.InAllIds | exercise_categories.py:314-320 | an id is listed exactly when some category holds an exercise with it |
| Catalog.GetAllExerciseIds | exercise_categories.py:314-320 | the nested loops build exactly `AllIds`, category by category |
| Catalog.CatalogIdsDistinct | exercise_categories.py:11-249 | the catalog lists eleven ids in category order, pairwise distinct |
| Catalog.CatalogIdsAreDispatched | pose_detector.py:994-1017 | every catalog id selects a detector, and arm circles is the one detector the catalog does not offer |
| Catalog.FindIn | exercise_categories.py:305-306 | the first exercise of a category with the id (no earlier exercise has it), or none exactly when the id is absent |
| Catalog.Lookup | exercise_categories.py:302-311 | a result has the requested id and is the first match of the first category, in catalog order, that holds the id, reported with that category's name |
| Catalog.LookupFindsListedIds | exercise_categories.py:302-320 | the lookup succeeds exactly when the id is listed by `get_all_exercise_ids` |
| Catalog.GetExerciseInfo | exercise_categories.py:302-311 | the search loop with early return computes exactly `Lookup` |
| Catalog.LookupArmCircles | exercise_categories.py:302-311 | "arm-circles" is not found |
| Catalog.LookupWallSit | exercise_categories.py:302-311 | "wall-sit" is found with its record and the lower-body category |
| Optimizer.CpuCores | system_utils.py:32 | an unknown or zero core count becomes 4; any other count is kept, so a count as `os.cpu_count()` reports it always gives at least one core |
| Optimizer.OptimalSettings | system_utils.py:140-210 | the frame skip is between 1 and 4, the complexity between 0 and 2, and detection and tracking confidence are equal in every tier |
| Optimizer.Tiers | system_utils.py:142-209 | complexity 2 and every frame exactly for a GPU with at least 2048 MB; a GPU with 1024 to 2047 MB gets complexity 1 and every 2nd frame; otherwise 8+ cores every 2nd, 4-7 every 3rd, fewer every 4th frame with complexity 0 |
| Optimizer.BetterHardwareNeverDegrades | system_utils.py:142-209 | gaining a GPU, VRAM or cores never raises the frame skip and never lowers the model complexity |
| Optimizer.UnknownCoresGetBalancedTier | system_utils.py:184-196 | with no GPU detected and an unknown core count, the 4-core tier is used |

## Left out

- Geometry.Fold: the two `atan2` bearings and the radian-to-degree conversion are floating point and are not modelled. The fold starts from the bearing difference in degrees, which lies in [-360, 360].
- Joint angles are inputs to each frame (`Landmarks.Angles`). The model does not derive them from the landmark coordinates, and `Frame.angles` is not constrained to [0, 180]: the step functions and detector methods accept any angles, a superset of what `calculate_angle` produces, so every property stated about them holds in particular for folded angles.
- Detector.PoseDetector: the feedback text follows the source's literals with the emoji removed. Where the source interpolates a number, the number is dropped with the words that frame it: the seconds of the plank and wall-sit messages ("PLANK: KEEP GOING!", "RETURN TO PLANK!", "HOLD IT!") and the rep counts of the arm-circle, high-knees, burpee and leg-raise messages ("CIRCLE COMPLETE!", "REP! KEEP RUNNING!", "BURPEE!", "REP COMPLETE! GREAT CONTROL!"). Only the presence of feedback, and the arm and knee symmetry messages, are specified.
- Detector.PoseDetector.ProcessLandmarks: the `exercise_type` if-chain is written once, as `Sessions.ExerciseOf`, and a helper runs the selected detector. The colour conversion, `pose.process`, landmark drawing and the returned image are MediaPipe and OpenCV calls and are not modelled. The `except` path, which returns an error message, is not modelled either.
- `time.time()` is the parameter `now` of the plank and wall-sit detectors.
- Attributes the source creates or deletes on the fly (`plank_pause_time`, `arm_circle_stage`, `wall_sit_start_time`) are `Option` fields. An absent attribute and `None` behave alike in every branch.
- `__init__`'s MediaPipe model, hardware probe and `frame_skip` are not modelled; the constructor covers the counting state only.
- `release` and `get_interpolation_method` are foreign OpenCV and MediaPipe calls. The second also reads an attribute that is never set.
- All `print` logging is left out.
- Catalog: `description`, `muscle_groups`, `how_to` and `tips` are static prose with no logic. The result of `get_available_exercises` is a sequence of sections in the dict's insertion order, keyed by category name; catalog names are distinct, so no entry is overwritten.
- Catalog.Lookup: returns `None` for "not found", as the source does. The copied exercise record and the added category name form an `Info` value.
- `SystemOptimizer.detect_hardware` and the Windows, Linux and macOS GPU probes run subprocesses. They are I/O; the detected values are the fields of `Optimizer.Hardware`.
- `get_base_path` and `get_gifs_path` deal with filesystem paths and are not modelled.
- example_test.py is a camera capture and display loop and is not part of this model.
