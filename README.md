# Bicep-curl evaluator

A model of the `BicepCurl` evaluator from `bicep_curl_training.py` in
Gym-Trainer-AI. Per video frame, the evaluator reads the shoulder, elbow
and wrist from pose keypoints in COCO order (indices 5, 7 and 9). It then
runs these checks in a fixed order:

- elbow travel;
- shoulder shrug;
- lateral swing;
- range of motion;
- top position;
- lift tempo and descent tempo.

Each violation takes a fixed number of points off a score that starts at
100 and adds one warning message. The evaluator also advances a two-state
down/up phase machine. A rep is counted on the up-to-down transition and
praised by the score it earned. Each call returns the metrics (reps,
score, elbow angle) and the ordered messages. `reset_data` puts the
session back to its starting values.

The model has four modules:

- `Geometry`: keypoints, distances and `CalculateAngle`, the fold of a
  heading difference into [0, 180].
- `CurlEvaluation`: the evaluator as pure functions of the tracked state
  and one frame.
  - `Evaluate` gives the next state and the result.
  - Every message is a `Message` value whose `Text` is the string the
    source appends.
  - Lemmas state what one call does: score bounds, rep counting, phase
    guards, timers, message order and which messages can appear together.
- `BicepCurlTraining`: the class `BicepCurl`, with the source's fields and
  methods.
  - `EvaluateCurl` updates the fields in place, in the same steps as the
    source.
  - It is proved to produce exactly the state and result of `Evaluate`.
- `CurlSessions`: a session as repeated evaluation over a sequence of
  frames, and properties that hold across calls.

The source reads `time.time()` for the clock. In the model the clock
readings are parameters:

- `now` for an evaluation;
- two readings for construction and reset, because the source reads the
  clock once for each timer.

The elbow angle is computed from the headings of the elbow-to-shoulder and
elbow-to-wrist rays. These headings are what `np.arctan2` returns in
degrees, and they are inputs to the model. The norm test on elbow travel
is stated as a squared distance compared with 80 * 80.

Two consequences of the rule order are proved rather than assumed
away:

- The top-position check runs before the phase machine. On the frame that
  counts a rep it still sees the phase as up, and the elbow is then past
  130 degrees, so every counted rep also gets "Curl higher" and loses 10
  points. A rep therefore scores at most 90. "Perfect form!" needs exactly
  90 and always comes as the list ["Curl higher", "Perfect form!"]
  (`PerfectRepMessages`).
- A lift needs the elbow below 60 degrees while the phase is down. The
  range check then also finds the arm short of full extension (below 160),
  so every lift frame gets "Lower the weight fully" (`LiftWarnsLowerFully`).

A clean rep, in the sense of one that draws no warning, cannot happen.

## Model

| member | source | states |
|---|---|---|
| Geometry.CalculateAngle | bicep_curl_training.py:17-22 | the angle lies in [0, 180] and is the absolute heading difference or 360 less it, never more than the difference |
| Geometry.AngleSymmetric | bicep_curl_training.py:20-22 | the angle is the same with the two rays swapped |
| Geometry.ZeroAngle | bicep_curl_training.py:20-22 | the angle is 0 exactly when the headings are equal or 360 apart |
| CurlEvaluation.Frame.ElbowAngle | bicep_curl_training.py:58 | the elbow angle of a frame lies in [0, 180] |
| CurlEvaluation.Points | bicep_curl_training.py:36-92 | the points a message takes off the score (15, 10, 10, 5, 10, 10, 5, 5 for the warnings in rule order); zero exactly for the two praises, at most 15 |
| CurlEvaluation.Start | bicep_curl_training.py:6-15 | the state `__init__` and `reset_data` set: no contract of its own; `FirstCallNeverShrugs`, the constructor and `ResetData` state what follows from it |
| CurlEvaluation.ArmTravels | bicep_curl_training.py:35-36 | the elbow-travel test, squared distance over 80 * 80; no contract of its own, `FormMessages` states it with the literal threshold |
| CurlEvaluation.Shrugs | bicep_curl_training.py:42-44 | the shrug test, a remembered height and a change over 30; no contract of its own, `FormMessages` and `FirstCallNeverShrugs` state it |
| CurlEvaluation.Swings | bicep_curl_training.py:51-52 | the lateral-swing test, horizontal shoulder-to-elbow offset over 70; no contract of its own, `FormMessages` states it |
| CurlEvaluation.Locked | bicep_curl_training.py:60 | the locked-elbow test, angle over 170; no contract of its own, `RangeMessages` states it |
| CurlEvaluation.ShortOfBottom | bicep_curl_training.py:64 | the `elif` arm: not locked, angle under 160, phase down; no contract of its own, `RangeMessages` and `LockAndLowerFullyExclusive` state it |
| CurlEvaluation.ShortOfTop | bicep_curl_training.py:70 | the top test, phase up and angle over 20; no contract of its own, `RangeMessages` and `RepScoreAtMost90` state it |
| CurlEvaluation.Lifts | bicep_curl_training.py:80 | the down-to-up guard, angle under 60; no contract of its own, `PhaseTransitions`, `Timers` and `TempoMessages` state it |
| CurlEvaluation.Lowers | bicep_curl_training.py:88 | the up-to-down guard, angle over 130; no contract of its own, `RepCounting`, `PhaseTransitions` and `Timers` state it |
| CurlEvaluation.Next | bicep_curl_training.py:42-102 | the fields after one call: the count grows by at most one and the shoulder height seen is remembered; `RepCounting`, `PhaseTransitions` and `Timers` give the rest |
| CurlEvaluation.Evaluate | bicep_curl_training.py:24-111 | one call as a function of the old fields and the frame: the reported score lies in [0, 100]; the lemmas below and `EvaluateCurl` state the rest |
| CurlEvaluation.Rank | bicep_curl_training.py:36-99 | each message has a position in the fixed order of the rules that emit it |
| CurlEvaluation.Text | bicep_curl_training.py:38-99 | a message's text starts with the warning sign exactly when it is a warning, which is exactly when it costs points |
| CurlEvaluation.TextInjective | bicep_curl_training.py:38-99 | different messages have different texts, so messages that never repeat give strings that never repeat |
| CurlEvaluation.RepPraise | bicep_curl_training.py:94-99 | at most one praise: "Perfect form!" iff a rep is counted with score >= 90, "Good rep!" iff counted with 80 <= score < 90 |
| CurlEvaluation.WarningsInOrder | bicep_curl_training.py:34-92 | the warnings appear one rule after another, in the order the checks run |
| CurlEvaluation.FormChecksFire | bicep_curl_training.py:35-55 | arm-steady, shoulders-level and vertical warnings are raised iff their distance tests exceed 80, 30 and 70 pixels |
| CurlEvaluation.MotionChecksFire | bicep_curl_training.py:60-92 | lock, lower-fully, curl-higher, control-lift and control-descent warnings are raised iff their angle, phase and timer tests hold |
| CurlEvaluation.WarningSteps | bicep_curl_training.py:34-92 | the warnings of a call are those the checks raise one after another, in that order |
| CurlEvaluation.RulePenalties | bicep_curl_training.py:36-92 | the points of the eight warnings, each listed when its rule fired, are the deductions 15, 10, 10, 5, 10, 10, 5, 5 of the rules that fired |
| CurlEvaluation.CheckedPenalty | bicep_curl_training.py:36-92 | the points of the raised warnings equal the deductions the checks make (15, 10, 10, 5, 10, 10, 5, 5) |
| CurlEvaluation.ScoreSteps | bicep_curl_training.py:26-92 | the rep's score is 100 less the checks' deductions |
| CurlEvaluation.ResultSteps | bicep_curl_training.py:24-111 | the result holds the new rep count, the clamped score, the angle, and the warnings followed by the praise that score earns |
| CurlEvaluation.MessagesAreFiredRules | bicep_curl_training.py:34-99 | a message is emitted iff its rule fires |
| CurlEvaluation.MessagesInRuleOrder | bicep_curl_training.py:34-99 | messages come in the order of the rules (arm, shoulders, vertical, range, top, tempo, praise), none twice |
| CurlEvaluation.CheckedCostAtMost55 | bicep_curl_training.py:36-92 | one call deducts at most 55 points, and at most 50 while the phase is down |
| CurlEvaluation.ScoreIsPenalty | bicep_curl_training.py:26-107 | the reported score is 100 less the points of exactly the emitted messages; it lies in [45, 100] (>= 50 while down), so max(0, ...) never changes it |
| CurlEvaluation.FormMessages | bicep_curl_training.py:35-55 | each form warning appears iff its threshold is exceeded, and the shrug warning only when a previous shoulder height exists |
| CurlEvaluation.RangeMessages | bicep_curl_training.py:58-73 | "Don't lock" iff angle > 170; "Lower fully" iff angle <= 170, < 160 and down; "Curl higher" iff up and angle > 20 |
| CurlEvaluation.TempoMessages | bicep_curl_training.py:76-92 | "Control the lift" iff down, angle < 60 and less than 1.0 s since rep start; "Control the descent" iff up, angle > 130 and less than 1.5 s since the phase began |
| CurlEvaluation.LockAndLowerFullyExclusive | bicep_curl_training.py:60-67 | "Don't lock your elbow" and "Lower the weight fully" never appear together |
| CurlEvaluation.FirstCallNeverShrugs | bicep_curl_training.py:42-48 | from the start-of-session state, no shoulders-level warning is raised, and the shoulder height seen is remembered |
| CurlEvaluation.PraiseOnlyOnRep | bicep_curl_training.py:94-99 | praise only on the call that increments the count, never both kinds, chosen by the score after every deduction including the descent's |
| CurlEvaluation.RepCounting | bicep_curl_training.py:88-95 | the count grows by exactly 1 iff the phase was up and angle > 130, else stays; it never decreases; the reported reps are the new count |
| CurlEvaluation.PhaseTransitions | bicep_curl_training.py:80-101 | down becomes up iff angle < 60 and up becomes down iff angle > 130, so one call makes at most one transition |
| CurlEvaluation.Timers | bicep_curl_training.py:76-102 | a lift sets both timers to now, a descent sets only the rep timer, and a call with no transition leaves both alone |
| CurlEvaluation.ShoulderRemembered | bicep_curl_training.py:42-48 | every call remembers the shoulder height it saw, whether or not the check fired |
| CurlEvaluation.RepScoreAtMost90 | bicep_curl_training.py:70-73 | on the call that counts a rep, "Curl higher" is raised, so that rep scores at most 90 |
| CurlEvaluation.PerfectRepMessages | bicep_curl_training.py:70-99 | a counted rep reports at most 90, and "Perfect form!" comes only in the exact list ["Curl higher", "Perfect form!"] |
| CurlEvaluation.LiftWarnsLowerFully | bicep_curl_training.py:64-86 | every down-to-up transition also emits "Lower the weight fully", so it scores at most 90 |
| BicepCurlTraining.BicepCurl.constructor | bicep_curl_training.py:6-15 | count 0, phase down, no shoulder height, score field 100, streak 0, last angle 0, both timers set from the clock |
| BicepCurlTraining.BicepCurl.EvaluateCurl | bicep_curl_training.py:24-111 | the new fields and the returned result are exactly those of Evaluate on the old fields and the frame; the unread fields are untouched |
| BicepCurlTraining.BicepCurl.CheckForm | bicep_curl_training.py:34-55 | the three form warnings in order and their deductions, against the previous shoulder height, which is then replaced by the current one |
| BicepCurlTraining.BicepCurl.CheckRange | bicep_curl_training.py:57-73 | appends the lock or lower-fully warning, then curl-higher, with their deductions, by the angle and the current phase |
| BicepCurlTraining.BicepCurl.AdvancePhase | bicep_curl_training.py:75-102 | tempo warnings and deductions, the transition, the rep count, the timers, and the praise earned by the score after the descent deduction |
| BicepCurlTraining.BicepCurl.ResetData | bicep_curl_training.py:134-143 | the start-of-session state whatever the old one was, so a second reset gives the same state as one |
| CurlSessions.Run | bicep_curl_training.py:118-120 | the state after the evaluator is called once per frame in order; no contract of its own, the session lemmas below state its properties |
| CurlSessions.RepsNeverDecrease | bicep_curl_training.py:95 | over any sequence of frames the rep count never goes down |
| CurlSessions.RepsNeedTwoFrames | bicep_curl_training.py:80-101 | each counted rep needs a lift frame and a later lowering frame: n frames count at most (n + 1) / 2 reps, and at most n / 2 from the down phase |
| CurlSessions.FullCycleCountsOneRep | bicep_curl_training.py:80-101 | from down, a frame below 60 degrees and then one above 130 count exactly one rep and leave the phase down |
| CurlSessions.HoldsPhase | bicep_curl_training.py:80-101 | any number of frames at 60 degrees or more while down, or 130 or less while up, leave the phase and the rep count unchanged |
| CurlSessions.RunConcat | bicep_curl_training.py:118-120 | evaluating two runs of frames in turn is evaluating their concatenation |
| CurlSessions.SmoothCycle | bicep_curl_training.py:80-101 | from down, frames short of the lift, a frame below 60, frames short of the descent, a frame past 130 and frames short of the next lift count exactly one rep and end down |
| CurlSessions.LastShoulderRemembered | bicep_curl_training.py:48 | after a non-empty session the remembered shoulder height is that of the last frame |

## Left out

- `analyze_frame` (bicep_curl_training.py:113-132) is left out. It calls the external pose inferencer and draws the overlay with OpenCV, so it is foreign calls and rendering.
- The `inferencer` field is left out, because only `analyze_frame` uses it.
- trainer.py is not part of this model. It does model-file checks, device selection and inferencer construction.
- GUI.py is not part of this model. It holds widgets, the capture thread and the camera loop. `Text` states only that every warning carries the warning sign the panel looks for in each message.
- Geometry.CalculateAngle: the two `np.arctan2` calls and the radian-to-degree conversion are not modelled. The headings they produce are inputs, assumed in [-180, 180]. Only the difference, the absolute value and the fold into [0, 180] are modelled.
- Floating-point arithmetic is modelled as exact real arithmetic. Equality cases at a threshold (for example an angle of exactly 170) may round differently in the source.
- The clock (`time.time()`) is modelled as parameters.
- The keypoint confidence and any coordinates past x and y are not modelled. The source slices them off with `[:2]`.
- The wrist keypoint is not modelled apart from the length requirement. Its position reaches the model only through the wrist heading.
- The local `valid_rep` is not modelled, because it is written but never read.
- `last_angle`, `form_score` and `bad_rep_streak` are only set by the constructor and reset. `EvaluateCurl` leaves them unchanged.
- BicepCurlTraining.BicepCurl.EvaluateCurl is split into `CheckForm`, `CheckRange` and `AdvancePhase`, one per block of the source method. The statements and their order are the source's.
- The evaluator has a single policy, and only that policy is modelled: 80/30/70-pixel thresholds, the swing measured from shoulder to elbow, and the rep counted on the descent.
