/** What one call of the bicep-curl evaluator does, stated as pure functions
    of the tracked state and one frame: which form and tempo rules fire, the
    messages they emit in rule order, the form score, and the down/up phase
    machine that counts reps. The class in BicepCurlTraining is proved to
    compute exactly this. */
module CurlEvaluation {
  import opened Wrappers
  import opened Geometry

  /** The half of the curl the lifter is in. */
  datatype Phase = Down | Up

  /** Every message an evaluation can emit, one per form check or tempo rule. */
  datatype Message =
    | KeepArmSteady
    | KeepShouldersLevel
    | KeepVertical
    | DontLockElbow
    | LowerFully
    | CurlHigher
    | ControlLift
    | ControlDescent
    | PerfectForm
    | GoodRep

  /** The warnings, in the order their rules run. */
  const Warnings: seq<Message> :=
    [KeepArmSteady, KeepShouldersLevel, KeepVertical, DontLockElbow, LowerFully, CurlHigher, ControlLift, ControlDescent]

  /** The praise given to a counted rep, best first. */
  const Praises: seq<Message> := [PerfectForm, GoodRep]

  /** Every message, in the order its rule runs. */
  const Catalogue: seq<Message> := Warnings + Praises

  /** The position of a message's rule in the fixed order of the rules. */
  function Rank(m: Message): (k: nat)
    ensures k < |Catalogue| && Catalogue[k] == m
  {
    match m
    case KeepArmSteady => 0
    case KeepShouldersLevel => 1
    case KeepVertical => 2
    case DontLockElbow => 3
    case LowerFully => 4
    case CurlHigher => 5
    case ControlLift => 6
    case ControlDescent => 7
    case PerfectForm => 8
    case GoodRep => 9
  }

  /** The points a message's rule takes off the score; praise costs nothing. */
  function Points(m: Message): (p: nat)
    ensures p == 0 <==> m == PerfectForm || m == GoodRep
    ensures p <= 15
  {
    match m
    case KeepArmSteady => 15
    case KeepShouldersLevel => 10
    case KeepVertical => 10
    case DontLockElbow => 5
    case LowerFully => 10
    case CurlHigher => 10
    case ControlLift => 5
    case ControlDescent => 5
    case PerfectForm => 0
    case GoodRep => 0
  }

  const WarningSign: string := "\U{26A0}\U{FE0F} "

  /** The text shown for a message. Every warning, and nothing else, starts
      with the warning sign by which the feedback panel classifies it, and
      every warning, and nothing else, costs points. */
  function Text(m: Message): (s: string)
    ensures m in Warnings <==> WarningSign <= s
    ensures m in Warnings <==> Points(m) > 0
  {
    match m
    case KeepArmSteady => WarningSign + "Keep your upper arm steady"
    case KeepShouldersLevel => WarningSign + "Keep shoulders level"
    case KeepVertical => WarningSign + "Keep movement vertical"
    case DontLockElbow => WarningSign + "Don't lock your elbow"
    case LowerFully => WarningSign + "Lower the weight fully"
    case CurlHigher => WarningSign + "Curl higher"
    case ControlLift => WarningSign + "Control the lift"
    case ControlDescent => WarningSign + "Control the descent"
    case PerfectForm => var s := "\U{2728} Perfect form!"; assert s[0] != WarningSign[0]; s
    case GoodRep => var s := "\U{1F44D} Good rep!"; assert s[0] != WarningSign[0]; s
  }

  /** Different messages have different texts, so a list of messages with
      no repeats is a list of strings with no repeats. */
  lemma TextInjective(m: Message, m': Message)
    ensures Text(m) == Text(m') ==> m == m'
  {
    var t, t' := Text(m), Text(m');
    if t == t' && m in Warnings {
      assert t[3] == t'[3] && t[4] == t'[4] && t[8] == t'[8];
      if m == ControlLift || m == ControlDescent {
        assert t[15] == t'[15];
      }
    } else if t == t' {
      assert t[0] == t'[0];
    }
  }

  // Thresholds: pixels, degrees and seconds.
  const StartScore: int := 100
  const ElbowTravelLimit: real := 80.0
  const ShoulderDeltaLimit: real := 30.0
  const LateralLimit: real := 70.0
  const LockAngle: real := 170.0
  const ExtendedAngle: real := 160.0
  const TopAngle: real := 20.0
  const LiftAngle: real := 60.0
  const LowerAngle: real := 130.0
  const MinLiftTime: real := 1.0
  const MinDescentTime: real := 1.5
  const PerfectScore: int := 90
  const GoodScore: int := 80

  /** The fields an evaluation reads and writes. */
  datatype CurlState = CurlState(
    repCount: nat,
    currentState: Phase,
    repStartTime: real,
    repPhaseTime: real,
    lastShoulderY: Option<real>)

  /** The state at the start of a session, given the two clock readings taken
      for the rep timer and the phase timer. */
  function Start(startClock: real, phaseClock: real): CurlState
  {
    CurlState(0, Down, startClock, phaseClock, None)
  }

  /** One call's input: the keypoints in COCO order, the clock reading, and
      the headings of the elbow-to-shoulder and elbow-to-wrist rays. */
  datatype Frame = Frame(keypoints: seq<Keypoint>, now: real, shoulderHeading: real, wristHeading: real)
  {
    /** Index 9 (the wrist) is read, so ten keypoints are needed. */
    predicate Valid()
    {
      |keypoints| >= 10 && IsHeading(shoulderHeading) && IsHeading(wristHeading)
    }

    function Shoulder(): Keypoint
      requires Valid()
    {
      keypoints[5]
    }

    function Elbow(): Keypoint
      requires Valid()
    {
      keypoints[7]
    }

    function ElbowAngle(): (angle: real)
      requires Valid()
      ensures 0.0 <= angle <= 180.0
    {
      CalculateAngle(shoulderHeading, wristHeading)
    }
  }

  datatype Metrics = Metrics(reps: nat, formScore: int, elbowAngle: real)

  /** What one call returns: the metrics and the messages in the order emitted. */
  datatype Feedback = Feedback(metrics: Metrics, messages: seq<Message>)

  datatype Outcome = Outcome(next: CurlState, result: Feedback)

  // The rules, one predicate each.

  predicate ArmTravels(shoulder: Keypoint, elbow: Keypoint)
  {
    SquaredDistance(elbow, shoulder) > ElbowTravelLimit * ElbowTravelLimit
  }

  predicate Shrugs(lastShoulderY: Option<real>, shoulderY: real)
  {
    lastShoulderY.Some? && Abs(shoulderY - lastShoulderY.value) > ShoulderDeltaLimit
  }

  predicate Swings(shoulder: Keypoint, elbow: Keypoint)
  {
    Abs(shoulder.x - elbow.x) > LateralLimit
  }

  predicate Locked(angle: real)
  {
    angle > LockAngle
  }

  /** The second arm of the range-of-motion check, reached only when the
      elbow is not locked. */
  predicate ShortOfBottom(phase: Phase, angle: real)
  {
    !Locked(angle) && angle < ExtendedAngle && phase == Down
  }

  predicate ShortOfTop(phase: Phase, angle: real)
  {
    phase == Up && angle > TopAngle
  }

  /** The down-to-up transition. */
  predicate Lifts(phase: Phase, angle: real)
  {
    phase == Down && angle < LiftAngle
  }

  /** The up-to-down transition, on which a rep is counted. */
  predicate Lowers(phase: Phase, angle: real)
  {
    phase == Up && angle > LowerAngle
  }

  /** Whether the warning m is raised on this call. */
  predicate Warns(s: CurlState, f: Frame, m: Message)
    requires f.Valid()
  {
    var shoulder, elbow, angle := f.Shoulder(), f.Elbow(), f.ElbowAngle();
    match m
    case KeepArmSteady => ArmTravels(shoulder, elbow)
    case KeepShouldersLevel => Shrugs(s.lastShoulderY, shoulder.y)
    case KeepVertical => Swings(shoulder, elbow)
    case DontLockElbow => Locked(angle)
    case LowerFully => ShortOfBottom(s.currentState, angle)
    case CurlHigher => ShortOfTop(s.currentState, angle)
    case ControlLift => Lifts(s.currentState, angle) && f.now - s.repStartTime < MinLiftTime
    case ControlDescent => Lowers(s.currentState, angle) && f.now - s.repPhaseTime < MinDescentTime
    case PerfectForm => false
    case GoodRep => false
  }

  /** The warnings raised on this call. */
  function Warned(s: CurlState, f: Frame): set<Message>
    requires f.Valid()
  {
    set m | m in Warnings && Warns(s, f, m)
  }

  /** The score the rep is judged by: 100 less the points of every warning. */
  function RepScore(s: CurlState, f: Frame): int
    requires f.Valid()
  {
    StartScore - Penalty(Filter(Warnings, Warned(s, f)))
  }

  /** Whether message m is emitted on this call: a warning when its rule
      fires, praise on a counted rep by the score it earned. */
  predicate Fires(s: CurlState, f: Frame, m: Message)
    requires f.Valid()
  {
    match m
    case PerfectForm => Lowers(s.currentState, f.ElbowAngle()) && RepScore(s, f) >= PerfectScore
    case GoodRep => Lowers(s.currentState, f.ElbowAngle()) && GoodScore <= RepScore(s, f) < PerfectScore
    case _ => Warns(s, f, m)
  }

  function Fired(s: CurlState, f: Frame): set<Message>
    requires f.Valid()
  {
    set m | m in Catalogue && Fires(s, f, m)
  }

  /** The state after one call: the shoulder height is remembered, then a
      lift restarts both timers, and a descent counts the rep and restarts
      only the rep timer. */
  function Next(s: CurlState, f: Frame): (n: CurlState)
    requires f.Valid()
    ensures s.repCount <= n.repCount <= s.repCount + 1
    ensures n.lastShoulderY == Some(f.Shoulder().y)
  {
    var angle := f.ElbowAngle();
    var seen := s.(lastShoulderY := Some(f.Shoulder().y));
    if Lifts(s.currentState, angle) then
      seen.(currentState := Up, repStartTime := f.now, repPhaseTime := f.now)
    else if Lowers(s.currentState, angle) then
      seen.(repCount := s.repCount + 1, currentState := Down, repStartTime := f.now)
    else
      seen
  }

  /** One evaluation: the fired messages in rule order, the score of the rep
      never reported below 0, and the new state. */
  function Evaluate(s: CurlState, f: Frame): (o: Outcome)
    requires f.Valid()
    ensures 0 <= o.result.metrics.formScore <= StartScore
  {
    var next := Next(s, f);
    var score := RepScore(s, f);
    Outcome(next, Feedback(Metrics(next.repCount, if score < 0 then 0 else score, f.ElbowAngle()),
                           Filter(Catalogue, Fired(s, f))))
  }

  // Message lists: filtering the catalogue, order and points.

  /** The messages of cat that are in fired, in the order of cat. */
  function Filter(cat: seq<Message>, fired: set<Message>): seq<Message>
  {
    if cat == [] then [] else When(cat[0] in fired, cat[0]) + Filter(cat[1..], fired)
  }

  function When(fires: bool, m: Message): seq<Message>
  {
    if fires then [m] else []
  }

  /** The sum of the points of the given messages. */
  function Penalty(ms: seq<Message>): nat
  {
    if ms == [] then 0 else Penalty(ms[..|ms| - 1]) + Points(ms[|ms| - 1])
  }

  /** Each message belongs to a later rule than every message before it. */
  predicate Ordered(ms: seq<Message>)
  {
    forall i, j :: 0 <= i < j < |ms| ==> Rank(ms[i]) < Rank(ms[j])
  }

  lemma PenaltyAppend(ms: seq<Message>, m: Message)
    ensures Penalty(ms + [m]) == Penalty(ms) + Points(m)
  {
  }

  /** A message is kept exactly when it is listed and fired. */
  lemma {:induction false} FilterMembers(cat: seq<Message>, fired: set<Message>, m: Message)
    ensures m in Filter(cat, fired) <==> m in cat && m in fired
  {
    if cat != [] {
      FilterMembers(cat[1..], fired, m);
      assert cat == [cat[0]] + cat[1..];
    }
  }

  /** Filtering keeps the order of the list filtered. */
  lemma {:induction false} FilterOrdered(cat: seq<Message>, fired: set<Message>)
    requires Ordered(cat)
    ensures Ordered(Filter(cat, fired))
  {
    if cat != [] {
      var rest := Filter(cat[1..], fired);
      FilterOrdered(cat[1..], fired);
      forall j | 0 <= j < |rest|
        ensures Rank(cat[0]) < Rank(rest[j])
      {
        FilterMembers(cat[1..], fired, rest[j]);
      }
    }
  }

  /** Filtering a list with one more message at the end. */
  lemma {:induction false} FilterSnoc(cat: seq<Message>, m: Message, fired: set<Message>)
    ensures Filter(cat + [m], fired) == Filter(cat, fired) + When(m in fired, m)
  {
    if cat == [] {
      assert [m][1..] == [];
    } else {
      assert (cat + [m])[1..] == cat[1..] + [m];
      FilterSnoc(cat[1..], m, fired);
    }
  }

  /** Filtering the first k + 1 messages of a list. */
  lemma FilterPrefix(cat: seq<Message>, k: nat, fired: set<Message>)
    requires k < |cat|
    ensures Filter(cat[..k + 1], fired) == Filter(cat[..k], fired) + When(cat[k] in fired, cat[k])
  {
    assert cat[..k + 1] == cat[..k] + [cat[k]];
    FilterSnoc(cat[..k], cat[k], fired);
  }

  /** Filtering two lists one after the other. */
  lemma {:induction false} FilterConcat(a: seq<Message>, b: seq<Message>, fired: set<Message>)
    ensures Filter(a + b, fired) == Filter(a, fired) + Filter(b, fired)
  {
    if a == [] {
      assert a + b == b;
    } else {
      assert (a + b)[1..] == a[1..] + b;
      FilterConcat(a[1..], b, fired);
      var w := When(a[0] in fired, a[0]);
      assert w + (Filter(a[1..], fired) + Filter(b, fired)) == (w + Filter(a[1..], fired)) + Filter(b, fired);
    }
  }

  /** Two sets that agree on the listed messages keep the same messages. */
  lemma {:induction false} FilterAgree(cat: seq<Message>, fired: set<Message>, fired': set<Message>)
    requires forall m :: m in cat ==> (m in fired <==> m in fired')
    ensures Filter(cat, fired) == Filter(cat, fired')
  {
    if cat != [] {
      FilterAgree(cat[1..], fired, fired');
    }
  }

  /** The penalty of two lists one after the other. */
  lemma {:induction false} PenaltyConcat(a: seq<Message>, b: seq<Message>)
    ensures Penalty(a + b) == Penalty(a) + Penalty(b)
  {
    if b == [] {
      assert a + b == a;
    } else {
      var n := |b| - 1;
      assert a + b == (a + b[..n]) + [b[n]];
      PenaltyConcat(a, b[..n]);
      PenaltyAppend(a + b[..n], b[n]);
      PenaltyAppend(b[..n], b[n]);
      assert b == b[..n] + [b[n]];
    }
  }

  /** The catalogue lists the rules in rank order. */
  lemma CatalogueOrdered()
    ensures Ordered(Catalogue)
  {
    // Not needed for soundness, but it spares the solver a search over pairs.
    forall k | 0 <= k < |Catalogue|
      ensures Rank(Catalogue[k]) == k
    {
    }
  }

  /** A message appended when its rule fires adds its points. */
  lemma PenaltyWhen(ms: seq<Message>, fires: bool, m: Message)
    ensures Penalty(ms + When(fires, m)) == Penalty(ms) + (if fires then Points(m) else 0)
  {
    if fires {
      PenaltyAppend(ms, m);
    } else {
      assert ms + When(fires, m) == ms;
    }
  }

  /** Filtering four more messages of a list appends them one by one. */
  lemma FilterExtend4(cat: seq<Message>, k: nat, fired: set<Message>)
    requires k + 4 <= |cat|
    ensures Filter(cat[..k + 4], fired) ==
      Filter(cat[..k], fired) + When(cat[k] in fired, cat[k]) + When(cat[k + 1] in fired, cat[k + 1])
      + When(cat[k + 2] in fired, cat[k + 2]) + When(cat[k + 3] in fired, cat[k + 3])
  {
    FilterPrefix(cat, k, fired);
    FilterPrefix(cat, k + 1, fired);
    FilterPrefix(cat, k + 2, fired);
    FilterPrefix(cat, k + 3, fired);
  }

  /** Filtering a list of eight, one message after another. */
  lemma FilterEight(cat: seq<Message>, fired: set<Message>)
    requires |cat| == 8
    ensures Filter(cat, fired) ==
      When(cat[0] in fired, cat[0]) + When(cat[1] in fired, cat[1])
      + When(cat[2] in fired, cat[2]) + When(cat[3] in fired, cat[3])
      + When(cat[4] in fired, cat[4]) + When(cat[5] in fired, cat[5])
      + When(cat[6] in fired, cat[6]) + When(cat[7] in fired, cat[7])
  {
    assert Filter(cat[..4], fired) ==
      When(cat[0] in fired, cat[0]) + When(cat[1] in fired, cat[1])
      + When(cat[2] in fired, cat[2]) + When(cat[3] in fired, cat[3])
    by {
      FilterExtend4(cat, 0, fired);
      assert cat[..0] == [];
      assert [] + When(cat[0] in fired, cat[0]) == When(cat[0] in fired, cat[0]);
    }
    FilterExtend4(cat, 4, fired);
    assert cat[..8] == cat;
  }

  /** The points of the first k + 1 messages of a list that fired. */
  lemma PenaltyPrefix(cat: seq<Message>, k: nat, fired: set<Message>)
    requires k < |cat|
    ensures Penalty(Filter(cat[..k + 1], fired))
            == Penalty(Filter(cat[..k], fired)) + (if cat[k] in fired then Points(cat[k]) else 0)
  {
    FilterPrefix(cat, k, fired);
    PenaltyWhen(Filter(cat[..k], fired), cat[k] in fired, cat[k]);
  }

  /** The points of one message if its rule fired. */
  lemma PenaltyOfWhen(fires: bool, m: Message)
    ensures Penalty(When(fires, m)) == if fires then Points(m) else 0
  {
  }

  /** The points of eight messages, each listed if its rule fired. */
  lemma PenaltyOfWhens(b1: bool, m1: Message, b2: bool, m2: Message, b3: bool, m3: Message, b4: bool, m4: Message,
                       b5: bool, m5: Message, b6: bool, m6: Message, b7: bool, m7: Message, b8: bool, m8: Message)
    ensures Penalty(When(b1, m1) + When(b2, m2) + When(b3, m3) + When(b4, m4)
                    + When(b5, m5) + When(b6, m6) + When(b7, m7) + When(b8, m8))
            == (if b1 then Points(m1) else 0) + (if b2 then Points(m2) else 0)
               + (if b3 then Points(m3) else 0) + (if b4 then Points(m4) else 0)
               + (if b5 then Points(m5) else 0) + (if b6 then Points(m6) else 0)
               + (if b7 then Points(m7) else 0) + (if b8 then Points(m8) else 0)
  {
    var w1 := When(b1, m1);
    var w2 := w1 + When(b2, m2);
    var w3 := w2 + When(b3, m3);
    var w4 := w3 + When(b4, m4);
    var w5 := w4 + When(b5, m5);
    var w6 := w5 + When(b6, m6);
    var w7 := w6 + When(b7, m7);
    PenaltyOfWhen(b1, m1);
    PenaltyWhen(w1, b2, m2);
    PenaltyWhen(w2, b3, m3);
    PenaltyWhen(w3, b4, m4);
    PenaltyWhen(w4, b5, m5);
    PenaltyWhen(w5, b6, m6);
    PenaltyWhen(w6, b7, m7);
    PenaltyWhen(w7, b8, m8);
  }

  /** The points of the eight warnings, each listed if its rule fired, are
      the deductions of the rules that fired. */
  lemma RulePenalties(b1: bool, b2: bool, b3: bool, b4: bool, b5: bool, b6: bool, b7: bool, b8: bool)
    ensures Penalty(When(b1, KeepArmSteady) + When(b2, KeepShouldersLevel) + When(b3, KeepVertical)
                    + When(b4, DontLockElbow) + When(b5, LowerFully) + When(b6, CurlHigher)
                    + When(b7, ControlLift) + When(b8, ControlDescent))
            == (if b1 then 15 else 0) + (if b2 then 10 else 0) + (if b3 then 10 else 0)
               + (if b4 then 5 else 0) + (if b5 then 10 else 0) + (if b6 then 10 else 0)
               + (if b7 then 5 else 0) + (if b8 then 5 else 0)
  {
    PenaltyOfWhens(b1, KeepArmSteady, b2, KeepShouldersLevel, b3, KeepVertical, b4, DontLockElbow,
                   b5, LowerFully, b6, CurlHigher, b7, ControlLift, b8, ControlDescent);
  }

  /** The warnings of a call as the checks raise them, one check after
      another. */
  function Checked(s: CurlState, f: Frame): seq<Message>
    requires f.Valid()
  {
    var shoulder, elbow, angle := f.Shoulder(), f.Elbow(), f.ElbowAngle();
    When(ArmTravels(shoulder, elbow), KeepArmSteady)
    + When(Shrugs(s.lastShoulderY, shoulder.y), KeepShouldersLevel)
    + When(Swings(shoulder, elbow), KeepVertical)
    + When(Locked(angle), DontLockElbow) + When(ShortOfBottom(s.currentState, angle), LowerFully)
    + When(ShortOfTop(s.currentState, angle), CurlHigher)
    + When(Lifts(s.currentState, angle) && f.now - s.repStartTime < MinLiftTime, ControlLift)
    + When(Lowers(s.currentState, angle) && f.now - s.repPhaseTime < MinDescentTime, ControlDescent)
  }

  /** The points the checks of a call deduct, one check after another. */
  function CheckedCost(s: CurlState, f: Frame): int
    requires f.Valid()
  {
    var shoulder, elbow, angle := f.Shoulder(), f.Elbow(), f.ElbowAngle();
    (if ArmTravels(shoulder, elbow) then 15 else 0)
    + (if Shrugs(s.lastShoulderY, shoulder.y) then 10 else 0)
    + (if Swings(shoulder, elbow) then 10 else 0)
    + (if Locked(angle) then 5 else 0) + (if ShortOfBottom(s.currentState, angle) then 10 else 0)
    + (if ShortOfTop(s.currentState, angle) then 10 else 0)
    + (if Lifts(s.currentState, angle) && f.now - s.repStartTime < MinLiftTime then 5 else 0)
    + (if Lowers(s.currentState, angle) && f.now - s.repPhaseTime < MinDescentTime then 5 else 0)
  }

  /** The warnings of a call, one rule after another. */
  lemma WarningsInOrder(fired: set<Message>)
    ensures Filter(Warnings, fired) ==
      When(KeepArmSteady in fired, KeepArmSteady) + When(KeepShouldersLevel in fired, KeepShouldersLevel)
      + When(KeepVertical in fired, KeepVertical) + When(DontLockElbow in fired, DontLockElbow)
      + When(LowerFully in fired, LowerFully) + When(CurlHigher in fired, CurlHigher)
      + When(ControlLift in fired, ControlLift) + When(ControlDescent in fired, ControlDescent)
  {
    FilterEight(Warnings, fired);
  }

  /** The form checks raise their warnings exactly when their rules fire. */
  lemma FormChecksFire(s: CurlState, f: Frame)
    requires f.Valid()
    ensures var fired, shoulder, elbow := Warned(s, f), f.Shoulder(), f.Elbow();
      && (KeepArmSteady in fired <==> ArmTravels(shoulder, elbow))
      && (KeepShouldersLevel in fired <==> Shrugs(s.lastShoulderY, shoulder.y))
      && (KeepVertical in fired <==> Swings(shoulder, elbow))
  {
  }

  /** The range and tempo checks raise their warnings exactly when their
      rules fire. */
  lemma MotionChecksFire(s: CurlState, f: Frame)
    requires f.Valid()
    ensures var fired, angle := Warned(s, f), f.ElbowAngle();
      && (DontLockElbow in fired <==> Locked(angle))
      && (LowerFully in fired <==> ShortOfBottom(s.currentState, angle))
      && (CurlHigher in fired <==> ShortOfTop(s.currentState, angle))
      && (ControlLift in fired <==> Lifts(s.currentState, angle) && f.now - s.repStartTime < MinLiftTime)
      && (ControlDescent in fired <==> Lowers(s.currentState, angle) && f.now - s.repPhaseTime < MinDescentTime)
  {
  }

  /** Running the checks one after another raises exactly the warnings whose
      rules fire, in rule order. */
  lemma WarningSteps(s: CurlState, f: Frame)
    requires f.Valid()
    ensures Filter(Warnings, Warned(s, f)) == Checked(s, f)
  {
    WarningsInOrder(Warned(s, f));
    FormChecksFire(s, f);
    MotionChecksFire(s, f);
  }

  /** The points of the warnings the checks raise are the points they deduct. */
  lemma CheckedPenalty(s: CurlState, f: Frame)
    requires f.Valid()
    ensures Penalty(Checked(s, f)) == CheckedCost(s, f)
  {
    var shoulder, elbow, angle := f.Shoulder(), f.Elbow(), f.ElbowAngle();
    RulePenalties(ArmTravels(shoulder, elbow), Shrugs(s.lastShoulderY, shoulder.y), Swings(shoulder, elbow),
                  Locked(angle), ShortOfBottom(s.currentState, angle), ShortOfTop(s.currentState, angle),
                  Lifts(s.currentState, angle) && f.now - s.repStartTime < MinLiftTime,
                  Lowers(s.currentState, angle) && f.now - s.repPhaseTime < MinDescentTime);
  }

  /** The score the checks leave, one deduction after another, is 100 less
      the points of the warnings raised. */
  lemma ScoreSteps(s: CurlState, f: Frame)
    requires f.Valid()
    ensures RepScore(s, f) == StartScore - CheckedCost(s, f)
  {
    assert Filter(Warnings, Warned(s, f)) == Checked(s, f) by {
      WarningSteps(s, f);
    }
    CheckedPenalty(s, f);
  }

  /** The praise a call gives: on a counted rep, "Perfect form!" for a
      score of 90 or more, else "Good rep!" for 80 or more. */
  function RepPraise(phase: Phase, angle: real, score: int): (praise: seq<Message>)
    ensures |praise| <= 1
    ensures PerfectForm in praise <==> Lowers(phase, angle) && score >= PerfectScore
    ensures GoodRep in praise <==> Lowers(phase, angle) && GoodScore <= score < PerfectScore
    ensures forall m :: m in praise ==> m in Praises
  {
    if !Lowers(phase, angle) then []
    else if score >= PerfectScore then [PerfectForm]
    else if score >= GoodScore then [GoodRep]
    else []
  }

  /** What a call returns: the warnings of the checks, one after another,
      then the praise the score they leave earns. */
  lemma ResultSteps(s: CurlState, f: Frame)
    requires f.Valid()
    ensures var score := StartScore - CheckedCost(s, f);
      Evaluate(s, f).result
        == Feedback(Metrics(Next(s, f).repCount, if 0 < score then score else 0, f.ElbowAngle()),
                    Checked(s, f) + RepPraise(s.currentState, f.ElbowAngle(), score))
  {
    var fired := Fired(s, f);
    assert Filter(Warnings, fired) == Checked(s, f) by {
      FilterAgree(Warnings, fired, Warned(s, f));
      WarningSteps(s, f);
    }
    ScoreSteps(s, f);
    assert Filter(Praises, fired) == RepPraise(s.currentState, f.ElbowAngle(), RepScore(s, f)) by {
      PraisesInOrder(fired);
    }
    FilterConcat(Warnings, Praises, fired);
  }

  /** The praise of a call, best first. */
  lemma PraisesInOrder(fired: set<Message>)
    ensures Filter(Praises, fired) == When(PerfectForm in fired, PerfectForm) + When(GoodRep in fired, GoodRep)
  {
    assert Praises[..0] == [] && Praises[..2] == Praises;
    FilterPrefix(Praises, 0, fired);
    FilterPrefix(Praises, 1, fired);
    assert [] + When(PerfectForm in fired, PerfectForm) == When(PerfectForm in fired, PerfectForm);
  }

  /** Praise never costs points. */
  lemma PraisePenalty(fired: set<Message>)
    ensures Penalty(Filter(Praises, fired)) == 0
  {
    assert Praises[..0] == [] && Praises[..2] == Praises;
    PenaltyPrefix(Praises, 0, fired);
    PenaltyPrefix(Praises, 1, fired);
  }

  // What one evaluation does.

  /** A message is emitted exactly when its rule fires. */
  lemma MessagesAreFiredRules(s: CurlState, f: Frame, m: Message)
    requires f.Valid()
    ensures m in Evaluate(s, f).result.messages <==> Fires(s, f, m)
  {
    FilterMembers(Catalogue, Fired(s, f), m);
  }

  /** The messages come in the order of their rules, so none comes twice. */
  lemma MessagesInRuleOrder(s: CurlState, f: Frame)
    requires f.Valid()
    ensures Ordered(Evaluate(s, f).result.messages)
  {
    CatalogueOrdered();
    FilterOrdered(Catalogue, Fired(s, f));
  }

  /** The checks of a call deduct at most 55 points, 50 while the phase is
      down: the lock and short-extension checks exclude each other, and the
      top check and the descent rule need the phase up, the short-extension
      check and the lift rule need it down. */
  lemma CheckedCostAtMost55(s: CurlState, f: Frame)
    requires f.Valid()
    ensures 0 <= CheckedCost(s, f) <= 55
    ensures s.currentState == Down ==> CheckedCost(s, f) <= 50
  {
  }

  /** The score reported is 100 less the points of exactly the messages
      emitted; it is never below 45 (50 while the phase is down), so the
      clamp at 0 never changes it. */
  lemma ScoreIsPenalty(s: CurlState, f: Frame)
    requires f.Valid()
    ensures var r := Evaluate(s, f).result;
            r.metrics.formScore == StartScore - Penalty(r.messages) == RepScore(s, f)
    ensures StartScore - 55 <= Evaluate(s, f).result.metrics.formScore <= StartScore
    ensures s.currentState == Down ==> Evaluate(s, f).result.metrics.formScore >= StartScore - 50
  {
    var fired := Fired(s, f);
    ScoreSteps(s, f);
    CheckedCostAtMost55(s, f);
    FilterConcat(Warnings, Praises, fired);
    FilterAgree(Warnings, fired, Warned(s, f));
    PenaltyConcat(Filter(Warnings, fired), Filter(Praises, fired));
    PraisePenalty(fired);
  }

  /** The form-check warnings, in the terms of the checks that raise them. */
  lemma FormMessages(s: CurlState, f: Frame)
    requires f.Valid()
    ensures var msgs, shoulder, elbow := Evaluate(s, f).result.messages, f.Shoulder(), f.Elbow();
      && (KeepArmSteady in msgs <==> SquaredDistance(elbow, shoulder) > 80.0 * 80.0)
      && (KeepShouldersLevel in msgs <==> s.lastShoulderY.Some? && Abs(shoulder.y - s.lastShoulderY.value) > 30.0)
      && (KeepVertical in msgs <==> Abs(shoulder.x - elbow.x) > 70.0)
  {
    MessagesAreFiredRules(s, f, KeepArmSteady);
    MessagesAreFiredRules(s, f, KeepShouldersLevel);
    MessagesAreFiredRules(s, f, KeepVertical);
  }

  /** The range-of-motion warnings, in the terms of the checks that raise them. */
  lemma RangeMessages(s: CurlState, f: Frame)
    requires f.Valid()
    ensures var msgs, angle := Evaluate(s, f).result.messages, f.ElbowAngle();
      && (DontLockElbow in msgs <==> angle > 170.0)
      && (LowerFully in msgs <==> angle <= 170.0 && angle < 160.0 && s.currentState == Down)
      && (CurlHigher in msgs <==> s.currentState == Up && angle > 20.0)
  {
    MessagesAreFiredRules(s, f, DontLockElbow);
    MessagesAreFiredRules(s, f, LowerFully);
    MessagesAreFiredRules(s, f, CurlHigher);
  }

  /** The tempo warnings, in the terms of the transitions that raise them. */
  lemma TempoMessages(s: CurlState, f: Frame)
    requires f.Valid()
    ensures var msgs, angle := Evaluate(s, f).result.messages, f.ElbowAngle();
      && (ControlLift in msgs <==> s.currentState == Down && angle < 60.0 && f.now - s.repStartTime < 1.0)
      && (ControlDescent in msgs <==> s.currentState == Up && angle > 130.0 && f.now - s.repPhaseTime < 1.5)
  {
    MessagesAreFiredRules(s, f, ControlLift);
    MessagesAreFiredRules(s, f, ControlDescent);
  }

  /** "Don't lock your elbow" and "Lower the weight fully" never come together. */
  lemma LockAndLowerFullyExclusive(s: CurlState, f: Frame)
    requires f.Valid()
    ensures !(DontLockElbow in Evaluate(s, f).result.messages && LowerFully in Evaluate(s, f).result.messages)
  {
    RangeMessages(s, f);
  }

  /** The shoulder check needs a remembered height, so it never fires on the
      first call of a session. */
  lemma FirstCallNeverShrugs(startClock: real, phaseClock: real, f: Frame)
    requires f.Valid()
    ensures KeepShouldersLevel !in Evaluate(Start(startClock, phaseClock), f).result.messages
    ensures Evaluate(Start(startClock, phaseClock), f).next.lastShoulderY == Some(f.Shoulder().y)
  {
    MessagesAreFiredRules(Start(startClock, phaseClock), f, KeepShouldersLevel);
  }

  /** Praise is given only on the call that counts a rep, never both kinds,
      and by the score the rep earned after every deduction of the call. */
  lemma PraiseOnlyOnRep(s: CurlState, f: Frame)
    requires f.Valid()
    ensures var o := Evaluate(s, f);
      && (PerfectForm in o.result.messages || GoodRep in o.result.messages ==> o.next.repCount == s.repCount + 1)
      && !(PerfectForm in o.result.messages && GoodRep in o.result.messages)
      && (o.next.repCount == s.repCount + 1 ==>
           && (PerfectForm in o.result.messages <==> o.result.metrics.formScore >= 90)
           && (GoodRep in o.result.messages <==> 80 <= o.result.metrics.formScore < 90))
  {
    MessagesAreFiredRules(s, f, PerfectForm);
    MessagesAreFiredRules(s, f, GoodRep);
    ScoreIsPenalty(s, f);
  }

  /** The rep counter grows by exactly one when the phase was up and the
      elbow opens past 130 degrees, and stays put on every other call; the
      count reported is the new one. */
  lemma RepCounting(s: CurlState, f: Frame)
    requires f.Valid()
    ensures var o := Evaluate(s, f);
      && o.next.repCount == (if s.currentState == Up && f.ElbowAngle() > 130.0 then s.repCount + 1 else s.repCount)
      && o.next.repCount >= s.repCount
      && o.result.metrics.reps == o.next.repCount
  {
  }

  /** The phase goes down to up exactly when the elbow closes below 60
      degrees and up to down exactly when it opens past 130, so a call makes
      at most one transition. */
  lemma PhaseTransitions(s: CurlState, f: Frame)
    requires f.Valid()
    ensures var next, angle := Evaluate(s, f).next, f.ElbowAngle();
      && (s.currentState == Down ==> (next.currentState == Up <==> angle < 60.0))
      && (s.currentState == Up ==> (next.currentState == Down <==> angle > 130.0))
  {
  }

  /** A lift restarts both timers, a descent only the rep timer, and a call
      with no transition leaves both alone. */
  lemma Timers(s: CurlState, f: Frame)
    requires f.Valid()
    ensures var next, angle := Evaluate(s, f).next, f.ElbowAngle();
      && (Lifts(s.currentState, angle) ==> next.repStartTime == f.now && next.repPhaseTime == f.now)
      && (Lowers(s.currentState, angle) ==> next.repStartTime == f.now && next.repPhaseTime == s.repPhaseTime)
      && (next.currentState == s.currentState ==>
            next.repStartTime == s.repStartTime && next.repPhaseTime == s.repPhaseTime)
  {
  }

  /** Every call remembers the shoulder height it saw, whether or not the
      shoulder check fired. */
  lemma ShoulderRemembered(s: CurlState, f: Frame)
    requires f.Valid()
    ensures Evaluate(s, f).next.lastShoulderY == Some(f.Shoulder().y)
  {
  }

  /** Two lists in rule order with the same messages are the same list. */
  lemma {:induction false} OrderedByMembers(a: seq<Message>, b: seq<Message>)
    requires Ordered(a) && Ordered(b)
    requires forall m :: m in a <==> m in b
    ensures a == b
  {
    assert a != [] ==> a[0] in a;
    assert b != [] ==> b[0] in b;
    if a == [] {
    } else {
      assert a[0] in b;
      assert b[0] in a;
      var i :| 0 <= i < |a| && a[i] == b[0];
      var j :| 0 <= j < |b| && b[j] == a[0];
      assert Rank(a[0]) <= Rank(a[i]);
      assert Rank(b[0]) <= Rank(b[j]);
      assert a[0] == b[0] by {
        assert Catalogue[Rank(a[0])] == a[0] && Catalogue[Rank(b[0])] == b[0];
      }
      forall m
        ensures m in a[1..] <==> m in b[1..]
      {
        OrderedTail(a, m);
        OrderedTail(b, m);
      }
      OrderedByMembers(a[1..], b[1..]);
      assert a == [a[0]] + a[1..] && b == [b[0]] + b[1..];
    }
  }

  /** The tail of a list in rule order holds every message but its head. */
  lemma OrderedTail(a: seq<Message>, m: Message)
    requires Ordered(a) && a != []
    ensures Ordered(a[1..])
    ensures m in a[1..] <==> m in a && m != a[0]
  {
  }

  /** The top check still sees the phase up on the call that counts a rep,
      so "Curl higher" costs every counted rep 10 points. */
  lemma RepScoreAtMost90(s: CurlState, f: Frame)
    requires f.Valid()
    requires Lowers(s.currentState, f.ElbowAngle())
    ensures CurlHigher in Warned(s, f)
    ensures RepScore(s, f) <= 90
  {
    ScoreSteps(s, f);
  }

  /** A rep that scores 90 has no warning but "Curl higher". */
  lemma PerfectRepWarnings(s: CurlState, f: Frame)
    requires f.Valid()
    requires Lowers(s.currentState, f.ElbowAngle()) && RepScore(s, f) >= PerfectScore
    ensures Warned(s, f) == {CurlHigher}
  {
    ScoreSteps(s, f);
  }

  /** The rules that fire on a rep that scores 90. */
  lemma PerfectRepFires(s: CurlState, f: Frame, m: Message)
    requires f.Valid()
    requires Lowers(s.currentState, f.ElbowAngle()) && RepScore(s, f) >= PerfectScore
    ensures Fires(s, f, m) <==> m == CurlHigher || m == PerfectForm
  {
    PerfectRepWarnings(s, f);
    if m in Warnings {
      assert Warns(s, f, m) <==> m in Warned(s, f);
    }
  }

  /** A rep earns "Perfect form!" only with exactly one warning beside it,
      "Curl higher", and no counted rep scores above 90. */
  lemma PerfectRepMessages(s: CurlState, f: Frame)
    requires f.Valid()
    ensures Lowers(s.currentState, f.ElbowAngle()) ==> Evaluate(s, f).result.metrics.formScore <= 90
    ensures PerfectForm in Evaluate(s, f).result.messages ==>
              Evaluate(s, f).result.messages == [CurlHigher, PerfectForm]
  {
    var msgs := Evaluate(s, f).result.messages;
    ScoreIsPenalty(s, f);
    if Lowers(s.currentState, f.ElbowAngle()) {
      RepScoreAtMost90(s, f);
    }
    if PerfectForm in msgs {
      MessagesAreFiredRules(s, f, PerfectForm);
      PerfectRepWarnings(s, f);
      forall m
        ensures m in msgs <==> m in [CurlHigher, PerfectForm]
      {
        MessagesAreFiredRules(s, f, m);
        PerfectRepFires(s, f, m);
      }
      MessagesInRuleOrder(s, f);
      OrderedByMembers(msgs, [CurlHigher, PerfectForm]);
    }
  }

  /** The lift transition needs the elbow below 60 degrees while the phase is
      down, where the range check also finds the arm short of full extension,
      so every lift is told to lower the weight fully. */
  lemma LiftWarnsLowerFully(s: CurlState, f: Frame)
    requires f.Valid()
    requires Lifts(s.currentState, f.ElbowAngle())
    ensures LowerFully in Evaluate(s, f).result.messages
    ensures Evaluate(s, f).result.metrics.formScore <= 90
  {
    MessagesAreFiredRules(s, f, LowerFully);
    ScoreIsPenalty(s, f);
    ScoreSteps(s, f);
  }
}
