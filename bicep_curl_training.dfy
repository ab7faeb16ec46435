/** The bicep-curl evaluator as the object it is: fields updated in place by
    each evaluation, proved to compute exactly what CurlEvaluation.Evaluate
    specifies. */
module BicepCurlTraining {
  import opened Wrappers
  import opened Geometry
  import opened CurlEvaluation

  class BicepCurl {
    var repCount: nat
    var currentState: Phase
    var repStartTime: real
    /** Written at construction and reset, never read. */
    var lastAngle: int
    /** Written at construction and reset, never read; the score an
        evaluation reports is its own. */
    var formScore: int
    var lastShoulderY: Option<real>
    /** Written at construction and reset, never read. */
    var badRepStreak: int
    var repPhaseTime: real

    /** The fields an evaluation reads and writes. */
    function State(): CurlState
      reads this
    {
      CurlState(repCount, currentState, repStartTime, repPhaseTime, lastShoulderY)
    }

    /** A new session; the two clock readings are those taken for the rep
        timer and the phase timer. */
    constructor(startClock: real, phaseClock: real)
      ensures State() == Start(startClock, phaseClock)
      ensures lastAngle == 0 && formScore == StartScore && badRepStreak == 0
    {
      repCount := 0;
      currentState := Down;
      repStartTime := startClock;
      lastAngle := 0;
      formScore := StartScore;
      lastShoulderY := None;
      badRepStreak := 0;
      repPhaseTime := phaseClock;
    }

    /** Evaluates one frame: runs the form checks in order, advances the
        phase machine and counts the rep, and returns the metrics and the
        messages. */
    method EvaluateCurl(keypoints: seq<Keypoint>, now: real, shoulderHeading: real, wristHeading: real)
      returns (result: Feedback)
      requires Frame(keypoints, now, shoulderHeading, wristHeading).Valid()
      modifies this
      ensures State() == Evaluate(old(State()), Frame(keypoints, now, shoulderHeading, wristHeading)).next
      ensures result == Evaluate(old(State()), Frame(keypoints, now, shoulderHeading, wristHeading)).result
      ensures lastAngle == old(lastAngle) && formScore == old(formScore) && badRepStreak == old(badRepStreak)
    {
      ghost var s0 := State();
      ghost var f := Frame(keypoints, now, shoulderHeading, wristHeading);
      var shoulder, elbow := keypoints[5], keypoints[7];
      var feedback, score := CheckForm(shoulder, elbow);
      var elbowAngle := CalculateAngle(shoulderHeading, wristHeading);
      feedback, score := CheckRange(elbowAngle, feedback, score);
      feedback, score := AdvancePhase(elbowAngle, now, feedback, score);
      ResultSteps(s0, f);
      result := Feedback(Metrics(repCount, if 0 < score then score else 0, elbowAngle), feedback);
    }

    /** The form checks: upper arm steady, shoulders level (against the
        height remembered from the previous call, which is then replaced),
        movement vertical. Returns their warnings and the score they leave. */
    method CheckForm(shoulder: Keypoint, elbow: Keypoint) returns (feedback: seq<Message>, score: int)
      modifies this`lastShoulderY
      ensures feedback == When(ArmTravels(shoulder, elbow), KeepArmSteady)
                          + When(Shrugs(old(lastShoulderY), shoulder.y), KeepShouldersLevel)
                          + When(Swings(shoulder, elbow), KeepVertical)
      ensures score == StartScore - ((if ArmTravels(shoulder, elbow) then 15 else 0)
                                     + (if Shrugs(old(lastShoulderY), shoulder.y) then 10 else 0)
                                     + (if Swings(shoulder, elbow) then 10 else 0))
      ensures lastShoulderY == Some(shoulder.y)
    {
      feedback := [];
      score := StartScore;
      if SquaredDistance(elbow, shoulder) > ElbowTravelLimit * ElbowTravelLimit {
        score := score - 15;
        feedback := feedback + [KeepArmSteady];
      }
      if lastShoulderY.Some? {
        var shoulderDelta := Abs(shoulder.y - lastShoulderY.value);
        if shoulderDelta > ShoulderDeltaLimit {
          score := score - 10;
          feedback := feedback + [KeepShouldersLevel];
        }
      }
      lastShoulderY := Some(shoulder.y);
      if Abs(shoulder.x - elbow.x) > LateralLimit {
        score := score - 10;
        feedback := feedback + [KeepVertical];
      }
    }

    /** The range-of-motion checks: a locked elbow, else an arm short of full
        extension while the phase is down; then an arm short of the top while
        the phase is up. */
    method CheckRange(elbowAngle: real, feedback0: seq<Message>, score0: int) returns (feedback: seq<Message>, score: int)
      ensures feedback == feedback0 + When(Locked(elbowAngle), DontLockElbow)
                          + When(ShortOfBottom(currentState, elbowAngle), LowerFully)
                          + When(ShortOfTop(currentState, elbowAngle), CurlHigher)
      ensures score == score0 - ((if Locked(elbowAngle) then 5 else 0)
                                 + (if ShortOfBottom(currentState, elbowAngle) then 10 else 0)
                                 + (if ShortOfTop(currentState, elbowAngle) then 10 else 0))
    {
      feedback, score := feedback0, score0;
      if elbowAngle > LockAngle {
        score := score - 5;
        feedback := feedback + [DontLockElbow];
      } else if elbowAngle < ExtendedAngle && currentState == Down {
        score := score - 10;
        feedback := feedback + [LowerFully];
      }
      if currentState == Up && elbowAngle > TopAngle {
        score := score - 10;
        feedback := feedback + [CurlHigher];
      }
    }

    /** Tempo and rep counting: a lift restarts both timers and warns if it
        came too soon after the last rep; a descent warns if the lift before
        it was held too briefly, counts the rep, praises it by the score and
        restarts the rep timer. */
    method AdvancePhase(elbowAngle: real, now: real, feedback0: seq<Message>, score0: int)
      returns (feedback: seq<Message>, score: int)
      modifies this`currentState, this`repStartTime, this`repPhaseTime, this`repCount
      ensures var lifts, lowers := Lifts(old(currentState), elbowAngle), Lowers(old(currentState), elbowAngle);
        var hurriedLift := lifts && now - old(repStartTime) < MinLiftTime;
        var hurriedDescent := lowers && now - old(repPhaseTime) < MinDescentTime;
        && score == score0 - ((if hurriedLift then 5 else 0) + (if hurriedDescent then 5 else 0))
        && feedback == feedback0 + When(hurriedLift, ControlLift) + When(hurriedDescent, ControlDescent)
                       + RepPraise(old(currentState), elbowAngle, score)
        && repCount == (if lowers then old(repCount) + 1 else old(repCount))
        && currentState == (if lifts then Up else if lowers then Down else old(currentState))
        && repStartTime == (if lifts || lowers then now else old(repStartTime))
        && repPhaseTime == (if lifts then now else old(repPhaseTime))
    {
      feedback, score := feedback0, score0;
      var currentTime := now;
      var repTime := currentTime - repStartTime;
      if currentState == Down && elbowAngle < LiftAngle {
        if repTime < MinLiftTime {
          score := score - 5;
          feedback := feedback + [ControlLift];
        }
        currentState := Up;
        repStartTime := currentTime;
        repPhaseTime := currentTime;
      } else if currentState == Up && elbowAngle > LowerAngle {
        var phaseTime := currentTime - repPhaseTime;
        if phaseTime < MinDescentTime {
          score := score - 5;
          feedback := feedback + [ControlDescent];
        }
        repCount := repCount + 1;
        if score >= PerfectScore {
          feedback := feedback + [PerfectForm];
        } else if score >= GoodScore {
          feedback := feedback + [GoodRep];
        }
        currentState := Down;
        repStartTime := currentTime;
      }
    }

    /** Puts every field back to its start-of-session value. The new state
        does not depend on the old one, so a second reset changes nothing
        a first one has not. */
    method ResetData(startClock: real, phaseClock: real)
      modifies this
      ensures State() == Start(startClock, phaseClock)
      ensures lastAngle == 0 && formScore == StartScore && badRepStreak == 0
    {
      repCount := 0;
      currentState := Down;
      repStartTime := startClock;
      lastAngle := 0;
      formScore := StartScore;
      lastShoulderY := None;
      badRepStreak := 0;
      repPhaseTime := phaseClock;
    }
  }
}
