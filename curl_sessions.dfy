/** A session is the evaluator called once per video frame. These lemmas
    follow the tracked state across any number of calls. */
module CurlSessions {
  import opened Wrappers
  import opened CurlEvaluation

  predicate AllValid(frames: seq<Frame>)
  {
    forall i :: 0 <= i < |frames| ==> frames[i].Valid()
  }

  /** The state after evaluating the frames in order. */
  function Run(s: CurlState, frames: seq<Frame>): CurlState
    requires AllValid(frames)
    decreases |frames|
  {
    if frames == [] then s else Run(Next(s, frames[0]), frames[1..])
  }

  /** 1 while the phase is up, else 0. */
  function Raised(s: CurlState): nat
  {
    if s.currentState == Up then 1 else 0
  }

  /** The rep counter never goes down over a session. */
  lemma {:induction false} RepsNeverDecrease(s: CurlState, frames: seq<Frame>)
    requires AllValid(frames)
    ensures Run(s, frames).repCount >= s.repCount
    decreases |frames|
  {
    if frames != [] {
      RepsNeverDecrease(Next(s, frames[0]), frames[1..]);
    }
  }

  /** Every rep needs a frame that lifts and a later frame that lowers, so a
      session of n frames counts at most (n + 1) / 2 reps, and at most n / 2
      when it starts with the phase down. */
  lemma {:induction false} RepsNeedTwoFrames(s: CurlState, frames: seq<Frame>)
    requires AllValid(frames)
    ensures var t := Run(s, frames);
      2 * (t.repCount - s.repCount) + Raised(t) <= |frames| + Raised(s)
    decreases |frames|
  {
    if frames != [] {
      RepsNeedTwoFrames(Next(s, frames[0]), frames[1..]);
    }
  }

  /** A frame with the elbow closed below 60 degrees while the phase is down,
      then one with it opened past 130, count exactly one rep and leave the
      phase down again. */
  lemma FullCycleCountsOneRep(s: CurlState, lift: Frame, lower: Frame)
    requires lift.Valid() && lower.Valid()
    requires s.currentState == Down && lift.ElbowAngle() < 60.0 && lower.ElbowAngle() > 130.0
    ensures Run(s, [lift, lower]).repCount == s.repCount + 1
    ensures Run(s, [lift, lower]).currentState == Down
  {
    var mid := Next(s, lift);
    assert [lift, lower][1..] == [lower];
    assert Run(s, [lift, lower]) == Run(mid, [lower]);
    assert [lower][1..] == [];
    assert Run(mid, [lower]) == Next(mid, lower);
  }

  /** After a session of at least one frame, the remembered shoulder height is
      the one seen in the last frame. */
  lemma {:induction false} LastShoulderRemembered(s: CurlState, frames: seq<Frame>)
    requires AllValid(frames) && frames != []
    ensures Run(s, frames).lastShoulderY == Some(frames[|frames| - 1].Shoulder().y)
    decreases |frames|
  {
    if |frames| > 1 {
      LastShoulderRemembered(Next(s, frames[0]), frames[1..]);
      assert frames[1..][|frames[1..]| - 1] == frames[|frames| - 1];
    }
  }

  /** A frame that cannot move the phase machine out of the given phase:
      the elbow stays at 60 degrees or more while down, and at 130 or less
      while up. */
  predicate Keeps(phase: Phase, f: Frame)
  {
    f.Valid()
    && (phase == Down ==> f.ElbowAngle() >= LiftAngle)
    && (phase == Up ==> f.ElbowAngle() <= LowerAngle)
  }

  predicate AllKeep(phase: Phase, frames: seq<Frame>)
  {
    forall i :: 0 <= i < |frames| ==> Keeps(phase, frames[i])
  }

  /** Frames between the two thresholds leave the phase and the rep count
      alone, however many there are: the gap between 60 and 130 degrees is
      what stops one curl from counting twice. */
  lemma {:induction false} HoldsPhase(s: CurlState, frames: seq<Frame>)
    requires AllKeep(s.currentState, frames)
    ensures AllValid(frames)
    ensures Run(s, frames).currentState == s.currentState
    ensures Run(s, frames).repCount == s.repCount
    decreases |frames|
  {
    if frames != [] {
      assert Keeps(s.currentState, frames[0]);
      var next := Next(s, frames[0]);
      assert AllKeep(next.currentState, frames[1..]) by {
        forall i | 0 <= i < |frames[1..]|
          ensures Keeps(next.currentState, frames[1..][i])
        {
          assert frames[1..][i] == frames[i + 1];
        }
      }
      HoldsPhase(next, frames[1..]);
    }
  }

  /** Evaluating two runs of frames one after the other is evaluating their
      concatenation. */
  lemma {:induction false} RunConcat(s: CurlState, a: seq<Frame>, b: seq<Frame>)
    requires AllValid(a) && AllValid(b)
    ensures AllValid(a + b)
    ensures Run(s, a + b) == Run(Run(s, a), b)
    decreases |a|
  {
    if a == [] {
      assert a + b == b;
    } else {
      assert (a + b)[0] == a[0];
      assert (a + b)[1..] == a[1..] + b;
      RunConcat(Next(s, a[0]), a[1..], b);
    }
  }

  /** Evaluating a single frame is one call of the evaluator. */
  lemma RunOne(s: CurlState, f: Frame)
    requires f.Valid()
    ensures Run(s, [f]) == Next(s, f)
  {
  }

  /** A whole curl, as the camera sees it: from down, any frames short of the
      lift, one frame below 60 degrees, any frames short of the descent, one
      frame past 130 degrees, and any frames short of the next lift. Exactly
      one rep is counted and the phase ends down. */
  lemma SmoothCycle(s: CurlState, d1: seq<Frame>, lift: Frame, u1: seq<Frame>, lower: Frame, d2: seq<Frame>)
    requires s.currentState == Down
    requires AllKeep(Down, d1) && AllKeep(Up, u1) && AllKeep(Down, d2)
    requires lift.Valid() && lift.ElbowAngle() < 60.0
    requires lower.Valid() && lower.ElbowAngle() > 130.0
    ensures AllValid(d1 + [lift] + u1 + [lower] + d2)
    ensures Run(s, d1 + [lift] + u1 + [lower] + d2).repCount == s.repCount + 1
    ensures Run(s, d1 + [lift] + u1 + [lower] + d2).currentState == Down
  {
    HoldsPhase(s, d1);
    var s1 := Run(s, d1);
    var s2 := Run(s1, [lift]);
    RunOne(s1, lift);
    HoldsPhase(s2, u1);
    var s3 := Run(s2, u1);
    var s4 := Run(s3, [lower]);
    RunOne(s3, lower);
    HoldsPhase(s4, d2);
    RunConcat(s, d1, [lift]);
    RunConcat(s, d1 + [lift], u1);
    RunConcat(s, d1 + [lift] + u1, [lower]);
    RunConcat(s, d1 + [lift] + u1 + [lower], d2);
  }
}
