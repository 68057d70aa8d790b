/**
 * The experiment object: its per-trial flags and saccade list, updated in
 * place by `trial_prep`, `wait_time`, `display_refresh`, `record_saccades`,
 * `trial` and `trial_clean_up`. Eye tracker, keyboard, clock and database are
 * inputs: gaze samples, key sets, clock readings and event queues.
 */
module Experiment {
  import opened Wrappers
  import opened Geometry
  import opened Conditions
  import opened Saccades

  /** The SDL keycode of the spacebar, the designated response key. */
  const SPACE_KEYCODE := 32

  /**
   * One pass of a pre-target wait loop: the trial clock read by
   * `evm.before`, then the gaze sample and the keys in the pumped event queue
   * that `wait_time` reads.
   */
  datatype WaitSample = WaitSample(elapsed: int, gaze: Point, keys: set<int>)

  /** What the environment supplies to one trial. */
  datatype TrialInput = TrialInput(
    waits: seq<WaitSample>,      // the pre-target wait loops
    targetOnset: int,            // the tracker clock at target onset
    polls: seq<SaccadePoll>,     // the saccade polling loop (saccade condition)
    rcGazes: seq<Point>,         // gaze at each refresh of the response collector (keypress condition)
    keypressRt: KeypressRt)      // the keypress listener's answer (keypress condition)

  /** A trial either is aborted and recycled, or completes with its result and feedback. */
  datatype TrialOutcome =
    | Aborted(error: ErrorRecord, message: string)
    | Completed(result: TrialResult, feedback: Option<string>)

  /** A logged row of the `saccades` table: a stored record without its end time. */
  datatype SaccadeRow = SaccadeRow(
    trialId: int,
    participantId: int,
    rt: int,
    accuracy: Accuracy,
    distFromTarget: int,
    startX: int,
    startY: int,
    endX: int,
    endY: int,
    duration: int)

  /**
   * What `wait_time` does while the target has not appeared: a gaze outside
   * the drift-correct circle aborts with `eye` before any key is looked at;
   * otherwise the spacebar aborts with `early` and any other key with `key`.
   */
  function WaitError(inDrift: bool, keys: set<int>): (r: Option<ErrorKind>)
    ensures r == None <==> inDrift && keys == {}
    ensures !inDrift ==> r == Some(Eye)
    ensures inDrift && SPACE_KEYCODE in keys ==> r == Some(Early)
    ensures inDrift && keys != {} && SPACE_KEYCODE !in keys ==> r == Some(Key)
  {
    if !inDrift then Some(Eye)
    else if keys != {} then
      if SPACE_KEYCODE in keys then Some(Early) else Some(Key)
    else None
  }

  /** The abort a single wait sample causes, if any. */
  function Violation(center: Point, boundary: nat, w: WaitSample): Option<ErrorKind>
  {
    WaitError(WithinCircle(center, boundary, w.gaze), w.keys)
  }

  /**
   * The abort of the pre-target wait: the violation of the first offending
   * sample among those read before the clock reaches target onset.
   */
  function FirstWaitError(center: Point, boundary: nat, waits: seq<WaitSample>, from: nat): (r: Option<ErrorKind>)
    requires from <= |waits|
    ensures r.Some? ==> exists j :: from <= j < |waits| && Before(TargetOn, waits[j].elapsed) &&
                                    Violation(center, boundary, waits[j]) == r
    decreases |waits| - from
  {
    if from == |waits| || !Before(TargetOn, waits[from].elapsed) then None
    else if Violation(center, boundary, waits[from]).Some? then Violation(center, boundary, waits[from])
    else FirstWaitError(center, boundary, waits, from + 1)
  }

  /**
   * Sample `j` is the first offending one from `from` on: every sample up to
   * it was read before target onset, the ones before it were clean, and it
   * violates with `k`.
   */
  predicate FirstViolationAt(center: Point, boundary: nat, waits: seq<WaitSample>, from: nat, j: int,
                             k: ErrorKind)
  {
    && from <= j < |waits|
    && (forall i :: from <= i <= j ==> Before(TargetOn, waits[i].elapsed))
    && (forall i :: from <= i < j ==> Violation(center, boundary, waits[i]) == None)
    && Violation(center, boundary, waits[j]) == Some(k)
  }

  /** The first offending sample from `from` on is the abort `FirstWaitError` reports. */
  lemma {:induction false} FirstViolationIsReported(center: Point, boundary: nat, waits: seq<WaitSample>,
                                                    from: nat, j: int, k: ErrorKind)
    requires FirstViolationAt(center, boundary, waits, from, j, k)
    ensures FirstWaitError(center, boundary, waits, from) == Some(k)
    decreases j - from
  {
    assert Before(TargetOn, waits[from].elapsed);
    if from < j {
      assert Violation(center, boundary, waits[from]) == None;
      assert FirstViolationAt(center, boundary, waits, from + 1, j, k);
      FirstViolationIsReported(center, boundary, waits, from + 1, j, k);
    }
  }

  /** A reported abort comes from a first offending sample. */
  lemma {:induction false} ReportedIsFirstViolation(center: Point, boundary: nat, waits: seq<WaitSample>,
                                                    from: nat, k: ErrorKind) returns (j: int)
    requires from <= |waits|
    requires FirstWaitError(center, boundary, waits, from) == Some(k)
    ensures FirstViolationAt(center, boundary, waits, from, j, k)
    decreases |waits| - from
  {
    if Violation(center, boundary, waits[from]).Some? {
      j := from;
    } else {
      j := ReportedIsFirstViolation(center, boundary, waits, from + 1, k);
    }
  }

  /**
   * The pre-target wait aborts with `k` exactly when some sample read before
   * target onset violates with `k` and every earlier one was clean: nothing
   * after the first violation is looked at.
   */
  lemma FirstWaitErrorIsFirstViolation(center: Point, boundary: nat, waits: seq<WaitSample>, from: nat,
                                       k: ErrorKind)
    requires from <= |waits|
    ensures FirstWaitError(center, boundary, waits, from) == Some(k) <==>
            exists j :: FirstViolationAt(center, boundary, waits, from, j, k)
  {
    if FirstWaitError(center, boundary, waits, from) == Some(k) {
      var j := ReportedIsFirstViolation(center, boundary, waits, from, k);
    }
    forall j | FirstViolationAt(center, boundary, waits, from, j, k)
      ensures FirstWaitError(center, boundary, waits, from) == Some(k)
    {
      FirstViolationIsReported(center, boundary, waits, from, j, k);
    }
  }

  /** The clock reaches target onset within the modelled wait samples. */
  predicate ReachesTargetOnset(waits: seq<WaitSample>)
  {
    exists j :: 0 <= j < |waits| && !Before(TargetOn, waits[j].elapsed)
  }

  /** The logged row of a stored saccade: every field except `end_time`. */
  function LogRow(r: SaccadeRecord, trialId: int, participantId: int): (row: SaccadeRow)
    ensures row.trialId == trialId && row.participantId == participantId
  {
    SaccadeRow(trialId, participantId, r.rt, r.accuracy, r.distFromTarget,
               r.startX, r.startY, r.endX, r.endY, r.duration)
  }

  /** Two records log the same row exactly when they differ at most in their end time. */
  lemma LogRowDropsOnlyEndTime(a: SaccadeRecord, b: SaccadeRecord, trialId: int, participantId: int)
    ensures LogRow(a, trialId, participantId) == LogRow(b, trialId, participantId) <==>
            a.(endTime := 0) == b.(endTime := 0)
  {
    if LogRow(a, trialId, participantId) == LogRow(b, trialId, participantId) {
      assert a.rt == b.rt && a.accuracy == b.accuracy && a.duration == b.duration;
    }
  }

  class CueingExperiment {
    const cond: ResponseCondition
    /** `P.screen_c` */
    const center: Point
    /** `deg_to_px(4.8)`: distance from the centre to the placeholder centres. */
    const offset: nat
    /** `deg_to_px(3.0)`: radius of the fixation and target boundaries. */
    const gazeBoundary: nat

    var factors: Factors
    var cueLoc: Point
    var box1Loc: Point
    var box2Loc: Point
    var targetTrial: bool
    var targetLoc: Point

    var beforeTarget: bool
    var targetAcquired: bool
    var movedEyesDuringRc: bool
    var saccades: seq<SaccadeRecord>

    /** `setup`: the session's response condition, screen centre and sizes. */
    constructor (cond: ResponseCondition, center: Point, offset: nat, gazeBoundary: nat)
      ensures this.cond == cond && this.center == center
      ensures this.offset == offset && this.gazeBoundary == gazeBoundary
      ensures saccades == [] && !targetAcquired
    {
      this.cond := cond;
      this.center := center;
      this.offset := offset;
      this.gazeBoundary := gazeBoundary;
      factors := Factors(Horizontal, TopLeft, CuedLocation);
      cueLoc, box1Loc, box2Loc, targetLoc := center, center, center, center;
      targetTrial := false;
      beforeTarget, targetAcquired, movedEyesDuringRc := false, false, false;
      saccades := [];
    }

    /** The gaze is inside the `drift_correct` circle around the screen centre. */
    predicate InDrift(gaze: Point)
    {
      WithinCircle(center, gazeBoundary, gaze)
    }

    /** The flags as `trial_prep` leaves them and `trial` expects them. */
    predicate Prepared()
      reads this
    {
      beforeTarget && !targetAcquired && !movedEyesDuringRc && saccades == []
    }

    /**
     * `trial_prep`: place cue, boxes and target for the trial's factors and
     * reset the flags; a catch trial has no target location. The two display
     * refreshes around the drift check only draw, since `before_target` holds.
     */
    method TrialPrep(f: Factors)
      modifies this
      ensures factors == f
      ensures cueLoc == Location(center, offset, f.cue)
      ensures (box1Loc, box2Loc) == BoxPositions(center, offset, f.alignment)
      ensures targetTrial <==> f.target != Catch
      ensures targetTrial ==> Some(targetLoc) == GetTargetLocation(center, offset, f.alignment, f.cue, f.target)
      ensures !targetTrial ==> targetLoc == old(targetLoc)
      ensures beforeTarget && !targetAcquired && !movedEyesDuringRc
      ensures saccades == old(saccades)
    {
      var boxes := BoxPositions(center, offset, f.alignment);
      factors, cueLoc, box1Loc, box2Loc := f, Location(center, offset, f.cue), boxes.0, boxes.1;
      PlaceTarget(f);
      beforeTarget, targetAcquired, movedEyesDuringRc := true, false, false;
    }

    /** The target half of `trial_prep`: only a trial with a target gets a location. */
    method PlaceTarget(f: Factors)
      modifies this`targetTrial, this`targetLoc
      ensures targetTrial <==> f.target != Catch
      ensures targetTrial ==> Some(targetLoc) == GetTargetLocation(center, offset, f.alignment, f.cue, f.target)
      ensures !targetTrial ==> targetLoc == old(targetLoc)
    {
      targetTrial := f.target != Catch;
      if targetTrial {
        var placed := GetTargetLocation(center, offset, f.alignment, f.cue, f.target);
        targetLoc := placed.value;
      }
    }

    /**
     * `display_refresh`, flag logic only. In the keypress condition, once the
     * target is up, a gaze outside the fixation circle marks the eyes as
     * moved. The first refresh called with `target` set ends `before_target`,
     * whether or not a target is drawn (a catch trial draws none).
     */
    method DisplayRefresh(target: bool, gaze: Point)
      modifies this`beforeTarget, this`movedEyesDuringRc
      ensures beforeTarget == (old(beforeTarget) && !target)
      ensures movedEyesDuringRc ==
              (old(movedEyesDuringRc) || (cond == Keypress && !old(beforeTarget) && !InDrift(gaze)))
    {
      if cond == Keypress && !beforeTarget {
        if !InDrift(gaze) {
          movedEyesDuringRc := true;
        }
      }
      if target {
        if beforeTarget {
          beforeTarget := false;
        }
      }
    }

    /** `wait_time`: the abort one poll of a pre-target wait causes, if any. */
    method WaitTime(gaze: Point, keys: set<int>) returns (err: Option<ErrorKind>)
      ensures !beforeTarget ==> err == None
      ensures beforeTarget ==> err == WaitError(InDrift(gaze), keys)
    {
      err := None;
      if beforeTarget {
        if !InDrift(gaze) {
          return Some(Eye);
        }
        if keys != {} {
          if SPACE_KEYCODE in keys {
            return Some(Early);
          } else {
            return Some(Key);
          }
        }
      }
    }

    /** `log_and_recycle_trial`: the error row and the message of the abort. */
    function LogAndRecycleTrial(s: Session, kind: ErrorKind): (r: TrialOutcome)
      reads this
      ensures r.Aborted? && r.error.errType == kind && r.message == ErrMsg(cond, kind)
      ensures r.error.cue == factors.cue && r.error.target == factors.target
      ensures r.error.alignment == factors.alignment && r.error.sessionType == cond
      ensures r.error.participantId == s.participantId
      ensures r.error.blockNum == s.blockNum && r.error.trialNum == s.trialNum
    {
      Aborted(ErrorRecord(s.participantId, s.blockNum, s.trialNum, cond,
                          factors.cue, factors.target, factors.alignment, kind),
              ErrMsg(cond, kind))
    }

    /**
     * One drained event queue: the loop body of `record_saccades`, which
     * stores goal-directed saccades while there is room and stops at the
     * first one inside the target boundary.
     */
    method DrainQueue(c: Classifier, queue: seq<SaccadeEvent>)
      requires !targetAcquired
      requires c.center == center && c.target == targetLoc && c.boundary == gazeBoundary
      modifies this`saccades, this`targetAcquired
      ensures QueueResult(saccades, targetAcquired) == ProcessQueue(c, old(saccades), queue)
    {
      for k := 0 to |queue|
        invariant !targetAcquired
        invariant ProcessQueue(c, saccades, queue[k..]) == ProcessQueue(c, old(saccades), queue)
      {
        var saccade := queue[k];
        assert queue[k..][0] == saccade && queue[k..][1..] == queue[k + 1..];
        var gaze := saccade.endGaze;
        if DistSq(gaze, center) > gazeBoundary * gazeBoundary {
          var distFromTarget := DistSq(gaze, targetLoc);
          var accuracy := if distFromTarget > gazeBoundary * gazeBoundary then Outside else Inside;
          var duration;
          if |saccades| > 0 {
            duration := saccade.startTime + DURATION_CORRECTION - saccades[|saccades| - 1].endTime;
          } else {
            duration := saccade.startTime + DURATION_CORRECTION - c.onset;
          }
          if |saccades| < MAX_STORED {
            saccades := saccades + [SaccadeRecord(
              saccade.startTime - c.onset, accuracy, distFromTarget,
              saccade.startGaze.x, saccade.startGaze.y, saccade.endGaze.x, saccade.endGaze.y,
              saccade.endTime, duration)];
          }
          if distFromTarget <= gazeBoundary * gazeBoundary {
            targetAcquired := true;
            return;
          }
        }
      }
    }

    /**
     * `record_saccades`: poll until the target is acquired, the guard's clock
     * reading is exactly 2500, or the modelled polls run out; proved to
     * compute the classifier's `RunPolls`.
     */
    method RecordSaccades(targetOnset: int, polls: seq<SaccadePoll>)
      requires cond == Saccade
      modifies this`saccades, this`targetAcquired, this`beforeTarget, this`movedEyesDuringRc
      ensures var r := RunPolls(Classifier(center, targetLoc, gazeBoundary, targetOnset),
                                old(saccades), old(targetAcquired), polls);
              && saccades == r.records
              && targetAcquired == r.acquired
              && beforeTarget == (old(beforeTarget) && r.pollsUsed == 0)
      ensures movedEyesDuringRc == old(movedEyesDuringRc)
    {
      var c := Classifier(center, targetLoc, gazeBoundary, targetOnset);
      ghost var total := RunPolls(c, saccades, targetAcquired, polls);
      var p := 0;
      while p < |polls| && polls[p].now - GUARD_MS != 0 && !targetAcquired
        invariant 0 <= p <= |polls|
        invariant var rest := RunPolls(c, saccades, targetAcquired, polls[p..]);
                  total == Classification(rest.records, rest.acquired, rest.pollsUsed + p)
        invariant beforeTarget == (old(beforeTarget) && p == 0)
        invariant movedEyesDuringRc == old(movedEyesDuringRc)
      {
        DisplayRefresh(true, center);
        ghost var held := saccades;
        DrainQueue(c, polls[p].events);
        assert QueueResult(saccades, targetAcquired) == ProcessQueue(c, held, polls[p].events);
        assert polls[p..][0] == polls[p] && polls[p..][1..] == polls[p + 1..];
        p := p + 1;
      }
    }

    /**
     * The keypress condition's response interval: the response collector
     * refreshes the display with the target up, once per gaze sample.
     */
    method CollectKeypress(gazes: seq<Point>)
      requires cond == Keypress && !beforeTarget
      modifies this`beforeTarget, this`movedEyesDuringRc
      ensures !beforeTarget
      ensures movedEyesDuringRc ==
              (old(movedEyesDuringRc) || exists i :: 0 <= i < |gazes| && !InDrift(gazes[i]))
    {
      for i := 0 to |gazes|
        invariant !beforeTarget
        invariant movedEyesDuringRc ==
                  (old(movedEyesDuringRc) || exists j :: 0 <= j < i && !InDrift(gazes[j]))
      {
        DisplayRefresh(true, gazes[i]);
      }
    }

    /**
     * `trial`: wait out cue onset, cue offset and target onset, aborting on the
     * first violation; show the target; collect the response of the session's
     * condition; then choose the feedback and assemble the result.
     */
    method Trial(s: Session, input: TrialInput) returns (outcome: TrialOutcome)
      requires Prepared() && FactorsAllowed(cond, factors)
      requires ReachesTargetOnset(input.waits)
      modifies this`beforeTarget, this`movedEyesDuringRc, this`saccades, this`targetAcquired
      ensures var err := FirstWaitError(center, gazeBoundary, input.waits, 0);
              && (outcome.Aborted? <==> err.Some?)
              && (outcome.Aborted? ==> outcome == LogAndRecycleTrial(s, err.value) && Prepared())
      ensures outcome.Completed? ==>
              && !beforeTarget
              && outcome.result == BuildResult(s, cond, factors, targetAcquired, input.keypressRt, movedEyesDuringRc)
              && outcome.feedback == Feedback(cond, factors.target, input.keypressRt, movedEyesDuringRc)
      ensures outcome.Completed? && cond == Saccade ==>
              var r := RunPolls(Classifier(center, targetLoc, gazeBoundary, input.targetOnset), [], false, input.polls);
              saccades == r.records && targetAcquired == r.acquired && !movedEyesDuringRc
      ensures outcome.Completed? && cond == Keypress ==>
              && saccades == [] && !targetAcquired
              && (movedEyesDuringRc <==> exists i :: 0 <= i < |input.rcGazes| && !InDrift(input.rcGazes[i]))
    {
      var waits := input.waits;
      var i := 0;
      while i < |waits| && Before(CueOn, waits[i].elapsed)
        invariant 0 <= i <= |waits| && Prepared()
        invariant FirstWaitError(center, gazeBoundary, waits, 0) == FirstWaitError(center, gazeBoundary, waits, i)
      {
        var err := WaitTime(waits[i].gaze, waits[i].keys);
        if err.Some? {
          return LogAndRecycleTrial(s, err.value);
        }
        i := i + 1;
      }
      // display_refresh(cue=True) only draws while before_target holds
      while i < |waits| && Before(CueOff, waits[i].elapsed)
        invariant 0 <= i <= |waits| && Prepared()
        invariant FirstWaitError(center, gazeBoundary, waits, 0) == FirstWaitError(center, gazeBoundary, waits, i)
      {
        var err := WaitTime(waits[i].gaze, waits[i].keys);
        if err.Some? {
          return LogAndRecycleTrial(s, err.value);
        }
        i := i + 1;
      }
      // display_refresh() only draws while before_target holds
      while i < |waits| && Before(TargetOn, waits[i].elapsed)
        invariant 0 <= i <= |waits| && Prepared()
        invariant FirstWaitError(center, gazeBoundary, waits, 0) == FirstWaitError(center, gazeBoundary, waits, i)
      {
        var err := WaitTime(waits[i].gaze, waits[i].keys);
        if err.Some? {
          return LogAndRecycleTrial(s, err.value);
        }
        i := i + 1;
      }
      // the refresh that draws the target does not sample the gaze while before_target holds
      DisplayRefresh(true, center);
      if cond == Saccade {
        RecordSaccades(input.targetOnset, input.polls);
      }
      if cond == Keypress {
        CollectKeypress(input.rcGazes);
      }
      // clear() and the one-second pause only draw and wait
      var feedback := Feedback(cond, factors.target, input.keypressRt, movedEyesDuringRc);
      outcome := Completed(BuildResult(s, cond, factors, targetAcquired, input.keypressRt, movedEyesDuringRc),
                           feedback);
    }

    /**
     * `trial_clean_up`: for a logged trial in the saccade condition, the rows
     * to insert (every stored saccade, in order, without its end time); then
     * the saccade list and the acquisition flag are reset unconditionally.
     */
    method TrialCleanUp(trialId: Option<int>, lastTrialId: int, participantId: int) returns (rows: seq<SaccadeRow>)
      modifies this`saccades, this`targetAcquired
      ensures trialId.Some? && trialId.value != 0 && cond == Saccade ==>
              |rows| == |old(saccades)| &&
              forall i :: 0 <= i < |rows| ==> rows[i] == LogRow(old(saccades)[i], lastTrialId, participantId)
      ensures !(trialId.Some? && trialId.value != 0 && cond == Saccade) ==> rows == []
      ensures saccades == [] && !targetAcquired
    {
      rows := [];
      if trialId.Some? && trialId.value != 0 && cond == Saccade {
        for i := 0 to |saccades|
          invariant |rows| == i
          invariant forall j :: 0 <= j < i ==> rows[j] == LogRow(saccades[j], lastTrialId, participantId)
        {
          var s := saccades[i];
          rows := rows + [SaccadeRow(lastTrialId, participantId, s.rt, s.accuracy, s.distFromTarget,
                                     s.startX, s.startY, s.endX, s.endY, s.duration)];
        }
      }
      saccades := [];
      targetAcquired := false;
    }
  }
}
