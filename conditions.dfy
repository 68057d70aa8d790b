/**
 * The experiment's fixed tables: response conditions, error kinds and their
 * messages, the milestone schedule of a trial, the trial factors, and the
 * assembly of the per-trial result and of the end-of-trial feedback.
 */
module Conditions {
  import opened Wrappers
  import opened Geometry

  /** `saccade_response_cond`; the keypress condition is its negation. */
  datatype ResponseCondition = Saccade | Keypress

  /** The `err_type` of an aborted trial. */
  datatype ErrorKind = Eye | Early | Key

  /**
   * The `err_msgs` table built at setup, per response condition. Only the
   * `eye` messages report moved eyes; the others ask for the right response
   * or report an early one.
   */
  function ErrMsg(cond: ResponseCondition, kind: ErrorKind): (m: string)
    ensures |m| >= 10
    ensures kind == Eye ==> m[..10] == "Moved eyes"
    ensures kind != Eye ==> m[0] != 'M'
  {
    match (cond, kind)
    case (Saccade, Eye) => "Moved eyes too soon!"
    case (Saccade, _) => "Please respond with eye movements only."
    case (Keypress, Eye) => "Moved eyes!"
    case (Keypress, Key) => "Please respond with the spacebar only."
    case (Keypress, Early) => "Responded too soon!"
  }

  /**
   * In the saccade condition an early key and any other key share one
   * message; in the keypress condition all three kinds read differently.
   */
  lemma ErrMsgsByCondition(cond: ResponseCondition)
    ensures cond == Saccade <==> ErrMsg(cond, Early) == ErrMsg(cond, Key)
    ensures ErrMsg(cond, Eye) != ErrMsg(cond, Key) && ErrMsg(cond, Eye) != ErrMsg(cond, Early)
  {
  }

  /** The four event tickets registered at the start of every trial. */
  datatype Milestone = CueOn | CueOff | TargetOn | TaskEnd

  /** Milliseconds from the trial-start anchor to each milestone. */
  function Offset(m: Milestone): (t: int)
    ensures 1000 <= t <= 4460
  {
    match m
    case CueOn => 1000
    case CueOff => 1100
    case TargetOn => 1960
    case TaskEnd => 4460
  }

  /** The ticket list registered in `trial_prep`, in registration order. */
  function Schedule(): (r: seq<(Milestone, int)>)
    ensures |r| == 4
    ensures forall i, j :: 0 <= i < j < |r| ==> r[i].1 < r[j].1
    ensures forall i :: 0 <= i < |r| ==> r[i].1 == Offset(r[i].0)
  {
    [(CueOn, Offset(CueOn)), (CueOff, Offset(CueOff)),
     (TargetOn, Offset(TargetOn)), (TaskEnd, Offset(TaskEnd))]
  }

  /** `evm.before(m)`: the milestone has not yet been reached. */
  predicate Before(m: Milestone, elapsed: int): (b: bool)
    ensures elapsed < 1000 ==> b
    ensures elapsed >= 4460 ==> !b
  {
    elapsed < Offset(m)
  }

  /**
   * Once a milestone has passed it stays passed for every later clock
   * reading, and while a milestone is ahead so is every later one.
   */
  lemma BeforeIsMonotone(m: Milestone, n: Milestone, t1: int, t2: int)
    requires t1 <= t2
    ensures !Before(m, t1) ==> !Before(m, t2)
    ensures Offset(m) <= Offset(n) && Before(m, t1) ==> Before(n, t1)
  {
  }

  /** One trial's factors, drawn by the factor generator. */
  datatype Factors = Factors(alignment: Alignment, cue: Corner, target: TargetCondition)

  /** The factor generator offers `catch` only in the keypress condition. */
  predicate FactorsAllowed(cond: ResponseCondition, f: Factors)
  {
    f.target == Catch ==> cond == Keypress
  }

  /** The participant, block and trial numbers the runner provides. */
  datatype Session = Session(participantId: int, blockNum: int, trialNum: int)

  /** The keypress listener's answer: a reaction time or the timeout sentinel. */
  datatype KeypressRt = Rt(ms: int) | Timeout

  /** The record returned by `trial`; `None` stands for the `NA` entries. */
  datatype TrialResult = TrialResult(
    blockNum: int,
    trialNum: int,
    sessionType: ResponseCondition,
    alignment: Alignment,
    cue: Corner,
    target: TargetCondition,
    targetAcquired: Option<bool>,
    keypressRt: Option<KeypressRt>,
    movedEyes: Option<bool>)

  /**
   * The per-trial record: the factors, and exactly the response fields that
   * belong to the session's response condition.
   */
  function BuildResult(s: Session, cond: ResponseCondition, f: Factors, targetAcquired: bool,
                       keypressRt: KeypressRt, movedEyes: bool): (r: TrialResult)
    ensures r.sessionType == cond && r.blockNum == s.blockNum && r.trialNum == s.trialNum
    ensures r.alignment == f.alignment && r.cue == f.cue && r.target == f.target
    ensures r.targetAcquired.Some? != r.keypressRt.Some?
    ensures r.targetAcquired.Some? <==> cond == Saccade
    ensures r.movedEyes.Some? <==> cond == Keypress
    ensures r.targetAcquired.Some? ==> r.targetAcquired.value == targetAcquired
    ensures r.keypressRt.Some? ==> r.keypressRt.value == keypressRt
    ensures r.movedEyes.Some? ==> r.movedEyes.value == movedEyes
  {
    TrialResult(
      s.blockNum, s.trialNum, cond, f.alignment, f.cue, f.target,
      if cond == Saccade then Some(targetAcquired) else None,
      if cond == Keypress then Some(keypressRt) else None,
      if cond == Keypress then Some(movedEyes) else None)
  }

  const MOVED_EYES_DURING_RC_MSG := "Moved eyes during response interval!"

  /**
   * The message shown after the response interval, if any: only in the
   * keypress condition; a response on a catch trial is reported as early,
   * and only otherwise is an eye movement during the interval reported.
   */
  function Feedback(cond: ResponseCondition, target: TargetCondition, rt: KeypressRt,
                    movedEyes: bool): (r: Option<string>)
    ensures cond == Saccade ==> r == None
    ensures cond == Keypress && target == Catch && rt.Rt? ==> r == Some(ErrMsg(Keypress, Early))
    ensures cond == Keypress && !(target == Catch && rt.Rt?) ==>
              (r.Some? <==> movedEyes) && (r.Some? ==> r.value == MOVED_EYES_DURING_RC_MSG)
  {
    if cond == Keypress then
      if target == Catch && rt != Timeout then Some(ErrMsg(Keypress, Early))
      else if movedEyes then Some(MOVED_EYES_DURING_RC_MSG)
      else None
    else None
  }

  /** The `trials_err` row written when a trial is aborted. */
  datatype ErrorRecord = ErrorRecord(
    participantId: int,
    blockNum: int,
    trialNum: int,
    sessionType: ResponseCondition,
    cue: Corner,
    target: TargetCondition,
    alignment: Alignment,
    errType: ErrorKind)
}
