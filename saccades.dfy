/**
 * The saccade classifier of the saccade-response condition, as a function of
 * the event stream: which saccade-end events are kept, how each is graded,
 * how durations chain, when the target counts as acquired and when polling
 * stops. The method `Experiment.CueingExperiment.RecordSaccades` runs the
 * loop and is proved to compute `RunPolls`.
 */
module Saccades {
  import opened Geometry

  /** A saccade-end event from the eye tracker's queue. */
  datatype SaccadeEvent = SaccadeEvent(startTime: int, endTime: int, startGaze: Point, endGaze: Point)

  datatype Accuracy = Inside | Outside

  /**
   * One stored saccade. `distFromTarget` is the squared distance from the
   * end gaze to the target; `endTime` is kept for the duration chain and is
   * not logged.
   */
  datatype SaccadeRecord = SaccadeRecord(
    rt: int,
    accuracy: Accuracy,
    distFromTarget: int,
    startX: int,
    startY: int,
    endX: int,
    endY: int,
    endTime: int,
    duration: int)

  /**
   * One pass of the polling loop: the tracker clock read by the loop guard
   * and the drained event queue. The refresh at the start of each pass
   * samples no gaze in the saccade condition, so none is supplied.
   */
  datatype SaccadePoll = SaccadePoll(now: int, events: seq<SaccadeEvent>)

  /** What the classifier holds fixed: screen centre, target, boundary radius, target onset. */
  datatype Classifier = Classifier(center: Point, target: Point, boundary: nat, onset: int)

  /** At most this many saccades are stored per trial. */
  const MAX_STORED := 3
  /** The constant added to every duration. */
  const DURATION_CORRECTION := 4
  /** The constant the loop guard subtracts from the tracker clock. */
  const GUARD_MS := 2500

  /** A saccade that ends outside the fixation circle around the screen centre. */
  predicate GoalDirected(c: Classifier, e: SaccadeEvent)
  {
    !WithinCircle(c.center, c.boundary, e.endGaze)
  }

  /** A goal-directed saccade that ends within the boundary around the target. */
  predicate Acquires(c: Classifier, e: SaccadeEvent)
  {
    GoalDirected(c, e) && WithinCircle(c.target, c.boundary, e.endGaze)
  }

  /** Some saccade in the queue acquires the target. */
  predicate HasAcquiring(c: Classifier, q: seq<SaccadeEvent>)
  {
    exists i :: 0 <= i < |q| && Acquires(c, q[i])
  }

  /** `accuracy`: outside when farther from the target than the boundary radius. */
  function Grade(c: Classifier, e: SaccadeEvent): (a: Accuracy)
    ensures a == Inside <==> WithinCircle(c.target, c.boundary, e.endGaze)
  {
    if DistSq(e.endGaze, c.target) > c.boundary * c.boundary then Outside else Inside
  }

  /** The time a new duration is measured from: the last stored saccade's end, or target onset. */
  function ChainStart(c: Classifier, recs: seq<SaccadeRecord>): int
  {
    if |recs| > 0 then recs[|recs| - 1].endTime else c.onset
  }

  /** The record built for a goal-directed saccade, given what is stored so far. */
  function NewRecord(c: Classifier, recs: seq<SaccadeRecord>, e: SaccadeEvent): (r: SaccadeRecord)
    ensures Describes(c, r, e)
    ensures r.accuracy == Inside <==> WithinCircle(c.target, c.boundary, e.endGaze)
  {
    SaccadeRecord(
      e.startTime - c.onset,
      Grade(c, e),
      DistSq(e.endGaze, c.target),
      e.startGaze.x, e.startGaze.y,
      e.endGaze.x, e.endGaze.y,
      e.endTime,
      e.startTime + DURATION_CORRECTION - ChainStart(c, recs))
  }

  /**
   * While there is room the chain moves on to the newly stored saccade's end;
   * once three records are held it keeps pointing at the third.
   */
  lemma StoreAdvancesChain(c: Classifier, recs: seq<SaccadeRecord>, e: SaccadeEvent)
    ensures var next := ChainStart(c, Store(recs, NewRecord(c, recs, e)));
            && (|recs| < MAX_STORED ==> next == e.endTime)
            && (|recs| >= MAX_STORED ==> next == ChainStart(c, recs))
  {
  }

  /** Append only while fewer than `MAX_STORED` records are held. */
  function Store(recs: seq<SaccadeRecord>, r: SaccadeRecord): (s: seq<SaccadeRecord>)
    ensures |recs| <= |s| <= |recs| + 1
    ensures s[..|recs|] == recs
    ensures |s| > |recs| <==> |recs| < MAX_STORED
    ensures |s| > |recs| ==> s[|recs|] == r
  {
    if |recs| < MAX_STORED then recs + [r] else recs
  }

  function Max(a: int, b: int): int
  {
    if a < b then b else a
  }

  datatype QueueResult = QueueResult(records: seq<SaccadeRecord>, acquired: bool)

  /**
   * One drained queue, in arrival order: fixational saccades are skipped, each
   * other saccade is graded and stored while there is room, and the first one
   * inside the target boundary acquires the target and ends the queue.
   */
  function ProcessQueue(c: Classifier, recs: seq<SaccadeRecord>, q: seq<SaccadeEvent>): (r: QueueResult)
    ensures |recs| <= |r.records| <= Max(|recs|, MAX_STORED)
    ensures r.records[..|recs|] == recs
    decreases |q|
  {
    if q == [] then QueueResult(recs, false)
    else if !GoalDirected(c, q[0]) then ProcessQueue(c, recs, q[1..])
    else
      var stored := Store(recs, NewRecord(c, recs, q[0]));
      if Grade(c, q[0]) == Inside then QueueResult(stored, true)
      else ProcessQueue(c, stored, q[1..])
  }

  datatype Classification = Classification(records: seq<SaccadeRecord>, acquired: bool, pollsUsed: nat)

  /**
   * The polling loop: it runs while the clock reading minus 2500 is non-zero
   * and the target is not acquired, and while modelled polls remain.
   */
  function RunPolls(c: Classifier, recs: seq<SaccadeRecord>, acquired: bool,
                    polls: seq<SaccadePoll>): (r: Classification)
    ensures r.pollsUsed <= |polls|
    ensures |recs| <= |r.records| <= Max(|recs|, MAX_STORED)
    ensures r.records[..|recs|] == recs
    ensures acquired ==> r == Classification(recs, true, 0)
    decreases |polls|
  {
    if polls == [] || polls[0].now - GUARD_MS == 0 || acquired then Classification(recs, acquired, 0)
    else
      var q := ProcessQueue(c, recs, polls[0].events);
      var rest := RunPolls(c, q.records, q.acquired, polls[1..]);
      Classification(rest.records, rest.acquired, rest.pollsUsed + 1)
  }

  // ---------------------------------------------------------------------
  // Properties of one queue

  /** A fixational saccade has no effect anywhere in a queue. */
  lemma {:induction false} FixationalSaccadeIgnored(c: Classifier, recs: seq<SaccadeRecord>,
                                                    q1: seq<SaccadeEvent>, e: SaccadeEvent,
                                                    q2: seq<SaccadeEvent>)
    requires !GoalDirected(c, e)
    ensures ProcessQueue(c, recs, q1 + [e] + q2) == ProcessQueue(c, recs, q1 + q2)
    decreases |q1|
  {
    if q1 == [] {
      assert (q1 + [e] + q2)[1..] == q2;
      assert q1 + q2 == q2;
    } else {
      assert (q1 + [e] + q2)[0] == q1[0] && (q1 + q2)[0] == q1[0];
      assert (q1 + [e] + q2)[1..] == q1[1..] + [e] + q2;
      assert (q1 + q2)[1..] == q1[1..] + q2;
      if !GoalDirected(c, q1[0]) {
        FixationalSaccadeIgnored(c, recs, q1[1..], e, q2);
      } else {
        var stored := Store(recs, NewRecord(c, recs, q1[0]));
        FixationalSaccadeIgnored(c, stored, q1[1..], e, q2);
      }
    }
  }

  /** The target is acquired exactly when some saccade in the queue acquires it. */
  lemma {:induction false} AcquiredIffSomeSaccadeAcquires(c: Classifier, recs: seq<SaccadeRecord>,
                                                          q: seq<SaccadeEvent>)
    ensures ProcessQueue(c, recs, q).acquired <==> HasAcquiring(c, q)
    decreases |q|
  {
    if q != [] {
      var stored := Store(recs, NewRecord(c, recs, q[0]));
      var next := if GoalDirected(c, q[0]) then stored else recs;
      AcquiredIffSomeSaccadeAcquires(c, next, q[1..]);
      if exists i :: 0 <= i < |q| && Acquires(c, q[i]) {
        var i :| 0 <= i < |q| && Acquires(c, q[i]);
        if i > 0 { assert q[1..][i - 1] == q[i]; }
      }
      forall i | 0 <= i < |q[1..]| && Acquires(c, q[1..][i])
        ensures Acquires(c, q[i + 1])
      {
      }
    }
  }

  /** Nothing queued after the first acquiring saccade is looked at. */
  lemma {:induction false} AcquisitionEndsQueue(c: Classifier, recs: seq<SaccadeRecord>,
                                                q1: seq<SaccadeEvent>, e: SaccadeEvent,
                                                q2: seq<SaccadeEvent>)
    requires forall i :: 0 <= i < |q1| ==> !Acquires(c, q1[i])
    requires Acquires(c, e)
    ensures ProcessQueue(c, recs, q1 + [e] + q2) == ProcessQueue(c, recs, q1 + [e])
    ensures ProcessQueue(c, recs, q1 + [e] + q2).acquired
    decreases |q1|
  {
    if q1 == [] {
      assert (q1 + [e] + q2)[0] == e && (q1 + [e])[0] == e;
    } else {
      assert (q1 + [e] + q2)[0] == q1[0] && (q1 + [e])[0] == q1[0];
      assert (q1 + [e] + q2)[1..] == q1[1..] + [e] + q2;
      assert (q1 + [e])[1..] == q1[1..] + [e];
      assert !Acquires(c, q1[0]);
      var next := if GoalDirected(c, q1[0]) then Store(recs, NewRecord(c, recs, q1[0])) else recs;
      AcquisitionEndsQueue(c, next, q1[1..], e, q2);
    }
  }

  /**
   * Once three records are held nothing more is stored, yet every later
   * saccade is still graded and can acquire the target.
   */
  lemma {:induction false} FullStoreStillAcquires(c: Classifier, recs: seq<SaccadeRecord>,
                                                  q: seq<SaccadeEvent>)
    requires |recs| >= MAX_STORED
    ensures ProcessQueue(c, recs, q).records == recs
    ensures ProcessQueue(c, recs, q).acquired <==> HasAcquiring(c, q)
  {
    AcquiredIffSomeSaccadeAcquires(c, recs, q);
  }

  /**
   * A stored saccade ended outside the fixation circle, and its distance and
   * accuracy agree with its end point.
   */
  ghost predicate WellGraded(c: Classifier, r: SaccadeRecord)
  {
    var end := Point(r.endX, r.endY);
    && !WithinCircle(c.center, c.boundary, end)
    && r.distFromTarget == DistSq(end, c.target)
    && (r.accuracy == Inside <==> r.distFromTarget <= c.boundary * c.boundary)
  }

  /**
   * The record invariant: every stored saccade is well graded, and its
   * duration runs from the end of the stored saccade before it (or from
   * target onset for the first) to its own start, plus 4 ms; its start is
   * its reaction time after onset.
   */
  ghost predicate RecordsWellFormed(c: Classifier, recs: seq<SaccadeRecord>)
  {
    forall i :: 0 <= i < |recs| ==> WellGraded(c, recs[i]) && Linked(c, recs, i)
  }

  /** The duration of record `i` runs from the end of record `i - 1`, or from onset. */
  ghost predicate Linked(c: Classifier, recs: seq<SaccadeRecord>, i: nat)
    requires i < |recs|
  {
    recs[i].duration == recs[i].rt + c.onset + DURATION_CORRECTION
                        - (if i == 0 then c.onset else recs[i - 1].endTime)
  }

  /** The record built for a goal-directed saccade is well graded. */
  lemma NewRecordWellGraded(c: Classifier, recs: seq<SaccadeRecord>, e: SaccadeEvent)
    requires GoalDirected(c, e)
    ensures WellGraded(c, NewRecord(c, recs, e))
  {
    var r := NewRecord(c, recs, e);
    assert Point(r.endX, r.endY) == e.endGaze;
  }

  /** Storing the record of a goal-directed saccade keeps the record invariant. */
  lemma StoreKeepsRecordsWellFormed(c: Classifier, recs: seq<SaccadeRecord>, e: SaccadeEvent)
    requires RecordsWellFormed(c, recs) && GoalDirected(c, e)
    ensures RecordsWellFormed(c, Store(recs, NewRecord(c, recs, e)))
  {
    var r := NewRecord(c, recs, e);
    NewRecordWellGraded(c, recs, e);
    if |recs| < MAX_STORED {
      var stored := recs + [r];
      forall i | 0 <= i < |stored|
        ensures WellGraded(c, stored[i]) && Linked(c, stored, i)
      {
        if i < |recs| {
          assert stored[i] == recs[i];
          if i > 0 { assert stored[i - 1] == recs[i - 1]; }
        } else {
          assert stored[i] == r;
          if i > 0 { assert stored[i - 1] == recs[|recs| - 1]; }
        }
      }
    }
  }

  /** Processing a queue keeps the record invariant. */
  lemma {:induction false} QueueKeepsRecordsWellFormed(c: Classifier, recs: seq<SaccadeRecord>,
                                                       q: seq<SaccadeEvent>)
    requires RecordsWellFormed(c, recs)
    ensures RecordsWellFormed(c, ProcessQueue(c, recs, q).records)
    decreases |q|
  {
    if q != [] {
      if GoalDirected(c, q[0]) {
        var stored := Store(recs, NewRecord(c, recs, q[0]));
        StoreKeepsRecordsWellFormed(c, recs, q[0]);
        if Grade(c, q[0]) != Inside {
          QueueKeepsRecordsWellFormed(c, stored, q[1..]);
        }
      } else {
        QueueKeepsRecordsWellFormed(c, recs, q[1..]);
      }
    }
  }

  /** The goal-directed saccades of a queue up to and including the first acquiring one. */
  function Considered(c: Classifier, q: seq<SaccadeEvent>): (r: seq<SaccadeEvent>)
    ensures |r| <= |q|
    decreases |q|
  {
    if q == [] then []
    else if !GoalDirected(c, q[0]) then Considered(c, q[1..])
    else if Acquires(c, q[0]) then [q[0]]
    else [q[0]] + Considered(c, q[1..])
  }

  /** A record describes a saccade when it carries that saccade's times and end points. */
  predicate Describes(c: Classifier, r: SaccadeRecord, e: SaccadeEvent)
  {
    && r.rt == e.startTime - c.onset
    && r.endTime == e.endTime
    && r.startX == e.startGaze.x && r.startY == e.startGaze.y
    && r.endX == e.endGaze.x && r.endY == e.endGaze.y
  }

  /**
   * The new records are the first considered saccades, in arrival order, as
   * many as fit in the three slots.
   */
  lemma {:induction false} QueueStoresInArrivalOrder(c: Classifier, recs: seq<SaccadeRecord>,
                                                     q: seq<SaccadeEvent>)
    requires |recs| <= MAX_STORED
    ensures var r := ProcessQueue(c, recs, q).records;
            var k := Considered(c, q);
            && |r| == (if |recs| + |k| < MAX_STORED then |recs| + |k| else MAX_STORED)
            && forall i :: |recs| <= i < |r| ==> Describes(c, r[i], k[i - |recs|])
    decreases |q|
  {
    if q != [] {
      if !GoalDirected(c, q[0]) {
        QueueStoresInArrivalOrder(c, recs, q[1..]);
      } else {
        var stored := Store(recs, NewRecord(c, recs, q[0]));
        if !Acquires(c, q[0]) {
          QueueStoresInArrivalOrder(c, stored, q[1..]);
          var r := ProcessQueue(c, recs, q).records;
          var k := Considered(c, q);
          assert k == [q[0]] + Considered(c, q[1..]);
          forall i | |recs| <= i < |r|
            ensures Describes(c, r[i], k[i - |recs|])
          {
            if i == |recs| {
              assert r[..|stored|] == stored;
            }
          }
        }
      }
    }
  }

  // ---------------------------------------------------------------------
  // Properties of the polling loop

  /**
   * The loop stops early only on acquisition or on a clock reading of exactly
   * 2500: it is not a deadline measured from target onset.
   */
  lemma {:induction false} PollingStopsOnlyOnAcquisitionOrGuard(c: Classifier, recs: seq<SaccadeRecord>,
                                                                acquired: bool, polls: seq<SaccadePoll>)
    ensures var r := RunPolls(c, recs, acquired, polls);
            r.pollsUsed < |polls| ==> r.acquired || polls[r.pollsUsed].now == GUARD_MS
    decreases |polls|
  {
    if polls != [] && polls[0].now - GUARD_MS != 0 && !acquired {
      var q := ProcessQueue(c, recs, polls[0].events);
      PollingStopsOnlyOnAcquisitionOrGuard(c, q.records, q.acquired, polls[1..]);
    }
  }

  /** When the loop stops on acquisition, the last poll it ran holds the acquiring saccade. */
  lemma {:induction false} AcquisitionIsInLastPoll(c: Classifier, recs: seq<SaccadeRecord>,
                                                   polls: seq<SaccadePoll>)
    ensures var r := RunPolls(c, recs, false, polls);
            r.acquired ==>
              && r.pollsUsed > 0
              && HasAcquiring(c, polls[r.pollsUsed - 1].events)
    decreases |polls|
  {
    if polls != [] && polls[0].now - GUARD_MS != 0 {
      var q := ProcessQueue(c, recs, polls[0].events);
      AcquiredIffSomeSaccadeAcquires(c, recs, polls[0].events);
      if !q.acquired {
        AcquisitionIsInLastPoll(c, q.records, polls[1..]);
        var r := RunPolls(c, q.records, false, polls[1..]);
        if r.acquired {
          assert polls[1..][r.pollsUsed - 1] == polls[r.pollsUsed];
        }
      }
    }
  }

  /**
   * A poll the loop ran that holds an acquiring saccade leaves the target
   * acquired: with `AcquisitionIsInLastPoll`, the loop ends acquired exactly
   * when some poll it ran holds a saccade that acquires the target.
   */
  lemma {:induction false} RanAcquiringPollAcquires(c: Classifier, recs: seq<SaccadeRecord>,
                                                    polls: seq<SaccadePoll>, i: nat)
    requires i < RunPolls(c, recs, false, polls).pollsUsed
    requires HasAcquiring(c, polls[i].events)
    ensures RunPolls(c, recs, false, polls).acquired
    decreases |polls|
  {
    var q := ProcessQueue(c, recs, polls[0].events);
    AcquiredIffSomeSaccadeAcquires(c, recs, polls[0].events);
    if i > 0 && !q.acquired {
      assert polls[1..][i - 1] == polls[i];
      RanAcquiringPollAcquires(c, q.records, polls[1..], i - 1);
    }
  }

  /** Whether and when the loop stops does not depend on the target onset time. */
  lemma {:induction false} StoppingIgnoresOnset(c: Classifier, onset: int, recs: seq<SaccadeRecord>,
                                                recs': seq<SaccadeRecord>, acquired: bool,
                                                polls: seq<SaccadePoll>)
    ensures var r := RunPolls(c, recs, acquired, polls);
            var r' := RunPolls(c.(onset := onset), recs', acquired, polls);
            r.acquired == r'.acquired && r.pollsUsed == r'.pollsUsed
    decreases |polls|
  {
    if polls != [] && polls[0].now - GUARD_MS != 0 && !acquired {
      var c' := c.(onset := onset);
      var q := ProcessQueue(c, recs, polls[0].events);
      var q' := ProcessQueue(c', recs', polls[0].events);
      AcquiredIffSomeSaccadeAcquires(c, recs, polls[0].events);
      AcquiredIffSomeSaccadeAcquires(c', recs', polls[0].events);
      assert forall e :: Acquires(c, e) == Acquires(c', e);
      StoppingIgnoresOnset(c, onset, q.records, q'.records, q.acquired, polls[1..]);
    }
  }

  /** The record invariant holds across every poll of the loop. */
  lemma {:induction false} PollingKeepsRecordsWellFormed(c: Classifier, recs: seq<SaccadeRecord>,
                                                         acquired: bool, polls: seq<SaccadePoll>)
    requires RecordsWellFormed(c, recs)
    ensures RecordsWellFormed(c, RunPolls(c, recs, acquired, polls).records)
    decreases |polls|
  {
    if polls != [] && polls[0].now - GUARD_MS != 0 && !acquired {
      var q := ProcessQueue(c, recs, polls[0].events);
      QueueKeepsRecordsWellFormed(c, recs, polls[0].events);
      PollingKeepsRecordsWellFormed(c, q.records, q.acquired, polls[1..]);
    }
  }
}
