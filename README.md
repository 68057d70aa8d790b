# Object-based cueing experiment: a verified model of its trial logic

This project models the trial logic of `ObjectBasedCueingEffects_2020`. That
program is an eye-tracking experiment. Each trial shows two placeholder boxes
(horizontal or vertical) around a fixation cross, cues one corner of one box,
and later shows a target at a corner chosen by the trial's target condition.
In the saccade condition the participant looks at the target. The program
classifies each saccade that leaves the fixation circle, stores up to three of
them, and marks the target acquired at the first one that lands inside the
target circle. In the keypress condition the participant presses the
spacebar. The program records whether the eyes left the fixation circle after
the target appeared. In both conditions, moving the eyes or pressing a key
before the target appears aborts the trial, logs an error row and recycles
the trial.

The model has five modules:

- `Wrappers` holds `Option`, which stands for Python's `None` and the logged
  `NA`.
- `Geometry` holds the `locations` table, `set_box_positions`, `which_list`
  and `get_target_location`, together with the corner each target condition
  is meant to select.
- `Conditions` holds the response conditions, the `err_msgs` table, the
  milestone schedule, the trial factors, the per-trial result record and the
  feedback decision.
- `Saccades` holds the saccade classifier of `record_saccades` as pure
  functions over an event queue (`ProcessQueue`) and over a sequence of polls
  (`RunPolls`), and lemmas about them.
- `Experiment` holds the class `CueingExperiment`. Its fields are the
  per-trial flags (`before_target`, `target_acquired`,
  `moved_eyes_during_rc`), the stored saccades and the placed stimuli. Its
  methods update them in place: `trial_prep`, `display_refresh` (flag logic),
  `wait_time`, `record_saccades`, `trial` and `trial_clean_up`. Each method is
  proved against the specification functions of the other modules.

The environment is supplied as inputs:

- the elapsed clock readings, gaze samples and key sets of the pre-target
  wait loops;
- the tracker clock at target onset;
- the saccade-end event queues of each poll;
- the gaze at each refresh of the response collector;
- the keypress listener's answer.

Distances are compared squared on integer pixel coordinates. The test
`line_segment_len(p, q) > r` with `r >= 0` becomes `DistSq(p, q) > r * r`.

`get_target_location` is reproduced as written, with two consequences:

- The `cued_location` condition yields the `uncued_opposite` corner. The test
  at `experiment.py:316` is an `if`, so its `else` branch overwrites the
  assignment made at line 314 (`CuedLocationIsUncuedOpposite`).
- The uncued conditions look up one coordinate of the cue in the two-element
  lists `[x, y]` of the candidate corners, and that test matches either
  component. `TargetLocationIsTargetCorner` proves the intended corner for
  every screen whose centre satisfies `CoordinatesApart`, i.e. whose
  `cx - cy` is not 0 or ±2·offset. `SquareScreenMisplacesAdjacentTarget`
  exhibits a square screen on which a horizontal `uncued_adjacent` target
  lands diagonally across from the cue. `WideScreenMisplacesAdjacentTarget`
  does the same for a 1920×1080 screen with offset 210, where
  `cx - cy` is 2·offset.
- The loop guard of `record_saccades` (`experiment.py:446`) subtracts 2500
  from the tracker clock rather than from the time since target onset. The
  model keeps it as written (`PollingStopsOnlyOnAcquisitionOrGuard`).

## Model

| member | source | states |
|---|---|---|
| Geometry.DistSq | experiment.py:456-460 | The squared distance is non-negative and zero exactly when the two points coincide. |
| Geometry.Location | experiment.py:83-92 | The `locations` table: with a positive offset, a place lies left of, right of, above or below the centre exactly as its name says. |
| Geometry.LocationIsOffset | experiment.py:83-92 | Each of the eight named locations is the screen centre moved by `offset` along its column and its row. |
| Geometry.LocationsDistinct | experiment.py:83-92 | With a positive offset, any two different named locations are different points. |
| Geometry.BoxPositions | experiment.py:288-296 | Vertical alignment places the boxes left and right of centre, otherwise above and below it; they are symmetric about the centre and 2·offset apart. |
| Geometry.BoxCorners | experiment.py:303-310 | The corner lists `box1` and `box2`: two corners each, `box1` starting at the top-left corner, and together they hold all four corners. |
| Geometry.BoxCornersFrameBoxes | experiment.py:303-310 | Each corner list built for `get_target_location` holds the two ends of the matching placed box, along its long side. |
| Geometry.WhichList | experiment.py:390-398 | Yields `None` exactly when the element is in neither list. Otherwise it yields one of the two lists: one holding the element when `contains`, the one without it when not. The first list wins when the element is in both. |
| Geometry.IndexOf | experiment.py:319 | The position `list.remove` acts on: an index holding the element with no earlier copy of it. |
| Geometry.RemoveFirst | experiment.py:319 | `list.remove` yields the list without the first occurrence of the element, the rest in order. It is defined only when the element is present. |
| Geometry.RemoveFirstTakesOneCopy | experiment.py:319 | `list.remove` takes away exactly one copy of the element and leaves every other element's count unchanged. |
| Geometry.RemoveFromPair | experiment.py:318-320 | Removing one end of a two-corner box leaves the other end. |
| Geometry.GetTargetLocation | experiment.py:298-345 | Every alignment, cued corner and target condition yields a location; the selector never falls through to `None`. |
| Geometry.CoordLookup | experiment.py:324-342 | On a screen satisfying `CoordinatesApart`, a cue coordinate is found in a corner's `[x, y]` list exactly when it equals that corner's coordinate on the intended axis. |
| Geometry.CuedObjectTarget | experiment.py:316-320 | A `cued_object` target is the other end of the cued box on every screen. |
| Geometry.UncuedTarget | experiment.py:322-342 | On a screen satisfying `CoordinatesApart`, an `uncued_adjacent` target is the uncued-box corner sharing the cue's x (horizontal) or y (vertical). An `uncued_opposite` or `cued_location` target is the diagonal corner. |
| Geometry.TargetLocationIsTargetCorner | experiment.py:298-345 | On such screens `get_target_location` returns the corner `TargetCorner` names, for every alignment, cue and condition. |
| Geometry.CuedLocationIsUncuedOpposite | experiment.py:313-322 | `cued_location` places the target exactly where `uncued_opposite` does, on every screen. |
| Geometry.CuedLocationMissesCue | experiment.py:313-342 | With a positive offset, a `cued_location` target never appears at the cued corner, on every screen, including those where the coordinate lookup matches the wrong axis. |
| Geometry.WideScreenMisplacesAdjacentTarget | experiment.py:332 | With centre (960, 540) and offset 210, a vertical `uncued_adjacent` target for a bottom-right cue is placed top-left, while the intended corner is bottom-left. |
| Geometry.SquareScreenMisplacesAdjacentTarget | experiment.py:327-329 | With centre (512, 512) and offset 100, a horizontal `uncued_adjacent` target for a top-right cue is placed bottom-left, while the intended corner is bottom-right. |
| Conditions.ErrMsg | experiment.py:51-59 | The `err_msgs` table: every message has at least ten characters, the `eye` messages begin "Moved eyes", and no other message begins with "M". |
| Conditions.ErrMsgsByCondition | experiment.py:51-59 | The `early` and `key` messages coincide exactly in the saccade condition, and the `eye` message differs from both in either condition. |
| Conditions.Schedule | experiment.py:163-168 | Four milestones are registered at 1000, 1100, 1960 and 4460 ms, in strictly increasing order. |
| Conditions.Offset | experiment.py:163-168 | Each milestone's offset lies between 1000 ms (cue onset) and 4460 ms (task end) after the anchor. |
| Conditions.Before | experiment.py:184-196 | `evm.before`: every milestone is still ahead before 1000 ms, and every milestone has passed from 4460 ms on. |
| Conditions.BeforeIsMonotone | experiment.py:184-196 | A milestone that has passed stays passed at every later reading, and while a milestone is ahead so is every later one. |
| Conditions.BuildResult | experiment.py:225-236 | The result carries the session numbers, condition and factors. `target_acquired` is present exactly in the saccade condition. `keypress_rt` and `moved_eyes` are present exactly in the keypress condition. Present fields hold the given values. |
| Conditions.Feedback | experiment.py:213-223 | No feedback in the saccade condition. In the keypress condition, a response on a catch trial gets the `early` message. Otherwise the moved-eyes message appears exactly when the eyes moved. |
| Saccades.Grade | experiment.py:458-460 | Accuracy is `inside` exactly when the end gaze lies within the target circle, boundary included. |
| Saccades.NewRecord | experiment.py:458-483 | The record built for a saccade carries its reaction time after onset, its end time and its start and end points, and is graded `inside` exactly when it ends within the target circle. |
| Saccades.StoreAdvancesChain | experiment.py:463-474 | The duration chain (`ChainStart`) moves on to the newly stored saccade's end time while there is room; once three records are held it keeps pointing at the third. |
| Saccades.Store | experiment.py:472-483 | Appending is conditional on the three-slot cap: the old records are kept as a prefix, and one record is added, the new one, exactly when fewer than three are held. |
| Saccades.ProcessQueue | experiment.py:452-488 | Processing a queue only appends to the stored records and never stores beyond three. |
| Saccades.RunPolls | experiment.py:446-488 | The polling loop uses at most the supplied polls, only appends records, stores at most three, and does nothing when the target is already acquired. |
| Saccades.FixationalSaccadeIgnored | experiment.py:454-456 | A saccade ending inside the fixation circle changes nothing wherever it appears in a queue: no record, no duration link, no acquisition. |
| Saccades.AcquiredIffSomeSaccadeAcquires | experiment.py:456-488 | A queue acquires the target exactly when one of its saccades leaves the fixation circle and ends inside the target circle. |
| Saccades.AcquisitionEndsQueue | experiment.py:486-488 | Nothing queued after the first acquiring saccade affects the result, and the target ends acquired. |
| Saccades.FullStoreStillAcquires | experiment.py:472-488 | With three records held no more are stored, yet the queue still acquires the target exactly when one of its saccades leaves the fixation circle and lands inside the target circle. |
| Saccades.NewRecordWellGraded | experiment.py:456-483 | A record built for a goal-directed saccade ended outside the fixation circle, and its distance and accuracy agree with its end point. |
| Saccades.StoreKeepsRecordsWellFormed | experiment.py:463-483 | Storing a new record keeps every record well graded, with its duration running from the previous record's end time (or from target onset) to its start plus 4 ms. |
| Saccades.QueueKeepsRecordsWellFormed | experiment.py:452-488 | Processing a whole queue keeps that record invariant. |
| Saccades.QueueStoresInArrivalOrder | experiment.py:472-483 | The new records describe the queue's goal-directed saccades up to the first acquiring one, in arrival order, as many as fit in three slots. |
| Saccades.PollingStopsOnlyOnAcquisitionOrGuard | experiment.py:446 | The loop stops before the supplied polls run out only on acquisition or on a clock reading of exactly 2500; it is not a deadline after target onset. |
| Saccades.AcquisitionIsInLastPoll | experiment.py:446-488 | When the loop ends acquired, the last poll it ran holds an acquiring saccade. |
| Saccades.RanAcquiringPollAcquires | experiment.py:446-488 | If a poll the loop ran holds a saccade that leaves the fixation circle and ends inside the target circle, the loop ends with the target acquired; with `AcquisitionIsInLastPoll` this makes acquisition over the whole response window an if-and-only-if. |
| Saccades.StoppingIgnoresOnset | experiment.py:442-488 | Whether and after how many polls the loop stops does not depend on the target onset time or on the records already held. |
| Saccades.PollingKeepsRecordsWellFormed | experiment.py:446-488 | The record invariant holds across every poll of the loop. |
| Experiment.WaitError | experiment.py:425-436 | Gaze outside the drift circle aborts with `eye` whatever the keys. Otherwise the spacebar aborts with `early` and any other key with `key`. No abort exactly when the gaze is inside and no key was pressed. |
| Experiment.FirstWaitError | experiment.py:184-196 | The abort of the three pre-target wait loops: when there is one, some sample read before target onset causes exactly that error. |
| Experiment.FirstViolationIsReported | experiment.py:184-196 | If a sample before target onset is the first to violate, the pre-target wait aborts with its error. |
| Experiment.ReportedIsFirstViolation | experiment.py:184-196 | Every abort of the pre-target wait comes from such a first violating sample. |
| Experiment.FirstWaitErrorIsFirstViolation | experiment.py:184-196 | The pre-target wait aborts with a kind exactly when some sample read before target onset violates with it and every earlier sample was clean. |
| Experiment.LogRow | experiment.py:242-248 | The logged row of a stored saccade carries the last trial id and the participant id. |
| Experiment.LogRowDropsOnlyEndTime | experiment.py:242-250 | Two stored saccades log the same row exactly when they differ at most in `end_time`. |
| Experiment.CueingExperiment.constructor | experiment.py:48-104 | Setup fixes the response condition, screen centre, offset and gaze boundary, and starts with no saccades and no acquisition. |
| Experiment.CueingExperiment.TrialPrep | experiment.py:150-173 | Places cue, boxes and (for a non-catch trial) the target from the trial's factors. Sets `before_target` and clears `target_acquired` and `moved_eyes_during_rc`. |
| Experiment.CueingExperiment.PlaceTarget | experiment.py:157-161 | A trial has a target exactly when its condition is not `catch`, at the location `get_target_location` gives; a catch trial keeps the old target location. |
| Experiment.CueingExperiment.DisplayRefresh | experiment.py:260-286 | `before_target` ends on the first refresh called with `target=True`, whether or not a target is drawn (a catch trial draws none). `moved_eyes_during_rc` becomes set exactly when, in the keypress condition after target onset, the gaze is outside the drift circle. |
| Experiment.CueingExperiment.WaitTime | experiment.py:425-436 | Does nothing once the target is up; before that, reports the abort `WaitError` gives. |
| Experiment.CueingExperiment.LogAndRecycleTrial | experiment.py:400-423 | An aborted outcome whose error row carries the session, condition, factors and error kind, and whose message is the condition's message for that kind. |
| Experiment.CueingExperiment.DrainQueue | experiment.py:452-488 | One pass over a poll's event queue leaves the saccades and the acquisition flag exactly as `ProcessQueue` computes them. |
| Experiment.CueingExperiment.RecordSaccades | experiment.py:438-488 | The polling loop leaves the saccades and the acquisition flag exactly as `RunPolls` computes them, ends `before_target` once a poll runs, and never sets `moved_eyes_during_rc`. |
| Experiment.CueingExperiment.CollectKeypress | experiment.py:206-208 | During the response interval `moved_eyes_during_rc` becomes set exactly when some refresh sees the gaze outside the drift circle. |
| Experiment.CueingExperiment.Trial | experiment.py:181-236 | A trial aborts exactly when the pre-target wait finds a first violation, with that error's row and message, and leaves the flags as prepared. Otherwise it completes with the condition-gated result and feedback. The saccade condition's data are those of `RunPolls` from an empty store. The keypress condition's moved-eyes flag records any gaze outside the circle during the interval. |
| Experiment.CueingExperiment.TrialCleanUp | experiment.py:239-253 | For a logged saccade-condition trial, one row per stored saccade in order, each without `end_time`; no rows otherwise. Saccades and acquisition are reset unconditionally. |

## Left out

- Rendering is not modelled: `fill`, `blit`, `flip`, `clear`, `message`, `construct_placeholder` and `construct_cue` are graphics calls. Refreshes that only draw are omitted from the flag logic.
- Eye tracker, clock, keyboard and response collector calls (`el.gaze`, `el.now`, `el.write`, `drift_correct`, `get_event_queue`, `pump`, `key_pressed`, `any_key`, `smart_sleep`, `rc.collect`) are inputs: gaze samples, clock readings, key sets and event queues.
- Geometry.RemoveFirst: requires the element to be present. Python's `list.remove` raises `ValueError` otherwise, and at `experiment.py:319` the list comes from `which_list(cue_loc, True, …)`, which always holds the cue corner.
- `BoundaryInspector` and `line_segment_len` are foreign code using floating point. Circle tests use squared integer distances, and the drift check counts the boundary as inside.
- Saccades.NewRecord: `dist_from_target` is stored as the squared distance, not the Euclidean one.
- `deg_to_px` is a unit conversion; `offset` and `gaze_boundary` are integer parameters.
- Database writes (`database.insert`, `db.insert`, `db.last_id_from`) are persistence I/O. `TrialCleanUp` returns the rows it would insert and takes the last trial id as a parameter.
- Development-mode printing and the block progress message in `block` are I/O only.
- The two configuration files are used only for the enumerations: two alignments, four cue corners, four target conditions plus `catch` in the keypress condition only (`FactorsAllowed`), and the keypress condition as the negation of the saccade condition.
- The class attribute `saccades = []` shared by all instances until `trial_clean_up` rebinds it is not modelled; the store is a field of the object.
- Experiment.CueingExperiment.Trial: requires the modelled clock readings to reach target onset (`ReachesTargetOnset`), since a finite sample sequence stands in for the unbounded wait loops. The refresh that draws the target is given the screen centre as gaze, because it does not sample the gaze while `before_target` holds.
- Experiment.CueingExperiment.Trial: the `TrialException` raised by `log_and_recycle_trial` becomes the `Aborted` outcome; recycling the trial and the later `trial_clean_up` belong to the runner and are not part of `Trial`.
- `target_acquired` and `moved_eyes` are logged as the strings `TRUE`/`FALSE`; the model keeps them as booleans.
- Unknown milestone names cannot occur: milestones are a datatype.
- The keypress listener's reaction time is an input; how `rc.collect` ends the interval is not modelled.
