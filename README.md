# Car counting engine of powerai-counting-cars, in Dafny

This project models the vehicle tracking-and-counting engine of
`code/plugin_car_counting.py`. It also proves the bookkeeping promises that
engine makes.

Every processed video frame does the following:

1. On every second frame, the plugin takes the detector's boxes. It
   matches each box to a live tracked object, or creates a new object for
   it.
2. On the other frames, it advances every live object by its visual
   tracker.
3. It drops the objects their tracker lost.
4. It runs the crossing step on each object. The test reads the object's
   previous centre, not its current one.
   - If that centre is on the start line's counting side and the object
     has not yet been credited there, the start line is credited. This
     happens at most once in the object's lifetime.
   - Only if the start line is not credited in that frame is the end line
     tested, in the same way. So a frame that credits the start line never
     credits the end line, even when the centre is on both sides.
   - A credit raises that line's session counter by one, and the matching
     column of the object's class in the per-class table by one.
5. In `handle`, when the two session counters are 2 or more apart, the
   smaller one goes up by one. The total shown is the smaller of two
   values: the larger counter from before that nudge, and the sum of the
   per-class averages.

The model has five modules:

- **Geometry** (`geometry.dfy`): points, gate lines and the gate side test.
  The test is stated against the standard orientation determinant.
- **Tally** (`tally.dfy`): the per-class table `car_type_list` as a
  sequence of rows in declaration order. It holds the increment of a
  table cell, the column sums, the reconciliation of the two session
  counters and the displayed total.
- **Tracking** (`tracking.dfy`): detections, tracker boxes and
  truncated centres. It holds the association search `is_existing_item`,
  the class `TrackingItem` with its setters and `update`, and the value
  `ItemView` of an object's state.
- **Engine** (`engine.dfy`): the whole frame step on values, as functions
  on `SessionView`. That is the live list, the last issued sequence
  number and the counters. The lemmas about the frame step live here:
  - the invariant `Inv` (ids strictly increasing and issued, labels known),
    which every step keeps;
  - growth of the list by the unmatched detections;
  - order-preserving pruning;
  - at most one credit per object, per line and per frame, each matched
    in the table.
- **Plugin** (`plugin.dfy`): the imperative part.
  - `Repositories` holds the session's mutable storage: the live list,
    the counters, the per-class table and the sequence counter.
  - `CarCountingPlugin` updates objects and counters in place through
    `process_new_frame` and `handle`.
  - Each method is proved to leave exactly the state the Engine function
    for the same step describes.

Coordinates are real numbers. Python's `int()` is truncation toward zero
(`Tracking.Trunc`). The association test
`sqrt(d2) < box_range` is decided exactly as
`box_range > 0 && d2 < box_range * box_range` (`Tracking.NearIsDistanceTest`). The visual tracker is an
oracle `(Tracker, frame) -> (ok, box)`, and a `Tracker` value records the
box it was seeded with and the frames it has been given.

Some behaviours of the code may surprise a reader. The model keeps them
as written:

- The gate test `cross_line` only reads `point_a`. That is the object's
  *last* centre, read before the sentinel reset at line 214. The current
  centre never influences a credit (`Geometry.CrossLine`).
- A label that is not a key of `car_type_list` makes
  `increase_car_type_count` fail on the dictionary lookup. Nothing falls
  back to "other". The model makes known labels a precondition.
- Reconciliation moves the smaller counter by one per frame. It does not
  bring the two counters within one of each other: that only happens
  when they were at most two apart (`Tally.ReconcileBoundsGap`).
- `is_existing_item` does not skip objects already matched in the same
  cycle. A new object keeps `can_track = True` even when its first
  tracker update fails, because line 195 discards the result. The model
  keeps both behaviours.

## Model

| member | source | states |
|---|---|---|
| Geometry.GateProduct | code/plugin_car_counting.py:18-24 | the cross product `xp` is the negated orientation determinant of (p1, p2, point_a) |
| Geometry.CrossLine | code/plugin_car_counting.py:16-27 | the test holds iff point_a lies strictly counter-clockwise of p1→p2; point_b never matters |
| Geometry.TrackingArea.CrossStartLine | code/plugin_car_counting.py:29-30 | the start-line test holds iff the last centre lies strictly counter-clockwise of the start line |
| Geometry.TrackingArea.CrossEndLine | code/plugin_car_counting.py:32-33 | the end-line test holds iff the last centre lies strictly counter-clockwise of the end line |
| Geometry.SwapNegatesProduct | code/plugin_car_counting.py:18-24 | swapping a line's endpoints negates the cross product |
| Geometry.ExactlyOneOrientationCrosses | code/plugin_car_counting.py:18-27 | a point off the line is crossed for exactly one orientation of the line; a point on it for neither |
| Geometry.ReparameterisedProduct | code/plugin_car_counting.py:18-24 | for two points on the line at parameters s and t, the product scales by t - s |
| Geometry.SameDirectionKeepsSide | code/plugin_car_counting.py:16-27 | any two points of the line in the same direction give the same test result |
| Tally.InitialTableShape | code/plugin_car_counting.py:81-93 | the initial table has twelve classes, and its column sums and displayed sum are zero |
| Tally.InitialCountsZero | code/plugin_car_counting.py:81-93 | every class starts with both counts at zero |
| Tally.InitialNamesDistinct | code/plugin_car_counting.py:81-93 | classes are numbered 1 to 12 in declaration order, and no name occurs twice |
| Tally.InitialTable | code/plugin_car_counting.py:81-93 | the literal table, in declaration order; its properties are stated by InitialTableShape, InitialCountsZero and InitialNamesDistinct |
| Tally.Names | code/plugin_car_counting.py:81-93 | the keys of the table, one per row, in order |
| Tally.IndexOf | code/plugin_car_counting.py:97 | the lookup finds the first row whose name is the key |
| Tally.Increased | code/plugin_car_counting.py:96-100 | exactly the chosen column of the key's row goes up by one; every other row is unchanged; the keys are unchanged |
| Tally.SumsAfterUpdate | code/plugin_car_counting.py:99 | replacing one row changes each column sum by that row's difference |
| Tally.IncreasedSums | code/plugin_car_counting.py:96-100 | an increment adds one to the sum of its column and nothing to the other |
| Tally.ClassCount | code/plugin_car_counting.py:264-265 | a class's displayed count is the mean of its two line counts, truncated: twice it is at most their sum and their sum is less than twice it plus 2 |
| Tally.CarSum | code/plugin_car_counting.py:260-265 | the sum of the displayed counts of the classes with a non-empty name; its properties are stated by CarSumAppend and CarSumBelowMean, and DisplayedSum computes it |
| Tally.CarSumAppend | code/plugin_car_counting.py:260-265 | the displayed per-class sum is additive over concatenated tables |
| Tally.CarSumBelowMean | code/plugin_car_counting.py:260-265 | twice the per-class sum of averages never exceeds the start sum plus the end sum |
| Tally.Reconcile | code/plugin_car_counting.py:241-246 | at a gap of 2 or more, exactly the smaller counter goes up by 1, the gap shrinks by 1 and the maximum is kept; otherwise nothing changes |
| Tally.ReconcileBoundsGap | code/plugin_car_counting.py:241-246 | after the nudge the counters are within 1 of each other iff they were within 2 before |
| Tally.DisplayedTotal | code/plugin_car_counting.py:238-268 | the total is the minimum of the pre-nudge maximum counter and the per-class sum |
| Tally.Credit | code/plugin_car_counting.py:215-225 | a credit keeps the table's keys |
| Tally.CreditEffect | code/plugin_car_counting.py:215-225 | a credit adds one to one session counter and one to the same column sum of the table |
| Tracking.TrackerBox | code/plugin_car_counting.py:178 | the tracker box has the detection's corner and its width and height |
| Tracking.FromTrackerBox | code/plugin_car_counting.py:60-62 | the rebuilt detection has the given label, confidence 1 and exactly the tracker's box |
| Tracking.Center | code/plugin_car_counting.py:49-53 | the centre is equidistant from both box edges on each axis |
| Tracking.Trunc | code/plugin_car_counting.py:127-128 | Python `int()`: truncation toward zero for both signs |
| Tracking.Near | code/plugin_car_counting.py:127-134 | the proximity test between truncated centres; NearIsDistanceTest states that it agrees with the square-root comparison of the source |
| Tracking.NearIsDistanceTest | code/plugin_car_counting.py:127-134 | for the non-negative root d of the squared gap, the exact test holds iff d is strictly below the mean of width and height |
| Tracking.IsExistingItem | code/plugin_car_counting.py:125-136 | returns the first item in list order that is strictly within the box range; returns none iff no item is |
| Tracking.NewItem | code/plugin_car_counting.py:37-47 | a new object is trackable, has the sentinel last centre and no counted flags, and holds the given id, box and label |
| Tracking.Updated | code/plugin_car_counting.py:55-63 | one tracker step of an object's state; what it changes and keeps is stated by UpdatedEffect |
| Tracking.UpdatedEffect | code/plugin_car_counting.py:55-63 | `update` returns the oracle's ok, stores the centre from before the call, advances the tracker by the frame, takes the oracle's box and the new label, and keeps id, trackability and flags |
| Tracking.TrackingItem.constructor | code/plugin_car_counting.py:37-47 | the new object's state is `NewItem` |
| Tracking.TrackingItem.GetCenter | code/plugin_car_counting.py:49-53 | the midpoint of the current box on each axis |
| Tracking.TrackingItem.Update | code/plugin_car_counting.py:55-63 | the new state and the result are `Updated` of the old state |
| Tracking.TrackingItem.UpdateTracker | code/plugin_car_counting.py:65-66 | only the tracker changes |
| Tracking.TrackingItem.UpdateDetectItem | code/plugin_car_counting.py:68-69 | only the box changes |
| Tracking.TrackingItem.UpdateCanTrack | code/plugin_car_counting.py:71-72 | only the trackability flag changes |
| Tracking.TrackingItem.StartCounted | code/plugin_car_counting.py:74-75 | only the start flag changes, it becomes set, and setting it twice changes nothing |
| Tracking.TrackingItem.EndCounted | code/plugin_car_counting.py:77-78 | only the end flag changes, it becomes set, and setting it twice changes nothing |
| Engine.IdsUnique | code/plugin_car_counting.py:38-39 | strictly increasing ids identify live objects uniquely |
| Engine.InitialSessionInv | code/plugin_car_counting.py:81-93 | the empty session satisfies the session invariant |
| Engine.Associate | code/plugin_car_counting.py:177-196 | one detection folded into the session: re-seed the first near object, or admit a new one; its effect is stated by AssociateEffect |
| Engine.Reseeded | code/plugin_car_counting.py:183-188 | the matched object's tracker is a fresh one seeded on the detection's box and advanced by the frame; its box is the box that tracker reports; it is trackable iff the report is ok; its previous centre is the centre it had; it takes the detection's label and keeps its id and flags; every other object, the sequence number and the counters are unchanged |
| Engine.Admitted | code/plugin_car_counting.py:189-196 | exactly one object is appended, with the next id; its tracker is a fresh one seeded on the detection's box and advanced by the frame; its box is the box that tracker reports; its previous centre is the detection's centre; it is trackable whatever the report says; it is uncounted; the list before it and the counters are unchanged |
| Engine.AssociateEffect | code/plugin_car_counting.py:175-196 | the counters are untouched. On a match, only the first near object changes: fresh advanced tracker, reported box, trackability from the report, previous centre from before, new label, same id and flags. Otherwise exactly one object with the next id is appended, with the same tracker and box facts, and the list before it is unchanged |
| Engine.AssociateInv | code/plugin_car_counting.py:175-196 | associating a detection with a known label keeps the session invariant |
| Engine.DetectionCycle | code/plugin_car_counting.py:175-196 | every detection of the frame associated in order; stated by DetectionCycleGrowth and DetectionCycleInv |
| Engine.DetectionCycleGrowth | code/plugin_car_counting.py:175-196 | the list grows by exactly the unmatched detections, appended with consecutive new ids; old objects keep their ids and flags |
| Engine.DetectionCycleInv | code/plugin_car_counting.py:171-196 | the detection cycle keeps the invariant and leaves the counters alone |
| Engine.Advance | code/plugin_car_counting.py:200-201 | one object advanced under its own label: trackable iff the tracker reports success, tracker advanced by the frame, box from the report, previous centre from before the step, id, label and flags kept |
| Engine.TrackingCycle | code/plugin_car_counting.py:199-201 | every live object advanced in list order; stated by TrackingCycleInv, and AdvanceAll performs it in place |
| Engine.TrackingCycleInv | code/plugin_car_counting.py:198-201 | the tracking-only cycle keeps the invariant |
| Engine.Prune | code/plugin_car_counting.py:203-207 | pruning never lengthens the list |
| Engine.PruneMembers | code/plugin_car_counting.py:203-207 | the pruned list holds exactly the trackable objects of the old list |
| Engine.PruneAppend | code/plugin_car_counting.py:203-207 | pruning a concatenation prunes each part, so the original order is kept |
| Engine.PruneKeepsTrackable | code/plugin_car_counting.py:203-207 | a list of trackable objects is left as it is |
| Engine.PruneIdempotent | code/plugin_car_counting.py:203-207 | pruning twice is pruning once |
| Engine.PruneKeepsOrder | code/plugin_car_counting.py:203-207 | the surviving ids are still strictly increasing |
| Engine.PruneInv | code/plugin_car_counting.py:203-207 | pruning keeps the session invariant |
| Engine.CrossItem | code/plugin_car_counting.py:209-225 | one object's crossing step keeps its label and the table's keys |
| Engine.CrossItemEffect | code/plugin_car_counting.py:210-225 | flags are only set; the start line is credited iff its flag was clear and the last centre is on its side; the end line is credited iff the start line was not, its flag was clear and the last centre is on its side; a credit adds one to its counter and is exactly `Increased` of the object's class row in that column; without a credit the counters are unchanged; a previous centre equal to the sentinel on either coordinate becomes the current centre, and any other is kept |
| Engine.CrossingPass | code/plugin_car_counting.py:209-225 | the pass keeps the list length and the table's keys |
| Engine.CrossingPassPrefix | code/plugin_car_counting.py:209-225 | the pass over i+1 objects is the pass over i objects followed by object i's step |
| Engine.CrossingPassKeeps | code/plugin_car_counting.py:209-225 | every object keeps its id, label, trackability, box and tracker; its flags are only set, at most one of them newly |
| Engine.CrossingPassCounts | code/plugin_car_counting.py:209-225 | the counters grow by exactly the newly set start and end flags, at most one per object, and each column sum of the table grows by the same amount |
| Engine.CrossingPassInv | code/plugin_car_counting.py:209-225 | the crossing pass keeps the invariant |
| Engine.CycleResultProperties | code/plugin_car_counting.py:171-201 | either cycle keeps the invariant and the counters, and keeps the flags of every object that survives it |
| Engine.CycleResult | code/plugin_car_counting.py:171-201 | the detection cycle on frames divisible by the interval, the tracking-only cycle otherwise; stated by CycleResultProperties |
| Engine.ProcessFrame | code/plugin_car_counting.py:167-225 | the cycle, then pruning, then the crossing pass; stated by ProcessFrameCounting |
| Engine.ProcessFrameCounting | code/plugin_car_counting.py:167-225 | after a frame: the invariant holds; every live object is trackable; set flags stay set; each counter grows by at most one per live object; the table's column sums grow exactly like the counters |
| Engine.CreditedAtMostOnce | code/plugin_car_counting.py:215-225 | over any history of states with monotone flags, an object earns the credit of each line at most once, and exactly once iff that line's flag went from clear to set |
| Engine.Display | code/plugin_car_counting.py:238-268 | the total from the counters before the nudge, then the nudge; stated by HandleFrameProperties |
| Engine.HandleFrame | code/plugin_car_counting.py:227-268 | the frame step followed by the display step; stated by HandleFrameProperties |
| Engine.HandleFrameProperties | code/plugin_car_counting.py:227-268 | after `handle`, the total is at most the per-class sum and the larger counter; the nudge keeps the larger counter and moves at most one counter by one |
| Plugin.Repositories.constructor | code/plugin_car_counting.py:81-93 | a fresh session: empty list, zero counters, the initial table |
| Plugin.Repositories.Append | code/plugin_car_counting.py:196 | the object is appended at the end and the session owns it |
| Plugin.Repositories.NewTrackingItem | code/plugin_car_counting.py:37-39 | the sequence counter goes up by one, and a fresh object carries the new value |
| Plugin.Repositories.IncreaseCarTypeCount | code/plugin_car_counting.py:96-100 | the table becomes `Increased` of the old table |
| Plugin.AdvanceAll | code/plugin_car_counting.py:199-201 | every live object is advanced in place, as `TrackingCycle` describes |
| Plugin.Trackable | code/plugin_car_counting.py:203-206 | the rebuilt list's states are `Prune` of the old states, and it only holds old objects |
| Plugin.DisplayedSum | code/plugin_car_counting.py:260-265 | the loop computes the per-class sum `CarSum` |
| Plugin.CarCountingPlugin.constructor | code/plugin_car_counting.py:161-165 | the gate area is built from the session's start and end lines |
| Plugin.CarCountingPlugin.AssociateDetection | code/plugin_car_counting.py:177-196 | the session becomes `Associate` of the old session |
| Plugin.CarCountingPlugin.ReseedItem | code/plugin_car_counting.py:183-188 | the matched object is re-seeded and updated in place, as `Reseeded` describes |
| Plugin.CarCountingPlugin.AdmitItem | code/plugin_car_counting.py:189-196 | a new object is created, advanced and appended, as `Admitted` describes |
| Plugin.CarCountingPlugin.Spawn | code/plugin_car_counting.py:190-195 | a fresh object with the next sequence number, advanced once |
| Plugin.CarCountingPlugin.DetectionCycleStep | code/plugin_car_counting.py:175-196 | the session becomes `DetectionCycle` of the old session |
| Plugin.CarCountingPlugin.TrackingOnlyCycle | code/plugin_car_counting.py:198-201 | the session becomes `TrackingStep` of the old session |
| Plugin.CarCountingPlugin.PruneItems | code/plugin_car_counting.py:203-207 | the session becomes `PruneStep` of the old session |
| Plugin.CarCountingPlugin.CrossOne | code/plugin_car_counting.py:210-225 | the object and the counters become `CrossItem` of their old values |
| Plugin.CarCountingPlugin.CrossAt | code/plugin_car_counting.py:209-225 | one more object of the pass has taken its crossing step |
| Plugin.CarCountingPlugin.CrossAll | code/plugin_car_counting.py:209-225 | every object of the list has taken its crossing step, in order |
| Plugin.CarCountingPlugin.CrossingPassStep | code/plugin_car_counting.py:209-225 | the session becomes `CrossingStep` of the old session |
| Plugin.CarCountingPlugin.RunCycle | code/plugin_car_counting.py:171-201 | the session becomes `CycleResult` of the old session |
| Plugin.CarCountingPlugin.PruneAndCrossStep | code/plugin_car_counting.py:203-225 | the session becomes `PruneAndCross` of the old session |
| Plugin.CarCountingPlugin.ProcessNewFrame | code/plugin_car_counting.py:167-225 | the session becomes `ProcessFrame` of the old session and stays valid |
| Plugin.CarCountingPlugin.ReconcileCounters | code/plugin_car_counting.py:241-246 | the counters become `Reconcile` of their old values |
| Plugin.CarCountingPlugin.Display | code/plugin_car_counting.py:238-268 | the counters and the returned total are `Display` of the old session |
| Plugin.CarCountingPlugin.Handle | code/plugin_car_counting.py:227-268 | the session and the total are `HandleFrame` of the old session |

## Left out

- The OpenCV trackers are not modelled: `create_tracker`, `tracker.init` and `tracker.update` are foreign code. A tracker is a value fed to an oracle passed as a parameter.
- Rendering is not modelled, because it draws and computes nothing the engine reads: `display_car_counting`, `cv2.circle`, `cv2.putText`, `fillConvexPoly`, `addWeighted`, the numpy overlay and the `print` calls.
- The detector `_detect` and the frame cache `global_catch.frame_catch` are external input. The detection list of the frame is a parameter.
- The `uuid.uuid4()` tracker ids are random and never read, so objects do not carry them.
- The `StandardPlugin` host lifecycle is not modelled; only the frame number it supplies is, as a parameter.
- `code/Repositories` is not part of this model. Its module-level globals become fields of one `Repositories` object. Their initial values are assumed: an empty list, zero counters and sequence number 0.
- Floating-point rounding is not modelled. Coordinates are exact reals, and `math.sqrt` is replaced by the equivalent exact comparison of squares.
- The guard `car_type and len(car_type_list[car_type]) == 3` only checks for a non-empty name. Every row has exactly the three fields by construction.
- Plugin.CarCountingPlugin.ProcessNewFrame: this requires every detected label to be a class of the table. In the source, an unknown label only fails when such an object crosses a line.
- Plugin.CarCountingPlugin.Handle: this has the same known-label requirement as ProcessNewFrame.
- Engine.CrossItem: this requires the object's label to be a class of the table even when no line is credited. The source looks the label up only on a credit. The same requirement is carried by Engine.CrossingPass, Engine.CrossingStep, Engine.ProcessFrame, Engine.HandleFrame, Plugin.CarCountingPlugin.CrossOne, Plugin.CarCountingPlugin.CrossAt, Plugin.CarCountingPlugin.CrossAll and Plugin.CarCountingPlugin.CrossingPassStep.
- The per-class table `car_type_list` is a module global of `plugin_car_counting.py` (line 81). In the model it is the field `carTypeList` of the session object, beside the `Repositories` globals, so one session holds all the mutable state.
- The `Repr` set of objects that `Repositories` owns is a ghost proof device. It has no counterpart in the source.
