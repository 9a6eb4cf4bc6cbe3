/** One frame of the tracking-and-counting engine, on values: the detection
    cycle (association), the tracking-only cycle, pruning, the crossing pass
    and the per-frame reconciliation. The objects of module Plugin are proved
    to do exactly this; the properties of the engine are proved here. */
module Engine {
  import opened Geometry
  import opened Tally
  import opened Tracking

  /** Everything the engine keeps between frames: the live objects in list
      order, the last sequence id issued and the counting state. */
  datatype SessionView = SessionView(items: seq<ItemView>, sequenceId: nat, counters: Counters)

  function InitialSession(): SessionView
  {
    SessionView([], 0, Counters(0, 0, InitialTable()))
  }

  predicate IdsIncreasing(items: seq<ItemView>)
  {
    forall i, j :: 0 <= i < j < |items| ==> items[i].sequenceId < items[j].sequenceId
  }

  predicate KnownLabels(dets: seq<Detection>, t: Table)
  {
    forall i :: 0 <= i < |dets| ==> dets[i].classLabel in Names(t)
  }

  /** What holds of a session between frames: live objects appear in creation
      order, every id was issued already, and every label is a class of the
      table. */
  predicate Inv(s: SessionView)
  {
    IdsIncreasing(s.items) &&
    (forall i :: 0 <= i < |s.items| ==> 0 < s.items[i].sequenceId <= s.sequenceId) &&
    (forall i :: 0 <= i < |s.items| ==> s.items[i].classLabel in Names(s.counters.table))
  }

  /** Increasing ids identify an object's position. */
  lemma IdsUnique(items: seq<ItemView>)
    requires IdsIncreasing(items)
    ensures forall k, j :: (0 <= k < |items| && 0 <= j < |items| &&
                            items[k].sequenceId == items[j].sequenceId) ==> k == j
  {
  }

  lemma InitialSessionInv()
    ensures Inv(InitialSession())
  {
  }

  // ---------------------------------------------------------------- detection

  /** The action one detection causes: re-seed the tracker of the first near
      object and advance it (its trackability is the tracker's report), or
      create a new object with the next id, advance it once and append it
      (the report of that first advance is discarded, so it stays trackable). */
  function Associate(s: SessionView, det: Detection, frame: nat, oracle: TrackerOracle): SessionView
  {
    match IsExistingItem(det, s.items)
    case Some(i) => Reseeded(s, i, det, frame, oracle)
    case None => Admitted(s, det, frame, oracle)
  }

  /** The matched object at position `i` gets a tracker seeded on the
      detection's box and is advanced by it once: it takes the detection's
      label, the box the tracker reports and the trackability it reports,
      and its previous centre becomes the centre it had; nothing else in
      the session changes. */
  function Reseeded(s: SessionView, i: nat, det: Detection, frame: nat, oracle: TrackerOracle): (r: SessionView)
    requires i < |s.items|
    ensures r.sequenceId == s.sequenceId && r.counters == s.counters && |r.items| == |s.items|
    ensures forall k :: 0 <= k < |s.items| && k != i ==> r.items[k] == s.items[k]
    ensures var t0 := Initialised(frame, TrackerBox(det));
      var w := r.items[i];
      w.tracker == Advanced(t0, frame) && TrackerBox(w.detectItem) == oracle(t0, frame).box &&
      w.canTrack == oracle(t0, frame).ok && w.lastCenter == Center(s.items[i].detectItem) &&
      w.classLabel == det.classLabel && w.sequenceId == s.items[i].sequenceId &&
      w.lineStartCounted == s.items[i].lineStartCounted && w.lineEndCounted == s.items[i].lineEndCounted
  {
    UpdatedEffect(s.items[i].(tracker := Initialised(frame, TrackerBox(det))), frame, det.classLabel, oracle);
    var tracker := Initialised(frame, TrackerBox(det));
    var (ok, v) := Updated(s.items[i].(tracker := tracker), frame, det.classLabel, oracle);
    s.(items := s.items[i := v.(canTrack := ok)])
  }

  /** A new object with the next id, seeded on the detection, advanced once
      and appended: it is trackable and uncounted whatever the tracker
      reports, carries the box the tracker reports, and its previous centre
      is the detection's centre; the objects before it are untouched. */
  function Admitted(s: SessionView, det: Detection, frame: nat, oracle: TrackerOracle): (r: SessionView)
    ensures r.sequenceId == s.sequenceId + 1 && r.counters == s.counters
    ensures |r.items| == |s.items| + 1 && r.items[..|s.items|] == s.items
    ensures var t0 := Initialised(frame, TrackerBox(det));
      var w := r.items[|s.items|];
      w.tracker == Advanced(t0, frame) && TrackerBox(w.detectItem) == oracle(t0, frame).box &&
      w.canTrack && w.lastCenter == Center(det) && w.classLabel == det.classLabel &&
      w.sequenceId == r.sequenceId && !w.lineStartCounted && !w.lineEndCounted
  {
    UpdatedEffect(NewItem(s.sequenceId + 1, Initialised(frame, TrackerBox(det)), det, det.classLabel),
                  frame, det.classLabel, oracle);
    assert (s.items + [Updated(NewItem(s.sequenceId + 1, Initialised(frame, TrackerBox(det)), det, det.classLabel),
                               frame, det.classLabel, oracle).1])[..|s.items|] == s.items;
    var tracker := Initialised(frame, TrackerBox(det));
    var (_, v) := Updated(NewItem(s.sequenceId + 1, tracker, det, det.classLabel), frame, det.classLabel, oracle);
    s.(items := s.items + [v], sequenceId := s.sequenceId + 1)
  }

  /** Every detection produces exactly one action: a matched detection changes
      only the first near object, keeping its identity and counted flags; an
      unmatched one appends exactly one trackable, uncounted object whose id
      exceeds every id issued before, and whose previous centre is the
      detection's centre. */
  lemma AssociateEffect(s: SessionView, det: Detection, frame: nat, oracle: TrackerOracle)
    ensures var r := Associate(s, det, frame, oracle);
      r.counters == s.counters &&
      match IsExistingItem(det, s.items)
      case Some(i) =>
        r.sequenceId == s.sequenceId && |r.items| == |s.items| &&
        (forall k :: 0 <= k < |s.items| && k != i ==> r.items[k] == s.items[k]) &&
        r.items[i].sequenceId == s.items[i].sequenceId &&
        r.items[i].classLabel == det.classLabel &&
        r.items[i].canTrack == oracle(Initialised(frame, TrackerBox(det)), frame).ok &&
        r.items[i].tracker == Advanced(Initialised(frame, TrackerBox(det)), frame) &&
        TrackerBox(r.items[i].detectItem) == oracle(Initialised(frame, TrackerBox(det)), frame).box &&
        r.items[i].lastCenter == Center(s.items[i].detectItem) &&
        r.items[i].lineStartCounted == s.items[i].lineStartCounted &&
        r.items[i].lineEndCounted == s.items[i].lineEndCounted
      case None =>
        r.sequenceId == s.sequenceId + 1 && |r.items| == |s.items| + 1 &&
        r.items[..|s.items|] == s.items &&
        var w := r.items[|s.items|];
        w.sequenceId == r.sequenceId && w.canTrack && w.classLabel == det.classLabel &&
        w.lastCenter == Center(det) && !w.lineStartCounted && !w.lineEndCounted &&
        w.tracker == Advanced(Initialised(frame, TrackerBox(det)), frame) &&
        TrackerBox(w.detectItem) == oracle(Initialised(frame, TrackerBox(det)), frame).box
  {
  }

  /** The part of an association the detection cycle's growth depends on:
      ids and flags of the old objects, and the id and flags of the one
      appended when nothing matched. */
  lemma AssociateGrowth(s: SessionView, det: Detection, frame: nat, oracle: TrackerOracle)
    ensures var r := Associate(s, det, frame, oracle);
      var m := if IsExistingItem(det, s.items).None? then 1 else 0;
      r.counters == s.counters && |r.items| == |s.items| + m && r.sequenceId == s.sequenceId + m &&
      (forall k :: 0 <= k < |s.items| ==>
         r.items[k].sequenceId == s.items[k].sequenceId &&
         r.items[k].lineStartCounted == s.items[k].lineStartCounted &&
         r.items[k].lineEndCounted == s.items[k].lineEndCounted) &&
      (m == 1 ==> r.items[|s.items|].sequenceId == r.sequenceId &&
                  !r.items[|s.items|].lineStartCounted && !r.items[|s.items|].lineEndCounted)
  {
    match IsExistingItem(det, s.items)
    case Some(i) =>
    case None =>
      var r := Admitted(s, det, frame, oracle);
      assert forall k :: 0 <= k < |s.items| ==> r.items[k] == r.items[..|s.items|][k];
  }

  lemma AssociateInv(s: SessionView, det: Detection, frame: nat, oracle: TrackerOracle)
    requires Inv(s) && det.classLabel in Names(s.counters.table)
    ensures Inv(Associate(s, det, frame, oracle))
  {
    AssociateEffect(s, det, frame, oracle);
  }

  /** The detection cycle: the detections are associated one after another,
      each against the list as the earlier ones left it. */
  function DetectionCycle(s: SessionView, dets: seq<Detection>, frame: nat, oracle: TrackerOracle): SessionView
    decreases |dets|
  {
    if dets == [] then s
    else Associate(DetectionCycle(s, dets[..|dets| - 1], frame, oracle), dets[|dets| - 1], frame, oracle)
  }

  /** How many detections of the cycle found no near object when their turn came. */
  function Unmatched(s: SessionView, dets: seq<Detection>, frame: nat, oracle: TrackerOracle): nat
    decreases |dets|
  {
    if dets == [] then 0
    else
      var before := DetectionCycle(s, dets[..|dets| - 1], frame, oracle);
      Unmatched(s, dets[..|dets| - 1], frame, oracle)
        + (if IsExistingItem(dets[|dets| - 1], before.items).None? then 1 else 0)
  }

  /** The list grows by exactly the number of unmatched detections, at its
      end, with consecutive fresh ids; the objects already live keep their
      places, ids and counted flags; the counters are untouched. */
  lemma {:induction false} DetectionCycleGrowth(s: SessionView, dets: seq<Detection>, frame: nat, oracle: TrackerOracle)
    ensures var r := DetectionCycle(s, dets, frame, oracle);
      var n := Unmatched(s, dets, frame, oracle);
      n <= |dets| &&
      |r.items| == |s.items| + n && r.sequenceId == s.sequenceId + n &&
      r.counters == s.counters &&
      (forall k :: 0 <= k < |s.items| ==>
         r.items[k].sequenceId == s.items[k].sequenceId &&
         r.items[k].lineStartCounted == s.items[k].lineStartCounted &&
         r.items[k].lineEndCounted == s.items[k].lineEndCounted) &&
      (forall k :: |s.items| <= k < |r.items| ==>
         r.items[k].sequenceId == s.sequenceId + 1 + (k - |s.items|) &&
         !r.items[k].lineStartCounted && !r.items[k].lineEndCounted)
    decreases |dets|
  {
    if dets != [] {
      var init := dets[..|dets| - 1];
      var before := DetectionCycle(s, init, frame, oracle);
      DetectionCycleGrowth(s, init, frame, oracle);
      AssociateGrowth(before, dets[|dets| - 1], frame, oracle);
      var r := Associate(before, dets[|dets| - 1], frame, oracle);
      assert r == DetectionCycle(s, dets, frame, oracle);
      forall k | |s.items| <= k < |r.items|
        ensures r.items[k].sequenceId == s.sequenceId + 1 + (k - |s.items|)
        ensures !r.items[k].lineStartCounted && !r.items[k].lineEndCounted
      {
        if k < |before.items| {
          assert r.items[k].sequenceId == before.items[k].sequenceId;
        }
      }
    }
  }

  lemma {:induction false} DetectionCycleInv(s: SessionView, dets: seq<Detection>, frame: nat, oracle: TrackerOracle)
    requires Inv(s) && KnownLabels(dets, s.counters.table)
    ensures Inv(DetectionCycle(s, dets, frame, oracle))
    ensures DetectionCycle(s, dets, frame, oracle).counters == s.counters
    decreases |dets|
  {
    if dets != [] {
      var init := dets[..|dets| - 1];
      DetectionCycleInv(s, init, frame, oracle);
      var mid := DetectionCycle(s, init, frame, oracle);
      AssociateInv(mid, dets[|dets| - 1], frame, oracle);
      AssociateEffect(mid, dets[|dets| - 1], frame, oracle);
    }
  }

  // ------------------------------------------------------------ tracking only

  /** One object advanced by its own tracker, keeping its label; it stays
      trackable exactly when the tracker reports success. */
  function Advance(v: ItemView, frame: nat, oracle: TrackerOracle): (w: ItemView)
    ensures w.canTrack == oracle(v.tracker, frame).ok
    ensures TrackerBox(w.detectItem) == oracle(v.tracker, frame).box && w.lastCenter == Center(v.detectItem)
    ensures w.tracker == Advanced(v.tracker, frame)
    ensures w.sequenceId == v.sequenceId && w.classLabel == v.classLabel
    ensures w.lineStartCounted == v.lineStartCounted && w.lineEndCounted == v.lineEndCounted
  {
    UpdatedEffect(v, frame, v.classLabel, oracle);
    var (ok, w) := Updated(v, frame, v.classLabel, oracle);
    w.(canTrack := ok)
  }

  function TrackingCycle(items: seq<ItemView>, frame: nat, oracle: TrackerOracle): seq<ItemView>
  {
    seq(|items|, k requires 0 <= k < |items| => Advance(items[k], frame, oracle))
  }

  /** The tracking-only cycle as a step of the session. */
  function TrackingStep(s: SessionView, frame: nat, oracle: TrackerOracle): SessionView
  {
    s.(items := TrackingCycle(s.items, frame, oracle))
  }

  lemma TrackingCycleInv(s: SessionView, frame: nat, oracle: TrackerOracle)
    requires Inv(s)
    ensures Inv(TrackingStep(s, frame, oracle))
  {
  }

  // ------------------------------------------------------------------ pruning


  /** The live list rebuilt from the trackable objects, in their order. */
  function Prune(items: seq<ItemView>): (r: seq<ItemView>)
    ensures |r| <= |items|
    decreases |items|
  {
    if items == [] then []
    else
      var last := items[|items| - 1];
      Prune(items[..|items| - 1]) + (if last.canTrack then [last] else [])
  }

  /** Pruning keeps exactly the trackable objects of the list. */
  lemma {:induction false} PruneMembers(items: seq<ItemView>)
    ensures forall v :: v in Prune(items) ==> v.canTrack && v in items
    ensures forall v :: v in items && v.canTrack ==> v in Prune(items)
    decreases |items|
  {
    if items != [] {
      var init, last := items[..|items| - 1], items[|items| - 1];
      PruneMembers(init);
      assert items == init + [last];
    }
  }

  /** Pruning commutes with concatenation, so the relative order of the
      objects it keeps is the order they had. */
  lemma {:induction false} PruneAppend(a: seq<ItemView>, b: seq<ItemView>)
    ensures Prune(a + b) == Prune(a) + Prune(b)
    decreases |b|
  {
    if b == [] {
      assert a + b == a;
    } else {
      var b', x := b[..|b| - 1], b[|b| - 1];
      var tail := if x.canTrack then [x] else [];
      assert (a + b)[..|a + b| - 1] == a + b' && (a + b)[|a + b| - 1] == x;
      assert Prune(a + b) == Prune(a + b') + tail;
      PruneAppend(a, b');
      assert Prune(b) == Prune(b') + tail;
    }
  }

  /** A list of trackable objects is kept whole. */
  lemma {:induction false} PruneKeepsTrackable(items: seq<ItemView>)
    requires forall k :: 0 <= k < |items| ==> items[k].canTrack
    ensures Prune(items) == items
    decreases |items|
  {
    if items != [] {
      var init := items[..|items| - 1];
      PruneKeepsTrackable(init);
      assert items == init + [items[|items| - 1]];
    }
  }

  /** Pruning twice is pruning once. */
  lemma PruneIdempotent(items: seq<ItemView>)
    ensures Prune(Prune(items)) == Prune(items)
  {
    PruneMembers(items);
    var p := Prune(items);
    assert forall k :: 0 <= k < |p| ==> p[k] in p;
    PruneKeepsTrackable(p);
  }

  /** The kept objects are still in creation order. */
  lemma {:induction false} PruneKeepsOrder(items: seq<ItemView>)
    requires IdsIncreasing(items)
    ensures IdsIncreasing(Prune(items))
    decreases |items|
  {
    if items != [] {
      var init := items[..|items| - 1];
      var last := items[|items| - 1];
      PruneKeepsOrder(init);
      PruneMembers(init);
      var p := Prune(init);
      forall k | 0 <= k < |p|
        ensures p[k].sequenceId < last.sequenceId
      {
        assert p[k] in init;
        var j :| 0 <= j < |init| && init[j] == p[k];
      }
    }
  }

  /** Pruning as a step of the session. */
  function PruneStep(s: SessionView): SessionView
  {
    s.(items := Prune(s.items))
  }

  lemma PruneInv(s: SessionView)
    requires Inv(s)
    ensures Inv(PruneStep(s))
  {
    PruneKeepsOrder(s.items);
    PruneMembers(s.items);
    var p := Prune(s.items);
    forall k | 0 <= k < |p|
      ensures 0 < p[k].sequenceId <= s.sequenceId && p[k].classLabel in Names(s.counters.table)
    {
      assert p[k] in s.items;
    }
  }

  // ------------------------------------------------------------ crossing pass

  /** The crossing step for one object. The gates are tested at the centre
      the object had BEFORE its latest tracker step; the sentinel reset only
      affects the stored previous centre, not the point tested. The start
      gate is tested first and the end gate only when the start gate did not
      credit, so at most one line is credited. */
  function CrossItem(area: TrackingArea, v: ItemView, c: Counters): (r: (ItemView, Counters))
    requires v.classLabel in Names(c.table)
    ensures r.0.classLabel == v.classLabel && Names(r.1.table) == Names(c.table)
  {
    var current := Center(v.detectItem);
    var last := v.lastCenter;
    var v1 := if last.x == -1.0 || last.y == -1.0 then v.(lastCenter := current) else v;
    if !v1.lineStartCounted && area.CrossStartLine(last, current) then
      (v1.(lineStartCounted := true), Credit(c, v1.classLabel, 1))
    else if !v1.lineEndCounted && area.CrossEndLine(last, current) then
      (v1.(lineEndCounted := true), Credit(c, v1.classLabel, 2))
    else
      (v1, c)
  }

  /** What one crossing step changes: the gates are tested at the previous
      centre; the start line is credited exactly when its flag is clear and
      the centre is on its side, the end line exactly when the start line
      was not credited, its flag is clear and the centre is on its side; a
      credit raises that line's session counter by one and the same column
      of the object's class row by one, leaving every other cell alone;
      without a credit the counters do not change; a previous centre that
      is still the sentinel on either coordinate becomes the current centre;
      identity, record, tracker and trackability are kept, and no flag is
      ever cleared. */
  lemma CrossItemEffect(area: TrackingArea, v: ItemView, c: Counters)
    requires v.classLabel in Names(c.table)
    ensures var (w, c2) := CrossItem(area, v, c);
      var newStart := !v.lineStartCounted && w.lineStartCounted;
      var newEnd := !v.lineEndCounted && w.lineEndCounted;
      w.sequenceId == v.sequenceId && w.classLabel == v.classLabel &&
      w.detectItem == v.detectItem && w.canTrack == v.canTrack && w.tracker == v.tracker &&
      w.lastCenter == (if v.lastCenter.x == -1.0 || v.lastCenter.y == -1.0 then Center(v.detectItem) else v.lastCenter) &&
      (v.lineStartCounted ==> w.lineStartCounted) && (v.lineEndCounted ==> w.lineEndCounted) &&
      !(newStart && newEnd) &&
      (newStart <==> !v.lineStartCounted && area.CrossStartLine(v.lastCenter, Center(v.detectItem))) &&
      (newEnd <==> !newStart && !v.lineEndCounted && area.CrossEndLine(v.lastCenter, Center(v.detectItem))) &&
      (newStart ==> c2.table == Increased(c.table, v.classLabel, 1)) &&
      (newEnd ==> c2.table == Increased(c.table, v.classLabel, 2)) &&
      (!newStart && !newEnd ==> c2 == c) &&
      c2.overStart - c.overStart == (if newStart then 1 else 0) &&
      c2.overEnd - c.overEnd == (if newEnd then 1 else 0) &&
      SumStart(c2.table) - SumStart(c.table) == c2.overStart - c.overStart &&
      SumEnd(c2.table) - SumEnd(c.table) == c2.overEnd - c.overEnd &&
      Names(c2.table) == Names(c.table)
  {
    var current := Center(v.detectItem);
    if !v.lineStartCounted && area.CrossStartLine(v.lastCenter, current) {
      CreditEffect(c, v.classLabel, 1);
    } else if !v.lineEndCounted && area.CrossEndLine(v.lastCenter, current) {
      CreditEffect(c, v.classLabel, 2);
    }
  }

  predicate LabelsKnown(items: seq<ItemView>, t: Table)
  {
    forall k :: 0 <= k < |items| ==> items[k].classLabel in Names(t)
  }

  /** The crossing pass over the live list, in list order. */
  function CrossingPass(area: TrackingArea, items: seq<ItemView>, c: Counters): (r: (seq<ItemView>, Counters))
    requires LabelsKnown(items, c.table)
    ensures |r.0| == |items| && Names(r.1.table) == Names(c.table)
    decreases |items|
  {
    if items == [] then ([], c)
    else
      var (ws, c1) := CrossingPass(area, items[..|items| - 1], c);
      var (w, c2) := CrossItem(area, items[|items| - 1], c1);
      (ws + [w], c2)
  }

  /** The crossing pass as a step of the session. */
  function CrossingStep(area: TrackingArea, s: SessionView): SessionView
    requires LabelsKnown(s.items, s.counters.table)
  {
    var (ws, c) := CrossingPass(area, s.items, s.counters);
    s.(items := ws, counters := c)
  }

  /** The pass over one more object of a list is the pass over the shorter
      prefix followed by that object's crossing step. */
  lemma CrossingPassPrefix(area: TrackingArea, items: seq<ItemView>, c: Counters, i: nat)
    requires LabelsKnown(items, c.table) && i < |items|
    ensures LabelsKnown(items[..i], c.table) && LabelsKnown(items[..i + 1], c.table)
    ensures var (ws, c1) := CrossingPass(area, items[..i], c);
      items[i].classLabel in Names(c1.table) &&
      CrossingPass(area, items[..i + 1], c) == (ws + [CrossItem(area, items[i], c1).0], CrossItem(area, items[i], c1).1)
  {
    assert items[..i + 1][..i] == items[..i];
  }

  /** How many objects of a list the pass newly flagged on each line. */
  function NewlyStarted(before: seq<ItemView>, after: seq<ItemView>): nat
    requires |before| == |after|
    decreases |before|
  {
    if before == [] then 0
    else
      NewlyStarted(before[..|before| - 1], after[..|after| - 1])
        + (if !before[|before| - 1].lineStartCounted && after[|after| - 1].lineStartCounted then 1 else 0)
  }

  function NewlyEnded(before: seq<ItemView>, after: seq<ItemView>): nat
    requires |before| == |after|
    decreases |before|
  {
    if before == [] then 0
    else
      NewlyEnded(before[..|before| - 1], after[..|after| - 1])
        + (if !before[|before| - 1].lineEndCounted && after[|after| - 1].lineEndCounted then 1 else 0)
  }

  /** Per object, the pass keeps identity, label, trackability, record and
      tracker, never clears a flag, and newly sets at most one of the two
      flags. */
  predicate KeptObject(v: ItemView, w: ItemView)
  {
    w.sequenceId == v.sequenceId && w.classLabel == v.classLabel &&
    w.canTrack == v.canTrack && w.detectItem == v.detectItem && w.tracker == v.tracker &&
    (v.lineStartCounted ==> w.lineStartCounted) &&
    (v.lineEndCounted ==> w.lineEndCounted) &&
    !(!v.lineStartCounted && w.lineStartCounted && !v.lineEndCounted && w.lineEndCounted)
  }

  predicate PassKeepsObjects(items: seq<ItemView>, ws: seq<ItemView>)
    requires |ws| == |items|
  {
    forall k :: 0 <= k < |items| ==> KeptObject(items[k], ws[k])
  }

  lemma {:induction false} CrossingPassKeeps(area: TrackingArea, items: seq<ItemView>, c: Counters)
    requires LabelsKnown(items, c.table)
    ensures PassKeepsObjects(items, CrossingPass(area, items, c).0)
    decreases |items|
  {
    if items != [] {
      var n := |items| - 1;
      var init, v := items[..n], items[n];
      CrossingPassPrefix(area, items, c, n);
      assert items[..n + 1] == items;
      CrossingPassKeeps(area, init, c);
      var (ws, c1) := CrossingPass(area, init, c);
      var w := CrossItem(area, v, c1).0;
      CrossItemEffect(area, v, c1);
      var all := ws + [w];
      forall k | 0 <= k < |items|
        ensures KeptObject(items[k], all[k])
      {
        if k < n {
          assert all[k] == ws[k] && items[k] == init[k];
        } else {
          assert k == n && all[k] == w;
        }
      }
    }
  }

  /** What a crossing pass does to the counts: each session counter grows by
      the number of objects newly flagged for its line, the tally's column
      for that line by the same amount, and since no object is credited on
      both lines the two counters together grow by at most the list length. */
  lemma {:induction false} CrossingPassCounts(area: TrackingArea, items: seq<ItemView>, c: Counters)
    requires LabelsKnown(items, c.table)
    ensures var (ws, c2) := CrossingPass(area, items, c);
      c2.overStart - c.overStart == NewlyStarted(items, ws) &&
      c2.overEnd - c.overEnd == NewlyEnded(items, ws) &&
      NewlyStarted(items, ws) + NewlyEnded(items, ws) <= |items| &&
      SumStart(c2.table) - SumStart(c.table) == c2.overStart - c.overStart &&
      SumEnd(c2.table) - SumEnd(c.table) == c2.overEnd - c.overEnd
    decreases |items|
  {
    if items != [] {
      var n := |items| - 1;
      var init, v := items[..n], items[n];
      CrossingPassPrefix(area, items, c, n);
      assert items[..n + 1] == items;
      CrossingPassCounts(area, init, c);
      var (ws, c1) := CrossingPass(area, init, c);
      var (w, c2) := CrossItem(area, v, c1);
      CrossItemEffect(area, v, c1);
      var all := ws + [w];
      assert all[..n] == ws && all[n] == w;
    }
  }

  lemma CrossingPassInv(area: TrackingArea, s: SessionView)
    requires Inv(s)
    ensures Inv(CrossingStep(area, s))
  {
    CrossingPassKeeps(area, s.items, s.counters);
  }

  // -------------------------------------------------------------------- frame

  /** The list after the tracking or detection cycle of a frame. */
  function CycleResult(s: SessionView, frame: nat, interval: nat, dets: seq<Detection>,
                       oracle: TrackerOracle): SessionView
    requires interval > 0
  {
    if frame % interval == 0 then DetectionCycle(s, dets, frame, oracle)
    else TrackingStep(s, frame, oracle)
  }

  /** The cycle keeps the invariant and the counters, and every object that
      was live before it and still carries the same id has kept its flags. */
  lemma CycleResultProperties(s: SessionView, frame: nat, interval: nat, dets: seq<Detection>,
                              oracle: TrackerOracle)
    requires interval > 0
    requires Inv(s) && KnownLabels(dets, s.counters.table)
    ensures var s1 := CycleResult(s, frame, interval, dets, oracle);
      Inv(s1) && s1.counters == s.counters &&
      forall k, j :: (0 <= k < |s1.items| && 0 <= j < |s.items| &&
                      s1.items[k].sequenceId == s.items[j].sequenceId) ==>
        s1.items[k].lineStartCounted == s.items[j].lineStartCounted &&
        s1.items[k].lineEndCounted == s.items[j].lineEndCounted
  {
    var s1 := CycleResult(s, frame, interval, dets, oracle);
    if frame % interval == 0 {
      DetectionCycleInv(s, dets, frame, oracle);
      DetectionCycleGrowth(s, dets, frame, oracle);
    } else {
      TrackingCycleInv(s, frame, oracle);
    }
    // Ids are unique, and an object live before the cycle keeps its index.
    IdsUnique(s.items);
  }

  /** The two steps that follow the cycle: pruning, then the crossing pass. */
  function PruneAndCross(area: TrackingArea, s: SessionView): SessionView
    requires Inv(s)
  {
    PruneInv(s);
    CrossingStep(area, PruneStep(s))
  }

  /** One call of the per-frame update: a detection cycle on every
      `interval`-th frame and a tracking-only cycle otherwise, then pruning,
      then the crossing pass. */
  function ProcessFrame(area: TrackingArea, interval: nat, s: SessionView, frame: nat,
                        dets: seq<Detection>, oracle: TrackerOracle): SessionView
    requires interval > 0
    requires Inv(s) && KnownLabels(dets, s.counters.table)
  {
    CycleResultProperties(s, frame, interval, dets, oracle);
    PruneAndCross(area, CycleResult(s, frame, interval, dets, oracle))
  }

  /** The per-frame update keeps the session invariant. After it, the live
      list holds only trackable objects; an object that was live before the
      frame and is live after it has kept each of its counted flags; and the
      two session counters together grew by at most the number of live
      objects, in lockstep with the tally columns. */
  lemma ProcessFrameCounting(area: TrackingArea, interval: nat, s: SessionView, frame: nat,
                             dets: seq<Detection>, oracle: TrackerOracle)
    requires interval > 0
    requires Inv(s) && KnownLabels(dets, s.counters.table)
    ensures var r := ProcessFrame(area, interval, s, frame, dets, oracle);
      Inv(r) &&
      (forall k :: 0 <= k < |r.items| ==> r.items[k].canTrack) &&
      (forall k, j :: (0 <= k < |r.items| && 0 <= j < |s.items| &&
                       r.items[k].sequenceId == s.items[j].sequenceId) ==>
         (s.items[j].lineStartCounted ==> r.items[k].lineStartCounted) &&
         (s.items[j].lineEndCounted ==> r.items[k].lineEndCounted)) &&
      0 <= r.counters.overStart - s.counters.overStart &&
      0 <= r.counters.overEnd - s.counters.overEnd &&
      (r.counters.overStart - s.counters.overStart) + (r.counters.overEnd - s.counters.overEnd) <= |r.items| &&
      SumStart(r.counters.table) - SumStart(s.counters.table) == r.counters.overStart - s.counters.overStart &&
      SumEnd(r.counters.table) - SumEnd(s.counters.table) == r.counters.overEnd - s.counters.overEnd
  {
    var s1 := CycleResult(s, frame, interval, dets, oracle);
    CycleResultProperties(s, frame, interval, dets, oracle);
    PruneInv(s1);
    var p := Prune(s1.items);
    PruneMembers(s1.items);
    CrossingPassInv(area, s1.(items := p));
    CrossingPassCounts(area, p, s1.counters);
    CrossingPassKeeps(area, p, s1.counters);
    var (ws, c) := CrossingPass(area, p, s1.counters);
    forall k | 0 <= k < |ws|
      ensures ws[k].canTrack
    {
      assert p[k] in p;
    }
    forall k, j | 0 <= k < |ws| && 0 <= j < |s.items| && ws[k].sequenceId == s.items[j].sequenceId
      ensures (s.items[j].lineStartCounted ==> ws[k].lineStartCounted) &&
              (s.items[j].lineEndCounted ==> ws[k].lineEndCounted)
    {
      assert p[k] in s1.items;
      var m :| 0 <= m < |s1.items| && s1.items[m] == p[k];
    }
  }

  /** An object's history of states across frames, as far as its flags go:
      the flags the engine keeps never go from set to unset. */
  predicate FlagsMonotone(h: seq<ItemView>)
  {
    forall k :: 0 <= k < |h| - 1 ==>
      (h[k].lineStartCounted ==> h[k + 1].lineStartCounted) &&
      (h[k].lineEndCounted ==> h[k + 1].lineEndCounted)
  }

  /** The counted flag of a line: field 1 is the start line, field 2 the
      end line, as in the columns of the class table. */
  function CountedFlag(v: ItemView, field: int): bool
    requires IsCountField(field)
  {
    if field == 1 then v.lineStartCounted else v.lineEndCounted
  }

  /** The number of frames of a history in which the object was credited on
      a line, i.e. that line's flag went from unset to set. */
  function Credits(h: seq<ItemView>, field: int): nat
    requires IsCountField(field)
    decreases |h|
  {
    if |h| < 2 then 0
    else
      Credits(h[..|h| - 1], field)
        + (if !CountedFlag(h[|h| - 2], field) && CountedFlag(h[|h| - 1], field) then 1 else 0)
  }

  /** Counted at most once per line for its whole lifetime: along a history
      in which the flags are never cleared, the object is credited on each
      line at most once, and exactly once when it ends flagged on that line
      having started unflagged. */
  lemma {:induction false} CreditedAtMostOnce(h: seq<ItemView>, field: int)
    requires FlagsMonotone(h) && IsCountField(field)
    ensures Credits(h, field) <= 1
    ensures |h| > 0 && CountedFlag(h[0], field) ==> CountedFlag(h[|h| - 1], field)
    ensures |h| > 0 ==> (Credits(h, field) == 1 <==> !CountedFlag(h[0], field) && CountedFlag(h[|h| - 1], field))
    decreases |h|
  {
    if |h| >= 2 {
      var init := h[..|h| - 1];
      assert FlagsMonotone(init);
      CreditedAtMostOnce(init, field);
      assert init[0] == h[0] && init[|init| - 1] == h[|h| - 2];
    }
  }


  /** What the display step does after the per-frame update: the headline
      total is computed from the counters as the update left them (the
      larger of the two, capped by the per-class sum), and then the two
      counters are reconciled. */
  function HandleFrame(area: TrackingArea, interval: nat, s: SessionView, frame: nat,
                       dets: seq<Detection>, oracle: TrackerOracle): (r: (SessionView, int))
    requires interval > 0
    requires Inv(s) && KnownLabels(dets, s.counters.table)
  {
    Display(ProcessFrame(area, interval, s, frame, dets, oracle))
  }

  /** The display step's bookkeeping on a processed session: the headline
      total is taken from the counters as they are, then they are nudged. */
  function Display(s: SessionView): (r: (SessionView, int))
  {
    var (a, b) := Reconcile(s.counters.overStart, s.counters.overEnd);
    (s.(counters := s.counters.(overStart := a, overEnd := b)),
     DisplayedTotal(s.counters.overStart, s.counters.overEnd, s.counters.table))
  }

  /** The handled frame keeps the invariant; the headline never exceeds the
      per-class sum nor the larger counter, and reconciliation moves at most
      one counter by one while keeping the larger one. */
  lemma HandleFrameProperties(area: TrackingArea, interval: nat, s: SessionView, frame: nat,
                              dets: seq<Detection>, oracle: TrackerOracle)
    requires interval > 0
    requires Inv(s) && KnownLabels(dets, s.counters.table)
    ensures var (r, total) := HandleFrame(area, interval, s, frame, dets, oracle);
      var m := ProcessFrame(area, interval, s, frame, dets, oracle);
      Inv(r) && r.items == m.items && r.counters.table == m.counters.table &&
      total <= CarSum(r.counters.table) &&
      total <= Max(r.counters.overStart, r.counters.overEnd) &&
      Max(r.counters.overStart, r.counters.overEnd) == Max(m.counters.overStart, m.counters.overEnd) &&
      r.counters.overStart >= m.counters.overStart && r.counters.overEnd >= m.counters.overEnd &&
      (r.counters.overStart - m.counters.overStart) + (r.counters.overEnd - m.counters.overEnd) <= 1
  {
    ProcessFrameCounting(area, interval, s, frame, dets, oracle);
  }
}
