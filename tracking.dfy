/** Tracked objects: the detection record, the opaque visual tracker, the
    state of one tracked object (as a value and as the mutable object the
    engine updates in place) and the search that associates a new detection
    with an object already being tracked. */
module Tracking {
  import opened Geometry

  datatype Option<T> = None | Some(value: T)

  /** A detector result, and the record a tracked object keeps of its
      current position: (classLabel, confidence, xmin, ymin, xmax, ymax). */
  datatype Detection = Detection(classLabel: string, confidence: real,
                                 xmin: real, ymin: real, xmax: real, ymax: real)

  /** A box in the visual tracker's format: (x, y, width, height). */
  datatype Box = Box(x: real, y: real, width: real, height: real)

  /** The visual tracker is a black box. Its state is everything it has been
      given: the frame and box it was initialised with, then every frame it
      was advanced on. Frames are identified by their index. */
  datatype Tracker = Initialised(frame: nat, seed: Box) | Advanced(prev: Tracker, frame: nat)

  /** What advancing a tracker on a frame reports: success and the new box. */
  datatype TrackResult = TrackResult(ok: bool, box: Box)

  /** The tracker algorithm: its report for a tracker state and the frame it
      is advanced on. Any deterministic tracker is one of these. */
  type TrackerOracle = (Tracker, nat) -> TrackResult

  /** The box a tracker is seeded with for a detection. */
  function TrackerBox(d: Detection): (b: Box)
    ensures b.x == d.xmin && b.y == d.ymin
    ensures b.x + b.width == d.xmax && b.y + b.height == d.ymax
  {
    Box(d.xmin, d.ymin, d.xmax - d.xmin, d.ymax - d.ymin)
  }

  /** The record an object keeps after the tracker reports box `b`. */
  function FromTrackerBox(classLabel: string, b: Box): (d: Detection)
    ensures d.classLabel == classLabel && d.confidence == 1.0
    ensures TrackerBox(d) == b
  {
    Detection(classLabel, 1.0, b.x, b.y, b.x + b.width, b.y + b.height)
  }

  /** The centre of a record's box (half-pixel values are kept exactly). */
  function Center(d: Detection): (c: Point)
    ensures c.x - d.xmin == d.xmax - c.x && c.y - d.ymin == d.ymax - c.y
  {
    Point((d.xmin + d.xmax) / 2.0, (d.ymin + d.ymax) / 2.0)
  }

  /** The "no previous centre yet" marker. */
  const Sentinel: Point := Point(-1.0, -1.0)

  /** Conversion of a number to an integer by truncation toward zero. */
  function Trunc(r: real): (n: int)
    ensures r >= 0.0 ==> 0 <= n && n as real <= r < n as real + 1.0
    ensures r < 0.0 ==> n <= 0 && n as real - 1.0 < r <= n as real
  {
    if r >= 0.0 then r.Floor else -((-r).Floor)
  }

  /** The proximity radius of a detection: the mean of its width and height. */
  function BoxRange(det: Detection): real
  {
    ((det.xmax - det.xmin) + (det.ymax - det.ymin)) / 2.0
  }

  /** The squared distance between the truncated centres of two records. */
  function SquaredGap(det: Detection, other: Detection): int
  {
    var cx := Trunc((det.xmin + det.xmax) / 2.0);
    var cy := Trunc((det.ymin + det.ymax) / 2.0);
    var tx := Trunc((other.xmin + other.xmax) / 2.0);
    var ty := Trunc((other.ymin + other.ymax) / 2.0);
    (cx - tx) * (cx - tx) + (cy - ty) * (cy - ty)
  }

  /** Whether an existing record lies within a detection's proximity radius:
      the Euclidean distance between the two truncated centres is strictly
      below the radius. The distance is compared through its square
      (see NearIsDistanceTest). */
  predicate Near(det: Detection, other: Detection)
  {
    BoxRange(det) > 0.0 && (SquaredGap(det, other) as real) < BoxRange(det) * BoxRange(det)
  }

  /** The exact test agrees with comparing the distance itself: for the
      non-negative root `d` of the squared gap, `Near` holds iff `d` is
      strictly below the radius. */
  lemma NearIsDistanceTest(det: Detection, other: Detection, d: real)
    requires 0.0 <= d && d * d == SquaredGap(det, other) as real
    ensures Near(det, other) <==> d < BoxRange(det)
  {
    var r := BoxRange(det);
    assert Near(det, other) <==> r > 0.0 && d * d < r * r;
    if d < r {
      calc {
        d * d;
      <= d * r;
      <  r * r;
      }
    } else if r > 0.0 {
      calc {
        d * d;
      >= d * r;
      >= r * r;
      }
    }
  }

  /** The state of one tracked object, as a value. */
  datatype ItemView = ItemView(
    sequenceId: nat,
    classLabel: string,
    tracker: Tracker,
    detectItem: Detection,
    canTrack: bool,
    lastCenter: Point,
    lineStartCounted: bool,
    lineEndCounted: bool)

  /** The associated object for a detection: the position of the FIRST
      object, in list order, whose record is near the detection; None when
      no object is. */
  function IsExistingItem(det: Detection, items: seq<ItemView>): (r: Option<nat>)
    ensures r.Some? ==> r.value < |items| && Near(det, items[r.value].detectItem)
    ensures r.Some? ==> forall j :: 0 <= j < r.value ==> !Near(det, items[j].detectItem)
    ensures r.None? <==> forall j :: 0 <= j < |items| ==> !Near(det, items[j].detectItem)
  {
    if items == [] then None
    else if Near(det, items[0].detectItem) then Some(0)
    else match IsExistingItem(det, items[1..])
      case None => None
      case Some(i) => Some(i + 1)
  }

  /** A freshly created object: trackable, no previous centre, not counted. */
  function NewItem(sequenceId: nat, tracker: Tracker, detectItem: Detection, classLabel: string): (v: ItemView)
    ensures v.canTrack && v.lastCenter == Sentinel
    ensures !v.lineStartCounted && !v.lineEndCounted
    ensures v.sequenceId == sequenceId && v.detectItem == detectItem && v.classLabel == classLabel
  {
    ItemView(sequenceId, classLabel, tracker, detectItem, true, Sentinel, false, false)
  }

  /** One tracker step of an object, relabelled with `classLabel`: the result's
      first half is the tracker's success flag, its second the new state. */
  function Updated(v: ItemView, frame: nat, classLabel: string, oracle: TrackerOracle): (r: (bool, ItemView))
  {
    var report := oracle(v.tracker, frame);
    (report.ok,
     v.(classLabel := classLabel, lastCenter := Center(v.detectItem),
        tracker := Advanced(v.tracker, frame),
        detectItem := FromTrackerBox(classLabel, report.box)))
  }

  /** What a tracker step changes and keeps: the previous centre becomes the
      centre before the step, the record is rebuilt from the reported box
      (so re-seeding a tracker from it gives back that box), the success flag
      is passed through, and identity, trackability and both counted flags
      are untouched. */
  lemma UpdatedEffect(v: ItemView, frame: nat, classLabel: string, oracle: TrackerOracle)
    ensures var (ok, w) := Updated(v, frame, classLabel, oracle);
      ok == oracle(v.tracker, frame).ok &&
      w.lastCenter == Center(v.detectItem) &&
      TrackerBox(w.detectItem) == oracle(v.tracker, frame).box &&
      w.tracker == Advanced(v.tracker, frame) &&
      w.classLabel == classLabel && w.detectItem.classLabel == classLabel &&
      w.sequenceId == v.sequenceId && w.canTrack == v.canTrack &&
      w.lineStartCounted == v.lineStartCounted && w.lineEndCounted == v.lineEndCounted
  {
  }

  /** One tracked object, updated in place by the engine. */
  class TrackingItem {
    const sequenceId: nat
    var classLabel: string
    var tracker: Tracker
    var detectItem: Detection
    var canTrack: bool
    var lastCenter: Point
    var lineStartCounted: bool
    var lineEndCounted: bool

    /** The object's current state as a value. */
    function View(): ItemView
      reads this
    {
      ItemView(sequenceId, classLabel, tracker, detectItem, canTrack, lastCenter,
               lineStartCounted, lineEndCounted)
    }

    /** The identifier is issued by the session (see Repositories.NewTrackingItem). */
    constructor (sequenceId: nat, tracker: Tracker, detectItem: Detection, classLabel: string)
      ensures View() == NewItem(sequenceId, tracker, detectItem, classLabel)
    {
      this.sequenceId := sequenceId;
      this.classLabel := classLabel;
      this.tracker := tracker;
      this.detectItem := detectItem;
      this.canTrack := true;
      this.lastCenter := Sentinel;
      this.lineStartCounted := false;
      this.lineEndCounted := false;
    }

    /** The midpoint of the current record's box. */
    function GetCenter(): (c: Point)
      reads this
      ensures c.x - detectItem.xmin == detectItem.xmax - c.x
      ensures c.y - detectItem.ymin == detectItem.ymax - c.y
    {
      Center(detectItem)
    }

    /** Advance the tracker on `frame` and fold its report into the object. */
    method Update(frame: nat, newClassLabel: string, oracle: TrackerOracle) returns (ok: bool, d: Detection)
      modifies this
      ensures (ok, View()) == Updated(old(View()), frame, newClassLabel, oracle)
      ensures d == detectItem
    {
      classLabel := newClassLabel;
      lastCenter := GetCenter();
      var report := oracle(tracker, frame);
      tracker := Advanced(tracker, frame);
      detectItem := FromTrackerBox(classLabel, report.box);
      ok, d := report.ok, detectItem;
    }

    method UpdateTracker(t: Tracker)
      modifies this
      ensures View() == old(View()).(tracker := t)
    {
      tracker := t;
    }

    method UpdateDetectItem(d: Detection)
      modifies this
      ensures View() == old(View()).(detectItem := d)
    {
      detectItem := d;
    }

    method UpdateCanTrack(b: bool)
      modifies this
      ensures View() == old(View()).(canTrack := b)
    {
      canTrack := b;
    }

    /** Idempotent: calling it on an object already counted changes nothing. */
    method StartCounted()
      modifies this
      ensures View() == old(View()).(lineStartCounted := true)
      ensures old(lineStartCounted) ==> View() == old(View())
    {
      lineStartCounted := true;
    }

    /** Idempotent: calling it on an object already counted changes nothing. */
    method EndCounted()
      modifies this
      ensures View() == old(View()).(lineEndCounted := true)
      ensures old(lineEndCounted) ==> View() == old(View())
    {
      lineEndCounted := true;
    }
  }

  /** The states of a list of objects, in list order. */
  function Views(items: seq<TrackingItem>): (vs: seq<ItemView>)
    reads items
    ensures |vs| == |items|
    ensures forall k :: 0 <= k < |items| ==> vs[k] == items[k].View()
  {
    seq(|items|, k requires 0 <= k < |items| reads items => items[k].View())
  }
}
