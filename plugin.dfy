/** The stateful engine: the session storage and the plugin whose per-frame
    update and display step change it in place. Each method is proved to do
    what the value-level engine of module Engine says. */
module Plugin {
  import opened Geometry
  import opened Tally
  import opened Tracking
  import opened Engine

  /** Session-wide storage: the id counter, the live objects, the two session
      counters, the per-class tally table and the two configured gates. */
  class Repositories {
    var sequenceId: nat
    var allItemList: seq<TrackingItem>
    var overStartCounter: int
    var overEndCounter: int
    var carTypeList: Table
    const startLine: Line
    const endLine: Line
    /** Every object the session has created: the objects its methods may
        update in place. */
    ghost var Repr: set<TrackingItem>

    function CountingState(): Counters
      reads this
    {
      Counters(overStartCounter, overEndCounter, carTypeList)
    }

    function View(): SessionView
      reads this, allItemList
    {
      SessionView(Views(allItemList), sequenceId, CountingState())
    }

    /** Every live object is one the session owns. */
    ghost predicate Owns()
      reads this
    {
      forall i :: 0 <= i < |allItemList| ==> allItemList[i] in Repr
    }

    ghost predicate Valid()
      reads this, allItemList
    {
      Owns() && Inv(View())
    }

    constructor (startLine: Line, endLine: Line)
      ensures Valid() && View() == InitialSession()
      ensures this.startLine == startLine && this.endLine == endLine
    {
      sequenceId := 0;
      allItemList := [];
      overStartCounter, overEndCounter := 0, 0;
      carTypeList := InitialTable();
      this.startLine, this.endLine := startLine, endLine;
      Repr := {};
    }

    /** Append an object to the live list; the session now owns it. */
    method Append(item: TrackingItem)
      requires Owns()
      modifies this`allItemList, this`Repr
      ensures allItemList == old(allItemList) + [item] && Repr == old(Repr) + {item}
      ensures Owns()
    {
      allItemList := allItemList + [item];
      Repr := Repr + {item};
    }

    /** Create an object with the next sequence id; the id is strictly
        greater than every id issued before. */
    method NewTrackingItem(tracker: Tracker, detectItem: Detection, classLabel: string)
      returns (item: TrackingItem)
      modifies this`sequenceId
      ensures fresh(item) && sequenceId == old(sequenceId) + 1
      ensures item.View() == NewItem(sequenceId, tracker, detectItem, classLabel)
    {
      sequenceId := sequenceId + 1;
      item := new TrackingItem(sequenceId, tracker, detectItem, classLabel);
    }

    /** Credit one crossing to column `field` of the row keyed `carType`. */
    method IncreaseCarTypeCount(carType: string, field: int)
      requires carType in Names(carTypeList)
      requires IsCountField(field)
      modifies this`carTypeList
      ensures carTypeList == Increased(old(carTypeList), carType, field)
    {
      var k := IndexOf(carTypeList, carType);
      carTypeList := carTypeList[k := Bumped(carTypeList[k], field)];
    }
  }

  /** Appending one object appends its state. */
  lemma ViewsAppend(items: seq<TrackingItem>, t: TrackingItem)
    ensures Views(items + [t]) == Views(items) + [t.View()]
  {
    assert |Views(items + [t])| == |Views(items) + [t.View()]|;
  }

  /** No object occurs twice in the list. */
  ghost predicate Distinct(items: seq<TrackingItem>)
    decreases |items|
  {
    items == [] || (items[0] !in items[1..] && Distinct(items[1..]))
  }

  /** In a list without repetitions, the object at position i is at no
      other position. */
  lemma {:induction false} DistinctAt(items: seq<TrackingItem>, i: nat)
    requires Distinct(items) && i < |items|
    ensures forall k :: 0 <= k < |items| && k != i ==> items[k] != items[i]
    decreases |items|
  {
    var rest := items[1..];
    if i == 0 {
      forall k | 0 < k < |items|
        ensures items[k] != items[0]
      {
        assert items[k] == rest[k - 1];
      }
    } else {
      DistinctAt(rest, i - 1);
      assert items[i] == rest[i - 1];
      forall k | 0 <= k < |items| && k != i
        ensures items[k] != items[i]
      {
        if k > 0 { assert items[k] == rest[k - 1]; }
      }
    }
  }

  /** Appending an object not yet in the list keeps it without repetitions. */
  lemma {:induction false} DistinctAppend(items: seq<TrackingItem>, t: TrackingItem)
    requires Distinct(items) && t !in items
    ensures Distinct(items + [t])
    decreases |items|
  {
    if items == [] {
      assert [] + [t] == [t];
    } else {
      assert (items + [t])[1..] == items[1..] + [t];
      DistinctAppend(items[1..], t);
    }
  }

  /** A list whose states have increasing ids holds distinct objects. */
  lemma {:induction false} ItemsDistinct(items: seq<TrackingItem>)
    requires IdsIncreasing(Views(items))
    ensures Distinct(items)
    decreases |items|
  {
    if items != [] {
      var vs, rest := Views(items), items[1..];
      var ws := Views(rest);
      assert forall k :: 0 <= k < |rest| ==> ws[k] == vs[k + 1];
      ItemsDistinct(rest);
      forall k | 0 <= k < |rest|
        ensures rest[k] != items[0]
      {
        assert vs[0].sequenceId < vs[k + 1].sequenceId;
      }
    }
  }

  /** Advance every object of a list of distinct objects by its tracker. */
  method AdvanceAll(items: seq<TrackingItem>, frameId: nat, oracle: TrackerOracle)
    requires Distinct(items)
    modifies items
    ensures Views(items) == TrackingCycle(old(Views(items)), frameId, oracle)
  {
    ghost var before := Views(items);
    for i := 0 to |items|
      invariant forall k :: 0 <= k < i ==> items[k].View() == Advance(before[k], frameId, oracle)
      invariant forall k :: i <= k < |items| ==> items[k].View() == before[k]
    {
      DistinctAt(items, i);
      var item := items[i];
      var canTrack, _ := item.Update(frameId, item.classLabel, oracle);
      item.UpdateCanTrack(canTrack);
    }
    assert Views(items) == TrackingCycle(before, frameId, oracle);
  }

  /** The trackable objects of a list, in list order. */
  method Trackable(items: seq<TrackingItem>) returns (kept: seq<TrackingItem>)
    ensures Views(kept) == Prune(Views(items))
    ensures forall i :: 0 <= i < |kept| ==> kept[i] in items
  {
    ghost var vs := Views(items);
    kept := [];
    for i := 0 to |items|
      invariant Views(kept) == Prune(vs[..i])
      invariant forall k :: 0 <= k < |kept| ==> kept[k] in items
    {
      var item := items[i];
      assert vs[..i + 1][..i] == vs[..i] && vs[i] == item.View();
      ViewsAppend(kept, item);
      if item.canTrack {
        kept := kept + [item];
      }
    }
    assert vs[..|items|] == vs;
  }

  class CarCountingPlugin {
    /** Every `interval`-th frame runs the detector. */
    const interval: nat := 2
    const trackingArea: TrackingArea
    const repo: Repositories

    constructor (repo: Repositories)
      ensures this.repo == repo
      ensures trackingArea == TrackingArea(repo.startLine, repo.endLine)
    {
      this.repo := repo;
      this.trackingArea := TrackingArea(repo.startLine, repo.endLine);
    }

    /** Fold one detection into the live list (see Engine.Associate). */
    method AssociateDetection(detectedItem: Detection, frameId: nat, oracle: TrackerOracle)
      requires Distinct(repo.allItemList) && repo.Owns()
      modifies repo, repo.Repr
      ensures Distinct(repo.allItemList) && repo.Owns()
      ensures repo.View() == Associate(old(repo.View()), detectedItem, frameId, oracle)
      ensures old(repo.Repr) <= repo.Repr && fresh(repo.Repr - old(repo.Repr))
    {
      var isExist := IsExistingItem(detectedItem, Views(repo.allItemList));
      if isExist.Some? {
        ReseedItem(isExist.value, detectedItem, frameId, oracle);
      } else {
        AdmitItem(detectedItem, frameId, oracle);
      }
    }

    /** The matched branch: re-seed the object's tracker on the detection
        and advance it (see Engine.Reseeded). */
    method ReseedItem(i: nat, detectedItem: Detection, frameId: nat, oracle: TrackerOracle)
      requires Distinct(repo.allItemList) && repo.Owns() && i < |repo.allItemList|
      modifies repo.allItemList[i]
      ensures repo.View() == Reseeded(old(repo.View()), i, detectedItem, frameId, oracle)
    {
      ghost var before := repo.View();
      var items := repo.allItemList;
      DistinctAt(items, i);
      var item := items[i];
      var tracker := Initialised(frameId, TrackerBox(detectedItem));
      item.UpdateTracker(tracker);
      var canTrack, _ := item.Update(frameId, detectedItem.classLabel, oracle);
      item.UpdateCanTrack(canTrack);
      assert Views(items) == before.items[i := item.View()];
    }

    /** The unmatched branch: create an object for the detection, advance it
        once and append it (see Engine.Admitted). */
    method AdmitItem(detectedItem: Detection, frameId: nat, oracle: TrackerOracle)
      requires Distinct(repo.allItemList) && repo.Owns()
      modifies repo
      ensures Distinct(repo.allItemList) && repo.Owns()
      ensures repo.View() == Admitted(old(repo.View()), detectedItem, frameId, oracle)
      ensures old(repo.Repr) <= repo.Repr && fresh(repo.Repr - old(repo.Repr))
    {
      ghost var s0 := repo.View();
      var items := repo.allItemList;
      var item := Spawn(detectedItem, frameId, oracle);
      ghost var v := item.View();
      assert Views(items) == s0.items;
      DistinctAppend(items, item);
      repo.Append(item);
      ViewsAppend(items, item);
      assert repo.View() == s0.(items := s0.items + [v], sequenceId := s0.sequenceId + 1);
    }

    /** A new object for an unmatched detection, with the next sequence
        number, advanced once by its tracker. */
    method Spawn(detectedItem: Detection, frameId: nat, oracle: TrackerOracle) returns (item: TrackingItem)
      modifies repo`sequenceId
      ensures fresh(item) && repo.sequenceId == old(repo.sequenceId) + 1
      ensures item.View() == Updated(NewItem(repo.sequenceId, Initialised(frameId, TrackerBox(detectedItem)),
                                             detectedItem, detectedItem.classLabel),
                                     frameId, detectedItem.classLabel, oracle).1
    {
      var tracker := Initialised(frameId, TrackerBox(detectedItem));
      item := repo.NewTrackingItem(tracker, detectedItem, detectedItem.classLabel);
      var _, _ := item.Update(frameId, detectedItem.classLabel, oracle);
    }

    /** The detection cycle: every detection of the frame, in order. */
    method DetectionCycleStep(frameId: nat, detectedItemList: seq<Detection>, oracle: TrackerOracle)
      requires Distinct(repo.allItemList) && repo.Owns()
      modifies repo, repo.Repr
      ensures Distinct(repo.allItemList) && repo.Owns()
      ensures repo.View() == DetectionCycle(old(repo.View()), detectedItemList, frameId, oracle)
      ensures old(repo.Repr) <= repo.Repr && fresh(repo.Repr - old(repo.Repr))
    {
      ghost var s0 := repo.View();
      for i := 0 to |detectedItemList|
        invariant Distinct(repo.allItemList) && repo.Owns()
        invariant repo.View() == DetectionCycle(s0, detectedItemList[..i], frameId, oracle)
        invariant old(repo.Repr) <= repo.Repr && fresh(repo.Repr - old(repo.Repr))
      {
        assert detectedItemList[..i + 1][..i] == detectedItemList[..i];
        AssociateDetection(detectedItemList[i], frameId, oracle);
      }
      assert detectedItemList[..|detectedItemList|] == detectedItemList;
    }

    /** The tracking-only cycle: every live object advanced by its tracker. */
    method TrackingOnlyCycle(frameId: nat, oracle: TrackerOracle)
      requires Distinct(repo.allItemList) && repo.Owns()
      modifies repo.Repr
      ensures repo.View() == TrackingStep(old(repo.View()), frameId, oracle)
    {
      AdvanceAll(repo.allItemList, frameId, oracle);
    }

    /** Rebuild the live list from its trackable objects, in order. */
    method PruneItems()
      requires repo.Owns()
      modifies repo`allItemList
      ensures repo.Owns()
      ensures repo.View() == PruneStep(old(repo.View()))
      ensures repo.Repr == old(repo.Repr)
    {
      var tmpAllItem := Trackable(repo.allItemList);
      repo.allItemList := tmpAllItem;
    }

    /** The crossing step of one live object (see Engine.CrossItem). */
    method CrossOne(item: TrackingItem)
      requires item.classLabel in Names(repo.carTypeList)
      modifies repo`overStartCounter, repo`overEndCounter, repo`carTypeList, item
      ensures (item.View(), repo.CountingState()) == CrossItem(trackingArea, old(item.View()), old(repo.CountingState()))
    {
      var currentCenterPoint := item.GetCenter();
      var lastCenterPoint := item.lastCenter;
      if lastCenterPoint.x == -1.0 || lastCenterPoint.y == -1.0 {
        item.lastCenter := currentCenterPoint;
      }
      if !item.lineStartCounted && trackingArea.CrossStartLine(lastCenterPoint, currentCenterPoint) {
        repo.overStartCounter := repo.overStartCounter + 1;
        repo.IncreaseCarTypeCount(item.classLabel, 1);
        item.StartCounted();
      } else if !item.lineEndCounted && trackingArea.CrossEndLine(lastCenterPoint, currentCenterPoint) {
        repo.overEndCounter := repo.overEndCounter + 1;
        repo.IncreaseCarTypeCount(item.classLabel, 2);
        item.EndCounted();
      }
    }

    /** What holds after the crossing step of the first `i` objects of a
        list whose states were `before` and whose counters were `c0`: the
        counters and the first `i` states are the pass over `before[..i]`,
        and the other objects are untouched. */
    ghost predicate CrossedUpTo(items: seq<TrackingItem>, before: seq<ItemView>, c0: Counters,
                                ws: seq<ItemView>, i: nat)
      reads repo, items
    {
      |before| == |items| && i <= |items| &&
      LabelsKnown(before[..i], c0.table) &&
      (ws, repo.CountingState()) == CrossingPass(trackingArea, before[..i], c0) &&
      (forall k :: 0 <= k < i ==> items[k].View() == ws[k]) &&
      (forall k :: i <= k < |items| ==> items[k].View() == before[k])
    }

    /** One turn of the crossing pass: the crossing step of object `i`. */
    method CrossAt(items: seq<TrackingItem>, i: nat, ghost before: seq<ItemView>, ghost c0: Counters,
                   ghost ws: seq<ItemView>)
      returns (ghost ws': seq<ItemView>)
      requires Distinct(items) && i < |items| && LabelsKnown(before, c0.table)
      requires CrossedUpTo(items, before, c0, ws, i)
      modifies items[i], repo`overStartCounter, repo`overEndCounter, repo`carTypeList
      ensures CrossedUpTo(items, before, c0, ws', i + 1)
    {
      CrossingPassPrefix(trackingArea, before, c0, i);
      DistinctAt(items, i);
      ghost var r := CrossItem(trackingArea, before[i], repo.CountingState());
      CrossOne(items[i]);
      ws' := ws + [r.0];
    }

    /** The crossing pass: the crossing step of every live object, in list
        order. */
    method CrossingPassStep()
      requires Distinct(repo.allItemList)
      requires LabelsKnown(Views(repo.allItemList), repo.carTypeList)
      modifies repo`overStartCounter, repo`overEndCounter, repo`carTypeList, repo.allItemList
      ensures repo.View() == CrossingStep(trackingArea, old(repo.View()))
      ensures repo.Repr == old(repo.Repr)
    {
      var items := repo.allItemList;
      ghost var before := Views(items);
      ghost var ws := CrossAll(items, before, repo.CountingState());
      assert before[..|items|] == before;
      assert Views(items) == ws;
    }

    /** The loop of the crossing pass over `items`, whose states are
        `before`: afterwards every object has taken its crossing step. */
    method CrossAll(items: seq<TrackingItem>, ghost before: seq<ItemView>, ghost c0: Counters)
      returns (ghost ws: seq<ItemView>)
      requires Distinct(items) && LabelsKnown(before, c0.table)
      requires CrossedUpTo(items, before, c0, [], 0)
      modifies items, repo`overStartCounter, repo`overEndCounter, repo`carTypeList
      ensures CrossedUpTo(items, before, c0, ws, |items|)
    {
      ws := [];
      for i := 0 to |items|
        invariant CrossedUpTo(items, before, c0, ws, i)
      {
        ws := CrossAt(items, i, before, c0, ws);
      }
    }

    /** The cycle chosen by the frame number: the detection cycle on every
        `interval`-th frame, the tracking-only cycle on the others. */
    method RunCycle(frameId: nat, detectedItemList: seq<Detection>, oracle: TrackerOracle)
      requires Distinct(repo.allItemList) && repo.Owns()
      modifies repo, repo.Repr
      ensures repo.Owns()
      ensures repo.View() == CycleResult(old(repo.View()), frameId, interval, detectedItemList, oracle)
      ensures old(repo.Repr) <= repo.Repr && fresh(repo.Repr - old(repo.Repr))
    {
      if frameId % interval == 0 {
        DetectionCycleStep(frameId, detectedItemList, oracle);
      } else {
        TrackingOnlyCycle(frameId, oracle);
      }
    }

    /** Pruning, then the crossing pass (see Engine.PruneAndCross). */
    method PruneAndCrossStep()
      requires repo.Owns() && Inv(repo.View())
      modifies repo`allItemList, repo`overStartCounter, repo`overEndCounter, repo`carTypeList, repo.Repr
      ensures repo.Owns() && repo.Repr == old(repo.Repr)
      ensures repo.View() == PruneAndCross(trackingArea, old(repo.View()))
    {
      ghost var s := repo.View();
      PruneInv(s);
      PruneItems();
      ItemsDistinct(repo.allItemList);
      CrossingPassStep();
    }

    /** The per-frame update: the cycle chosen by the frame number, then
        pruning, then the crossing pass. */
    method ProcessNewFrame(frameId: nat, detectedItemList: seq<Detection>, oracle: TrackerOracle)
      requires repo.Valid() && KnownLabels(detectedItemList, repo.carTypeList)
      modifies repo, repo.Repr
      ensures repo.Valid()
      ensures old(repo.Repr) <= repo.Repr && fresh(repo.Repr - old(repo.Repr))
      ensures repo.View() == ProcessFrame(trackingArea, interval, old(repo.View()), frameId, detectedItemList, oracle)
    {
      ghost var s := repo.View();
      CycleResultProperties(s, frameId, interval, detectedItemList, oracle);
      ItemsDistinct(repo.allItemList);
      RunCycle(frameId, detectedItemList, oracle);
      PruneAndCrossStep();
      ProcessFrameCounting(trackingArea, interval, s, frameId, detectedItemList, oracle);
    }

    /** The corrective nudge between the two session counters. */
    method ReconcileCounters()
      modifies repo`overStartCounter, repo`overEndCounter
      ensures (repo.overStartCounter, repo.overEndCounter) == Reconcile(old(repo.overStartCounter), old(repo.overEndCounter))
    {
      var tmpDiff := Abs(repo.overStartCounter - repo.overEndCounter);
      if tmpDiff >= 2 {
        if repo.overStartCounter < repo.overEndCounter {
          repo.overStartCounter := repo.overStartCounter + 1;
        }
        if repo.overStartCounter > repo.overEndCounter {
          repo.overEndCounter := repo.overEndCounter + 1;
        }
      }
    }

    /** The display step's bookkeeping (see Engine.Display): the headline
        total is taken before the counters are nudged. */
    method Display() returns (carCount: int)
      modifies repo`overStartCounter, repo`overEndCounter
      ensures (repo.View(), carCount) == Engine.Display(old(repo.View()))
    {
      carCount := Max(repo.overStartCounter, repo.overEndCounter);
      ReconcileCounters();
      var carSum := DisplayedSum(repo.carTypeList);
      if carCount > carSum {
        carCount := carSum;
      }
    }

    /** The per-frame update followed by the display step's bookkeeping:
        returns the headline count shown for the frame. */
    method Handle(frameId: nat, detectedItemList: seq<Detection>, oracle: TrackerOracle)
      returns (carCount: int)
      requires repo.Valid() && KnownLabels(detectedItemList, repo.carTypeList)
      modifies repo, repo.Repr
      ensures repo.Valid()
      ensures old(repo.Repr) <= repo.Repr && fresh(repo.Repr - old(repo.Repr))
      ensures (repo.View(), carCount) == HandleFrame(trackingArea, interval, old(repo.View()), frameId, detectedItemList, oracle)
    {
      ghost var s := repo.View();
      HandleFrameProperties(trackingArea, interval, s, frameId, detectedItemList, oracle);
      ProcessNewFrame(frameId, detectedItemList, oracle);
      carCount := Display();
    }
  }

  /** The sum of the displayed per-class counts, accumulated row by row. */
  method DisplayedSum(carTypeSet: Table) returns (carSum: nat)
    ensures carSum == CarSum(carTypeSet)
  {
    carSum := 0;
    for i := 0 to |carTypeSet|
      invariant carSum == CarSum(carTypeSet[..i])
    {
      CarSumAppend(carTypeSet[..i], [carTypeSet[i]]);
      assert carTypeSet[..i + 1] == carTypeSet[..i] + [carTypeSet[i]];
      if carTypeSet[i].name != "" {
        carSum := carSum + ClassCount(carTypeSet[i]);
      }
    }
    assert carTypeSet[..|carTypeSet|] == carTypeSet;
  }
}
