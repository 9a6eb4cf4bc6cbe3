/** The per-class tally table and the session counters: the part of the
    engine that turns line crossings into the counts that are displayed. */
module Tally {

  /** One entry of the tally table: the display slot id of the class and the
      number of its vehicles credited at the start line and at the end line. */
  datatype TypeRow = TypeRow(name: string, sid: int, start: nat, end: nat)

  /** The table is kept in the order its classes were declared; the names
      are its keys. */
  type Table = seq<TypeRow>

  /** The class names, in declaration order. */
  function Names(t: Table): (ns: seq<string>)
    ensures |ns| == |t|
    ensures forall i :: 0 <= i < |t| ==> ns[i] == t[i].name
  {
    if t == [] then [] else [t[0].name] + Names(t[1..])
  }

  /** The table every session starts from: twelve classes, all counts zero. */
  function InitialTable(): Table
  {
    [ TypeRow("green taxi", 1, 0, 0),
      TypeRow("red taxi", 2, 0, 0),
      TypeRow("van", 3, 0, 0),
      TypeRow("bus", 4, 0, 0),
      TypeRow("truck", 5, 0, 0),
      TypeRow("blue taxi", 6, 0, 0),
      TypeRow("private car", 7, 0, 0),
      TypeRow("motorcycle", 8, 0, 0),
      TypeRow("mini bus", 9, 0, 0),
      TypeRow("flatbed truck", 10, 0, 0),
      TypeRow("concrete mixer truck", 11, 0, 0),
      TypeRow("other", 12, 0, 0) ]
  }

  /** The initial table: twelve classes, every count zero, so both column
      sums and the displayed total start at zero. */
  lemma InitialTableShape()
    ensures var t := InitialTable();
      |t| == 12 && CarSum(t) == 0 && SumStart(t) == 0 && SumEnd(t) == 0
  {
    InitialCountsZero();
    ZeroCountsSum(InitialTable());
    CarSumBelowMean(InitialTable());
  }

  /** Every class of the initial table starts with both counts at zero. */
  lemma InitialCountsZero()
    ensures var t := InitialTable();
      forall k :: 0 <= k < |t| ==> t[k].start == 0 && t[k].end == 0
  {
  }

  /** The initial table numbers its classes 1 to 12 in declaration order and
      has no name twice: it is a dictionary keyed by name. */
  lemma InitialNamesDistinct()
    ensures var t := InitialTable();
      (forall k :: 0 <= k < |t| ==> t[k].sid == k + 1) &&
      (forall k, j :: 0 <= k < j < |t| ==> t[k].name != t[j].name)
  {
  }

  /** A table whose every count is zero has zero column sums. */
  lemma {:induction false} ZeroCountsSum(t: Table)
    requires forall k :: 0 <= k < |t| ==> t[k].start == 0 && t[k].end == 0
    ensures SumStart(t) == 0 && SumEnd(t) == 0
  {
    if t != [] {
      ZeroCountsSum(t[1..]);
    }
  }

  /** Position of the row a key looks up. */
  function IndexOf(t: Table, name: string): (k: nat)
    requires name in Names(t)
    ensures k < |t| && t[k].name == name
    ensures forall j :: 0 <= j < k ==> t[j].name != name
  {
    if t[0].name == name then 0 else 1 + IndexOf(t[1..], name)
  }

  /** Which counter of a row a crossing credits: 1 is the start line, 2 the
      end line, as the row's list positions are numbered. */
  predicate IsCountField(field: int) { field == 1 || field == 2 }

  function Bumped(row: TypeRow, field: int): TypeRow
    requires IsCountField(field)
  {
    if field == 1 then row.(start := row.start + 1) else row.(end := row.end + 1)
  }

  function SumStart(t: Table): nat
  {
    if t == [] then 0 else t[0].start + SumStart(t[1..])
  }

  function SumEnd(t: Table): nat
  {
    if t == [] then 0 else t[0].end + SumEnd(t[1..])
  }

  /** The value of the table after one crossing of a vehicle of class
      `carType` is credited to column `field`: the row the key looks up is
      bumped and every other row is kept. A key that is not in the table
      fails the lookup, so callers must only pass known classes. */
  function Increased(t: Table, carType: string, field: int): (r: Table)
    requires carType in Names(t)
    requires IsCountField(field)
    ensures |r| == |t| && Names(r) == Names(t)
    ensures r[IndexOf(t, carType)] == Bumped(t[IndexOf(t, carType)], field)
    ensures forall j :: 0 <= j < |t| && j != IndexOf(t, carType) ==> r[j] == t[j]
  {
    var k := IndexOf(t, carType);
    var r := t[k := Bumped(t[k], field)];
    assert forall j :: 0 <= j < |t| ==> r[j].name == t[j].name;
    r
  }

  /** Replacing one row changes each column sum by the change in that row. */
  lemma {:induction false} SumsAfterUpdate(t: Table, k: nat, row: TypeRow)
    requires k < |t|
    ensures SumStart(t[k := row]) == SumStart(t) - t[k].start + row.start
    ensures SumEnd(t[k := row]) == SumEnd(t) - t[k].end + row.end
  {
    if k > 0 {
      SumsAfterUpdate(t[1..], k - 1, row);
      assert t[k := row][1..] == t[1..][k - 1 := row];
    }
  }

  /** A credit raises the sum of the credited column by exactly one and
      leaves the other column's sum alone. */
  lemma IncreasedSums(t: Table, carType: string, field: int)
    requires carType in Names(t)
    requires IsCountField(field)
    ensures SumStart(Increased(t, carType, field)) == SumStart(t) + (if field == 1 then 1 else 0)
    ensures SumEnd(Increased(t, carType, field)) == SumEnd(t) + (if field == 2 then 1 else 0)
  {
    var k := IndexOf(t, carType);
    SumsAfterUpdate(t, k, Bumped(t[k], field));
    assert Increased(t, carType, field) == t[k := Bumped(t[k], field)];
  }

  /** A class's displayed count: the mean of its two line counts, truncated. */
  function ClassCount(row: TypeRow): (n: nat)
    ensures 2 * n <= row.start + row.end < 2 * n + 2
  {
    (row.start + row.end) / 2
  }

  /** Sum of the displayed per-class counts over the whole table; a row
      whose key is the empty string is skipped. */
  function CarSum(t: Table): nat
  {
    if t == [] then 0
    else (if t[0].name != "" then ClassCount(t[0]) else 0) + CarSum(t[1..])
  }

  /** The sum splits over concatenation, so it can be accumulated row by row. */
  lemma {:induction false} CarSumAppend(a: Table, b: Table)
    ensures CarSum(a + b) == CarSum(a) + CarSum(b)
  {
    if a == [] {
      assert a + b == b;
    } else {
      assert (a + b)[1..] == a[1..] + b;
      CarSumAppend(a[1..], b);
    }
  }

  /** The per-class counts sum to at most the mean of the two column sums,
      so CarSum never exceeds (SumStart + SumEnd) / 2. */
  lemma {:induction false} CarSumBelowMean(t: Table)
    ensures 2 * CarSum(t) <= SumStart(t) + SumEnd(t)
  {
    if t != [] {
      CarSumBelowMean(t[1..]);
    }
  }

  function Abs(x: int): nat { if x < 0 then -x else x }

  function Max(a: int, b: int): int { if a >= b then a else b }

  /** The corrective nudge between the two session counters, in the order the
      two tests run: first raise the start counter if it lags, then raise
      the end counter if it (now) lags; only when they are 2 or more apart.
      Exactly the smaller counter moves, by one, so the larger stays put and
      the gap shrinks by one. */
  function Reconcile(overStart: int, overEnd: int): (r: (int, int))
    ensures Abs(overStart - overEnd) >= 2 && overStart < overEnd ==> r == (overStart + 1, overEnd)
    ensures Abs(overStart - overEnd) >= 2 && overStart > overEnd ==> r == (overStart, overEnd + 1)
    ensures Abs(overStart - overEnd) < 2 ==> r == (overStart, overEnd)
    ensures Max(r.0, r.1) == Max(overStart, overEnd)
    ensures Abs(overStart - overEnd) >= 2 ==> Abs(r.0 - r.1) == Abs(overStart - overEnd) - 1
  {
    var diff := if overStart >= overEnd then overStart - overEnd else overEnd - overStart;
    if diff >= 2 then
      var s := if overStart < overEnd then overStart + 1 else overStart;
      var e := if s > overEnd then overEnd + 1 else overEnd;
      (s, e)
    else
      (overStart, overEnd)
  }

  /** The counters are within 1 of each other after the nudge exactly when
      they were within 2 before it; one frame's nudge does not close a wider
      gap. */
  lemma ReconcileBoundsGap(overStart: int, overEnd: int)
    ensures var (s, e) := Reconcile(overStart, overEnd);
      Abs(s - e) <= 1 <==> Abs(overStart - overEnd) <= 2
  {
  }

  /** The headline count: the larger session counter, capped by the sum of
      the per-class displayed counts. */
  function DisplayedTotal(overStart: int, overEnd: int, t: Table): (total: int)
    ensures total <= CarSum(t)
    ensures total <= Max(overStart, overEnd)
    ensures total == CarSum(t) || total == Max(overStart, overEnd)
  {
    var carCount := Max(overStart, overEnd);
    var carSum := CarSum(t);
    if carCount > carSum then carSum else carCount
  }

  /** The state the counting aggregator owns for a session. */
  datatype Counters = Counters(overStart: int, overEnd: int, table: Table)

  /** One credited crossing: the session counter of that line and the same
      column of the class's row each go up by one. */
  function Credit(c: Counters, carType: string, field: int): (r: Counters)
    requires carType in Names(c.table)
    requires IsCountField(field)
    ensures Names(r.table) == Names(c.table)
  {
    if field == 1 then
      Counters(c.overStart + 1, c.overEnd, Increased(c.table, carType, 1))
    else
      Counters(c.overStart, c.overEnd + 1, Increased(c.table, carType, 2))
  }

  /** The session counters and the tally's column sums move in lockstep,
      and a credit adds exactly one to the two counters together. */
  lemma CreditEffect(c: Counters, carType: string, field: int)
    requires carType in Names(c.table)
    requires IsCountField(field)
    ensures var r := Credit(c, carType, field);
      r.overStart - c.overStart == SumStart(r.table) - SumStart(c.table) &&
      r.overEnd - c.overEnd == SumEnd(r.table) - SumEnd(c.table) &&
      r.overStart - c.overStart == (if field == 1 then 1 else 0) &&
      r.overEnd - c.overEnd == (if field == 2 then 1 else 0)
  {
    IncreasedSums(c.table, carType, field);
  }
}
