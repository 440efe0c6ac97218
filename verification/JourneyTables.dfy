/** The row writes behind reorder, create and delete, each checked at once against UNIQUE(journey, position):
    why none of them can break it, and exactly when the bulk shift could. */
module JourneyTables {
  import opened Basics
  import opened JourneyDomain
  import opened JourneyService
  import opened JourneyEdits
  import opened JourneyDatabase

  // ---- checked row writes ---

  /** The immediate UNIQUE check for writing `position` into row k. */
  predicate Free(segments: seq<Segment>, k: nat, position: int)
    requires k < |segments|
  {
    forall j | 0 <= j < |segments| :: j == k || segments[j].journeyId != segments[k].journeyId ||
        segments[j].position != position
  }

  function Place(segments: seq<Segment>, k: nat, row: Segment): Option<seq<Segment>>
    requires k < |segments|
  {
    if Free(segments, k, row.position) then Some(segments[k := row]) else None
  }

  /** UPDATE .. SET position = position + 100000, visiting the rows in the given order. */
  function ShiftRun(segments: seq<Segment>, visit: seq<nat>): Option<seq<Segment>>
    requires forall v :: 0 <= v < |visit| ==> visit[v] < |segments|
    decreases |visit|
  {
    if visit == [] then Some(segments)
    else
      match Place(segments, visit[0], segments[visit[0]].(position := segments[visit[0]].position + SHIFT))
      case None => None
      case Some(next) => ShiftRun(next, visit[1..])
  }

  function RowOf(segments: seq<Segment>, id: string): (k: nat)
    requires HasSegment(segments, id)
    ensures k < |segments| && segments[k].id == id
  {
    if segments[0].id == id then 0
    else
      assert HasSegment(segments[1..], id) by {
        var i :| 0 <= i < |segments| && segments[i].id == id;
        assert segments[1..][i - 1].id == id;
      }
      1 + RowOf(segments[1..], id)
  }

  function Stamped(row: Segment, position: int, moved: string, now: string): Segment {
    row.(position := position,
         stamp := row.stamp.(updatedAt := now, version := row.stamp.version + if row.id == moved then 1 else 0))
  }

  /** The reorder's loop: enumerate(ids), one UPDATE each. */
  function AssignRun(segments: seq<Segment>, order: seq<string>, k: nat, moved: string,
      now: string): Option<seq<Segment>>
    requires k <= |order| && (forall i :: 0 <= i < |order| ==> HasSegment(segments, order[i]))
    decreases |order| - k
  {
    if k == |order| then Some(segments)
    else
      var row := RowOf(segments, order[k]);
      match Place(segments, row, Stamped(segments[row], k, moved, now))
      case None => None
      case Some(next) =>
        assert forall i :: 0 <= i < |order| ==>
            HasSegment(next, order[i]) by { PlacedHas(segments, row, Stamped(segments[row], k, moved, now), order); }
        AssignRun(next, order, k + 1, moved, now)
  }

  lemma PlacedHas(segments: seq<Segment>, k: nat, row: Segment, order: seq<string>)
    requires k < |segments| && row.id == segments[k].id
    ensures forall id :: HasSegment(segments, id) ==> HasSegment(segments[k := row], id)
  {
    forall id | HasSegment(segments, id) ensures HasSegment(segments[k := row], id) {
      var i :| 0 <= i < |segments| && segments[i].id == id;
      assert segments[k := row][i].id == id;
    }
  }

  /** The compaction's loop. */
  function CompactRun(segments: seq<Segment>, order: seq<string>, k: nat): Option<seq<Segment>>
    requires k <= |order| && (forall i :: 0 <= i < |order| ==> HasSegment(segments, order[i]))
    decreases |order| - k
  {
    if k == |order| then Some(segments)
    else
      var row := RowOf(segments, order[k]);
      match Place(segments, row, segments[row].(position := k))
      case None => None
      case Some(next) =>
        assert forall i :: 0 <= i < |order| ==>
            HasSegment(next, order[i]) by { PlacedHas(segments, row, segments[row].(position := k), order); }
        CompactRun(next, order, k + 1)
  }

  // ---- the bulk shift ---

  /** Each row of the journey once, in some order, and no other row. */
  ghost predicate Visits(visit: seq<nat>, segments: seq<Segment>, journeyId: string) {
    && (forall v :: 0 <= v < |visit| ==> visit[v] < |segments| && segments[visit[v]].journeyId == journeyId)
    && (forall v, u :: 0 <= v < u < |visit| ==> visit[v] != visit[u])
    && (forall i: nat :: i < |segments| && segments[i].journeyId == journeyId ==> i in visit)
  }

  function Shifted(segments: seq<Segment>, journeyId: string): seq<Segment> {
    seq(|segments|, i requires 0 <= i < |segments| =>
      if segments[i].journeyId == journeyId then segments[i].(position := segments[i].position + SHIFT)
          else segments[i])
  }

  /** Part of the way through the shift: the rows still to visit are low, the others high. */
  ghost predicate Shifting(start: seq<Segment>, current: seq<Segment>, visit: seq<nat>, journeyId: string) {
    && |current| == |start|
    && (forall v :: 0 <= v < |visit| ==> visit[v] < |start| && start[visit[v]].journeyId == journeyId)
    && (forall v, u :: 0 <= v < u < |visit| ==> visit[v] != visit[u])
    && (forall i: nat :: i < |start| ==>
          current[i] == if start[i].journeyId == journeyId && i !in visit then
              start[i].(position := start[i].position + SHIFT) else start[i])
  }

  lemma VisitedOnce(visit: seq<nat>)
    requires visit != [] && (forall v, u :: 0 <= v < u < |visit| ==> visit[v] != visit[u])
    ensures visit[0] !in visit[1..]
  {
    forall u | 0 <= u < |visit[1..]| ensures visit[1..][u] != visit[0] {
      assert visit[1..][u] == visit[u + 1];
    }
  }

  lemma {:induction false} ShiftFinishes(start: seq<Segment>, current: seq<Segment>, visit: seq<nat>, journeyId: string)
    requires DistinctPositions(start) && Shifting(start, current, visit, journeyId)
    requires forall i :: 0 <= i < |start| && start[i].journeyId == journeyId ==> 0 <= start[i].position < SHIFT
    ensures ShiftRun(current, visit) == Some(Shifted(start, journeyId))
    decreases |visit|
  {
    if visit == [] {
      assert current == Shifted(start, journeyId);
    } else {
      var k := visit[0];
      assert k in visit;
      var row := current[k].(position := current[k].position + SHIFT);
      assert Free(current, k, row.position);
      var next := current[k := row];
      VisitedOnce(visit);
      forall i: nat | i < |start|
        ensures next[i] == if start[i].journeyId == journeyId && i !in visit[1..] then
            start[i].(position := start[i].position + SHIFT) else start[i]
      {
        assert i in visit <==> i == k || i in visit[1..];
      }
      ShiftFinishes(start, next, visit[1..], journeyId);
    }
  }

  /** Whatever the size of the route: a shift that succeeds has raised every row once. */
  lemma {:induction false} ShiftValue(start: seq<Segment>, current: seq<Segment>, visit: seq<nat>, journeyId: string)
    requires Shifting(start, current, visit, journeyId)
    ensures ShiftRun(current, visit).Some? ==> ShiftRun(current, visit) == Some(Shifted(start, journeyId))
    decreases |visit|
  {
    hide Free;
    if visit == [] {
      assert current == Shifted(start, journeyId);
    } else {
      var k := visit[0];
      assert k in visit;
      var next := current[k := current[k].(position := current[k].position + SHIFT)];
      VisitedOnce(visit);
      forall i: nat | i < |start|
        ensures next[i] == if start[i].journeyId == journeyId && i !in visit[1..] then
            start[i].(position := start[i].position + SHIFT) else start[i]
      {
        assert i in visit <==> i == k || i in visit[1..];
      }
      ShiftValue(start, next, visit[1..], journeyId);
    }
  }

  lemma DensePositions(segments: seq<Segment>, journeyId: string)
    requires Dense(segments) && |Owned(segments, journeyId)| <= SHIFT
    ensures forall i :: 0 <= i < |segments| && segments[i].journeyId == journeyId ==> 0 <= segments[i].position < SHIFT
  {
  }

  /** On a dense route of up to 100,000 segments the bulk shift succeeds whatever order the rows come in. */
  lemma ShiftSafe(segments: seq<Segment>, visit: seq<nat>, journeyId: string)
    requires DistinctPositions(segments) && Dense(segments) && Visits(visit, segments, journeyId)
    requires |Owned(segments, journeyId)| <= SHIFT
    ensures ShiftRun(segments, visit) == Some(Shifted(segments, journeyId))
  {
    DensePositions(segments, journeyId);
    ShiftFinishes(segments, segments, visit, journeyId);
  }

  /** Row indices of the journey, in table order. */
  function RowsOf(segments: seq<Segment>, journeyId: string, n: nat): seq<nat>
    requires n <= |segments|
  {
    if n == 0 then []
    else RowsOf(segments, journeyId, n - 1) + if segments[n - 1].journeyId == journeyId then [n - 1] else []
  }

  lemma {:induction false} RowsOfComplete(segments: seq<Segment>, journeyId: string, n: nat)
    requires n <= |segments|
    ensures forall v :: 0 <= v < |RowsOf(segments, journeyId, n)| ==>
              RowsOf(segments, journeyId, n)[v] < n &&
                  segments[RowsOf(segments, journeyId, n)[v]].journeyId == journeyId
    ensures forall v, u :: 0 <= v < u < |RowsOf(segments, journeyId, n)| ==>
              RowsOf(segments, journeyId, n)[v] != RowsOf(segments, journeyId, n)[u]
    ensures forall i: nat :: i < n && segments[i].journeyId == journeyId ==> i in RowsOf(segments, journeyId, n)
  {
    if n > 0 {
      RowsOfComplete(segments, journeyId, n - 1);
      forall i: nat | i < n && segments[i].journeyId == journeyId ensures i in RowsOf(segments, journeyId, n) {
        if i == n - 1 {
          assert RowsOf(segments, journeyId, n)[|RowsOf(segments, journeyId, n)| - 1] == i;
        }
      }
    }
  }

  /** Visiting row `first` first, then the rest. */
  function VisitFirst(segments: seq<Segment>, journeyId: string, first: nat): seq<nat> {
    [first] + Filter(RowsOf(segments, journeyId, |segments|), (i: nat) => i != first)
  }

  lemma VisitFirstVisits(segments: seq<Segment>, journeyId: string, first: nat)
    requires first < |segments| && segments[first].journeyId == journeyId
    ensures Visits(VisitFirst(segments, journeyId, first), segments, journeyId)
  {
    var rows, keep := RowsOf(segments, journeyId, |segments|), (i: nat) => i != first;
    var visit := VisitFirst(segments, journeyId, first);
    RowsOfComplete(segments, journeyId, |segments|);
    forall v | 0 <= v < |Filter(rows, keep)|
      ensures Filter(rows, keep)[v] in rows && Filter(rows, keep)[v] != first
    {
      FilterMember(rows, keep, Filter(rows, keep)[v]);
    }
    forall v, u | 0 <= v < u < |visit| ensures visit[v] != visit[u] {
      if v > 0 {
        var a, b := FilterOrder(rows, keep, v - 1, u - 1);
      }
    }
    forall i: nat | i < |segments| && segments[i].journeyId == journeyId ensures i in visit {
      FilterMember(rows, keep, i);
      if i == first {
        assert visit[0] == i;
      } else {
        var u :| 0 <= u < |Filter(rows, keep)| && Filter(rows, keep)[u] == i;
        assert visit[u + 1] == i;
      }
    }
  }

  lemma RowAt(segments: seq<Segment>, journeyId: string, position: nat) returns (k: nat)
    requires DistinctPositions(segments) && Dense(segments) && position < |Owned(segments, journeyId)|
    ensures k < |segments| && segments[k].journeyId == journeyId && segments[k].position == position
  {
    RouteLength(segments, journeyId);
    DenseRoute(segments, journeyId, position);
    var s := Route(segments, journeyId)[position];
    RouteMember(segments, journeyId, s);
    k :| 0 <= k < |segments| && segments[k] == s;
  }

  /** The shift is safe in every row order exactly up to 100,000 segments: one more, and visiting the first
      segment first collides with the last. */
  lemma ShiftSafeExactly(segments: seq<Segment>, journeyId: string)
    requires DistinctPositions(segments) && Dense(segments)
    ensures |Owned(segments, journeyId)| <= SHIFT <==>
              forall visit :: Visits(visit, segments, journeyId) ==> ShiftRun(segments, visit).Some?
  {
    hide DistinctPositions, Owned, Dense, ShiftRun;
    if |Owned(segments, journeyId)| <= SHIFT {
      forall visit | Visits(visit, segments, journeyId) ensures ShiftRun(segments, visit).Some? {
        ShiftSafe(segments, visit, journeyId);
      }
    } else {
      var low := RowAt(segments, journeyId, 0);
      var high := RowAt(segments, journeyId, SHIFT);
      VisitFirstVisits(segments, journeyId, low);
      FirstCollides(segments, VisitFirst(segments, journeyId, low), low, high);
    }
  }

  lemma FirstCollides(segments: seq<Segment>, visit: seq<nat>, low: nat, high: nat)
    requires visit != [] && visit[0] == low && (forall v :: 0 <= v < |visit| ==> visit[v] < |segments|)
    requires low < |segments| && high < |segments| && low != high && segments[low].journeyId == segments[high].journeyId
    requires segments[low].position + SHIFT == segments[high].position
    ensures ShiftRun(segments, visit).None?
  {
    assert !Free(segments, low, segments[low].position + SHIFT);
  }

  // ---- assigning the new positions ---

  ghost function OwnedIdSet(segments: seq<Segment>, journeyId: string): set<string> {
    if segments == [] then {}
    else (if segments[0].journeyId == journeyId then {segments[0].id} else {}) + OwnedIdSet(segments[1..], journeyId)
  }

  lemma {:induction false} OwnedIdHas(segments: seq<Segment>, journeyId: string, x: string)
    ensures x in OwnedIdSet(segments, journeyId) ==> HasSegment(segments, x)
  {
    if segments != [] && x in OwnedIdSet(segments, journeyId) {
      if segments[0].id == x {
        assert HasSegment(segments, x);
      } else {
        OwnedIdHas(segments[1..], journeyId, x);
        var i :| 0 <= i < |segments[1..]| && segments[1..][i].id == x;
        assert segments[i + 1].id == x;
      }
    }
  }

  lemma {:induction false} OwnedIdsWithin(segments: seq<Segment>, journeyId: string, order: seq<string>)
    requires forall i :: 0 <= i < |segments| && segments[i].journeyId == journeyId ==> segments[i].id in order
    ensures OwnedIdSet(segments, journeyId) <= SetOf(order)
  {
    if segments != [] {
      OwnedIdsWithin(segments[1..], journeyId, order);
      SetOfMember(order, segments[0].id);
    }
  }

  lemma {:induction false} OwnedIdsCount(segments: seq<Segment>, journeyId: string)
    requires DistinctSegments(segments)
    ensures |OwnedIdSet(segments, journeyId)| == |Owned(segments, journeyId)|
  {
    if segments != [] {
      var rest := segments[1..];
      forall i | 0 <= i < |rest| ensures rest[i].id != segments[0].id {
        assert rest[i] == segments[i + 1];
      }
      OwnedIdsCount(rest, journeyId);
      OwnedIdHas(rest, journeyId, segments[0].id);
    }
  }

  ghost function SetOf(order: seq<string>): set<string> {
    if order == [] then {} else SetOf(order[1..]) + {order[0]}
  }

  lemma {:induction false} SetOfMember(order: seq<string>, x: string)
    ensures x in SetOf(order) <==> x in order
  {
    if order != [] {
      SetOfMember(order[1..], x);
    }
  }

  lemma {:induction false} SetOfSize(order: seq<string>)
    ensures |SetOf(order)| <= |order|
  {
    if order != [] {
      SetOfSize(order[1..]);
    }
  }

  lemma SameSize(a: set<string>, b: set<string>)
    requires a <= b && |b| <= |a|
    ensures a == b
  {
    assert b == a + (b - a);
  }

  /** Every listed identifier names a row of the journey: the list is no longer than the journey's rows. */
  lemma ListedRows(order: seq<string>, segments: seq<Segment>, journeyId: string)
    requires DistinctSegments(segments) && Lists(order, segments, journeyId)
    ensures forall i :: 0 <= i < |order| ==> HasSegment(segments, order[i])
  {
    OwnedIdsWithin(segments, journeyId, order);
    OwnedIdsCount(segments, journeyId);
    SetOfSize(order);
    SameSize(OwnedIdSet(segments, journeyId), SetOf(order));
    hide Owned, DistinctSegments, HasSegment, SetOf, OwnedIdSet;
    forall i | 0 <= i < |order| ensures HasSegment(segments, order[i]) {
      SetOfMember(order, order[i]);
      OwnedIdHas(segments, journeyId, order[i]);
    }
  }

  /** Part of the way through the assignment: the first k of the order are final, the rest still shifted. */
  ghost predicate Assigning(start: seq<Segment>, current: seq<Segment>, order: seq<string>, k: nat, moved: string,
      now: string) {
    && k <= |order| && |current| == |start|
    && (forall i :: 0 <= i < |start| ==>
          current[i] == if start[i].id in order && IndexOf(order, start[i].id) < k
                        then Stamped(start[i], IndexOf(order, start[i].id), moved, now) else start[i])
  }

  lemma {:induction false} AssignFinishes(start: seq<Segment>, current: seq<Segment>, order: seq<string>, k: nat,
      journeyId: string, moved: string, now: string)
    requires DistinctSegments(start) && Lists(order, start, journeyId) &&
        Assigning(start, current, order, k, moved, now)
    requires forall i :: 0 <= i < |order| ==> HasSegment(current, order[i])
    requires forall i :: 0 <= i < |start| && start[i].journeyId == journeyId ==> start[i].position >= |order|
    ensures AssignRun(current, order, k, moved, now) == Some(Reordered(start, order, moved, now))
    decreases |order| - k
  {
    hide Owned;
    if k == |order| {
      assert current == Reordered(start, order, moved, now);
    } else {
      var row := RowOf(current, order[k]);
      assert start[row].id == order[k];
      IndexUnique(order, k);
      assert start[row].journeyId == journeyId;
      assert current[row] == start[row];
      var write := Stamped(current[row], k, moved, now);
      assert Free(current, row, k);
      var next := current[row := write];
      forall i | 0 <= i < |start|
        ensures next[i] == if start[i].id in order && IndexOf(order, start[i].id) < k + 1
                           then Stamped(start[i], IndexOf(order, start[i].id), moved, now) else start[i]
      {
        if i != row && start[i].id in order {
          assert order[IndexOf(order, start[i].id)] == start[i].id != order[k];
        }
      }
      PlacedHas(current, row, write, order);
      AssignFinishes(start, next, order, k + 1, journeyId, moved, now);
    }
  }

  /** Whatever the size of the route: an assignment that succeeds has written exactly the new order. */
  lemma {:induction false} AssignValue(start: seq<Segment>, current: seq<Segment>, order: seq<string>, k: nat,
      journeyId: string, moved: string, now: string)
    requires DistinctSegments(start) && Lists(order, start, journeyId) &&
        Assigning(start, current, order, k, moved, now)
    requires forall i :: 0 <= i < |order| ==> HasSegment(current, order[i])
    ensures AssignRun(current, order, k, moved, now).Some? ==>
              AssignRun(current, order, k, moved, now) == Some(Reordered(start, order, moved, now))
    decreases |order| - k
  {
    hide Owned, Free;
    if k == |order| {
      assert current == Reordered(start, order, moved, now);
    } else {
      var row := RowOf(current, order[k]);
      assert start[row].id == order[k];
      IndexUnique(order, k);
      assert current[row] == start[row];
      var write := Stamped(current[row], k, moved, now);
      var next := current[row := write];
      forall i | 0 <= i < |start|
        ensures next[i] == if start[i].id in order && IndexOf(order, start[i].id) < k + 1
                           then Stamped(start[i], IndexOf(order, start[i].id), moved, now) else start[i]
      {
        if i != row && start[i].id in order {
          assert order[IndexOf(order, start[i].id)] == start[i].id != order[k];
        }
      }
      PlacedHas(current, row, write, order);
      AssignValue(start, next, order, k + 1, journeyId, moved, now);
    }
  }

  // ---- compaction ---

  ghost predicate Compacting(start: seq<Segment>, current: seq<Segment>, order: seq<string>, k: nat) {
    && k <= |order| && |current| == |start|
    && (forall i :: 0 <= i < |start| ==>
          current[i] == if start[i].id in order && IndexOf(order, start[i].id) < k
                        then start[i].(position := IndexOf(order, start[i].id)) else start[i])
  }

  /** Later rows of the route still lie at or beyond their rank. */
  ghost predicate Beyond(start: seq<Segment>, order: seq<string>) {
    forall i :: 0 <= i < |start| && start[i].id in order ==> start[i].position >= IndexOf(order, start[i].id)
  }

  lemma {:induction false} CompactFinishes(start: seq<Segment>, current: seq<Segment>, order: seq<string>, k: nat,
      journeyId: string)
    requires DistinctSegments(start) && Lists(order, start, journeyId) && Compacting(start, current, order, k) &&
        Beyond(start, order)
    requires forall i :: 0 <= i < |order| ==> HasSegment(current, order[i])
    ensures CompactRun(current, order, k) == Some(Renumber(start, order))
    decreases |order| - k
  {
    hide Owned;
    if k == |order| {
      assert current == Renumber(start, order);
    } else {
      var row := RowOf(current, order[k]);
      CompactStep(start, current, order, k, journeyId, row);
      hide Compacting, Beyond, Free;
      var write := current[row].(position := k);
      PlacedHas(current, row, write, order);
      CompactFinishes(start, current[row := write], order, k + 1, journeyId);
    }
  }

  /** The next row of the route goes to its rank, which no other row of the route holds. */
  lemma CompactStep(start: seq<Segment>, current: seq<Segment>, order: seq<string>, k: nat, journeyId: string, row: nat)
    requires DistinctSegments(start) && Lists(order, start, journeyId) && Compacting(start, current, order, k) &&
        Beyond(start, order)
    requires k < |order| && row < |current| && current[row].id == order[k]
    ensures current[row].journeyId == journeyId && Free(current, row, k)
    ensures Compacting(start, current[row := current[row].(position := k)], order, k + 1)
  {
    hide Owned;
    assert start[row].id == order[k];
    IndexUnique(order, k);
    assert start[row].journeyId == journeyId;
    assert current[row] == start[row];
    forall j | 0 <= j < |current| && j != row && current[j].journeyId == journeyId ensures current[j].position != k {
      assert start[j].id in order && start[j].id != start[row].id;
      assert order[IndexOf(order, start[j].id)] == start[j].id;
    }
  }

  lemma {:induction false} IncreasingRank(items: seq<Segment>, k: nat)
    requires Increasing(items) && k < |items| && (forall i :: 0 <= i < |items| ==> 0 <= items[i].position)
    ensures items[k].position >= k
  {
    if k > 0 {
      IncreasingRank(items, k - 1);
    }
  }

  lemma RouteBeyond(segments: seq<Segment>, journeyId: string)
    requires DistinctSegments(segments) && DistinctPositions(segments) &&
        (forall i :: 0 <= i < |segments| ==> 0 <= segments[i].position)
    ensures Beyond(segments, IdsOf(Route(segments, journeyId)))
  {
    hide DistinctPositions, DistinctSegments, Route, Owned;
    var route := Route(segments, journeyId);
    var order := IdsOf(route);
    RouteIncreasing(segments, journeyId);
    forall i | 0 <= i < |segments| && segments[i].id in order ensures segments[i].position >= IndexOf(order,
        segments[i].id) {
      var k := IndexOf(order, segments[i].id);
      forall r | 0 <= r < |route| ensures 0 <= route[r].position {
        RouteMember(segments, journeyId, route[r]);
        var x :| 0 <= x < |segments| && segments[x] == route[r];
      }
      RouteMember(segments, journeyId, route[k]);
      SameSegment(segments, route[k], segments[i]);
      IncreasingRank(route, k);
    }
  }

  // ---- remove, then insert ---

  lemma MoveToMembers(order: seq<string>, id: string, position: nat, x: string)
    requires id in order && position < |order|
    ensures x in MoveTo(order, id, position) <==> x in order
  {
    var at, after := IndexOf(order, id), MoveTo(order, id, position);
    var rest := order[..at] + order[at + 1..];
    assert order == order[..at] + [id] + order[at + 1..];
    assert x in rest <==> x in rest[..position] || x in rest[position..] by {
      assert rest == rest[..position] + rest[position..];
    }
  }

  /** Which place of the old order ends up at place i when the one at `at` is taken out and put in at `position`. */
  function Origin(i: nat, at: nat, position: nat): nat {
    if i == position then at
    else
      var r := if i < position then i else i - 1;
      if r < at then r else r + 1
  }

  lemma MoveToDistinct(order: seq<string>, id: string, position: nat)
    requires Distinct(order) && id in order && position < |order|
    ensures Distinct(MoveTo(order, id, position))
  {
    var at, after := IndexOf(order, id), MoveTo(order, id, position);
    var rest := order[..at] + order[at + 1..];
    forall i | 0 <= i < |after| ensures Origin(i, at, position) < |order| && after[i] == order[Origin(i, at, position)] {
      assert after[i] == if i < position then rest[i] else if i == position then id else rest[i - 1];
    }
    hide MoveTo;
    assert forall i, j :: 0 <= i < j < |after| ==> Origin(i, at, position) != Origin(j, at, position);
  }

  lemma MoveToLists(order: seq<string>, id: string, position: nat, segments: seq<Segment>, journeyId: string)
    requires Lists(order, segments, journeyId) && id in order && position < |order|
    ensures Lists(MoveTo(order, id, position), segments, journeyId)
  {
    hide Owned, Distinct;
    MoveToDistinct(order, id, position);
    var after := MoveTo(order, id, position);
    assert |after| == |order|;
    hide MoveTo;
    forall i | 0 <= i < |segments| ensures segments[i].id in after <==> segments[i].journeyId == journeyId {
      MoveToMembers(order, id, position, segments[i].id);
    }
  }

  lemma ShiftedLists(segments: seq<Segment>, order: seq<string>, journeyId: string)
    requires Lists(order, segments, journeyId)
    ensures Lists(order, Shifted(segments, journeyId), journeyId)
  {
    OwnedCount(segments, Shifted(segments, journeyId), journeyId);
    hide Owned;
  }

  /** The whole reorder, as row writes in any order of the bulk shift, does what the transaction promises. */
  lemma ReorderRuns(segments: seq<Segment>, visit: seq<nat>, journeyId: string, id: string, position: nat, now: string)
    requires DistinctSegments(segments) && DistinctPositions(segments) && Dense(segments) &&
        Visits(visit, segments, journeyId)
    requires |Owned(segments, journeyId)| <= SHIFT
    requires id in IdsOf(Route(segments, journeyId)) && position < |IdsOf(Route(segments, journeyId))|
    ensures var order := MoveTo(IdsOf(Route(segments, journeyId)), id, position);
            && ShiftRun(segments, visit) == Some(Shifted(segments, journeyId))
            && (forall i :: 0 <= i < |order| ==> HasSegment(Shifted(segments, journeyId), order[i]))
            && AssignRun(Shifted(segments, journeyId), order, 0, id, now) == Some(Reordered(segments, order, id, now))
  {
    hide DistinctPositions, Owned, Route, Dense, MoveTo, ShiftRun, AssignRun, Visits;
    var order := MoveTo(IdsOf(Route(segments, journeyId)), id, position);
    var shifted := Shifted(segments, journeyId);
    ShiftSafe(segments, visit, journeyId);
    RouteLists(segments, journeyId);
    MoveToLists(IdsOf(Route(segments, journeyId)), id, position, segments, journeyId);
    ShiftedLists(segments, order, journeyId);
    ListedRows(order, shifted, journeyId);
    OwnedBound(segments, journeyId);
    AssignFinishes(shifted, shifted, order, 0, journeyId, id, now);
    SameReorder(segments, shifted, order, journeyId, id, now);
  }

  /** The reorder on a route of any size: it may be refused on the way, but never does anything else. */
  lemma ReorderValue(segments: seq<Segment>, visit: seq<nat>, journeyId: string, id: string, position: nat, now: string)
    requires DistinctSegments(segments) && DistinctPositions(segments) && Visits(visit, segments, journeyId)
    requires id in IdsOf(Route(segments, journeyId)) && position < |IdsOf(Route(segments, journeyId))|
    ensures var order, shifted := MoveTo(IdsOf(Route(segments, journeyId)), id, position), Shifted(segments, journeyId);
            && (ShiftRun(segments, visit).Some? ==> ShiftRun(segments, visit) == Some(shifted))
            && (forall i :: 0 <= i < |order| ==> HasSegment(shifted, order[i]))
            && (AssignRun(shifted, order, 0, id, now).Some? ==>
                  AssignRun(shifted, order, 0, id, now) == Some(Reordered(segments, order, id, now)))
  {
    hide DistinctPositions, Owned, Route, MoveTo, ShiftRun, AssignRun;
    var order := MoveTo(IdsOf(Route(segments, journeyId)), id, position);
    var shifted := Shifted(segments, journeyId);
    ShiftValue(segments, segments, visit, journeyId);
    hide Visits;
    RouteLists(segments, journeyId);
    MoveToLists(IdsOf(Route(segments, journeyId)), id, position, segments, journeyId);
    ShiftedLists(segments, order, journeyId);
    ListedRows(order, shifted, journeyId);
    AssignValue(shifted, shifted, order, 0, journeyId, id, now);
    SameReorder(segments, shifted, order, journeyId, id, now);
  }

  lemma OwnedBound(segments: seq<Segment>, journeyId: string)
    requires Dense(segments)
    ensures forall i :: 0 <= i < |segments| ==> 0 <= segments[i].position
  {
    hide Owned;
  }

  lemma SameReorder(segments: seq<Segment>, shifted: seq<Segment>, order: seq<string>, journeyId: string, id: string,
      now: string)
    requires shifted == Shifted(segments, journeyId) && Lists(order, segments, journeyId)
    ensures Reordered(shifted, order, id, now) == Reordered(segments, order, id, now)
  {
    hide Owned;
  }

  // ---- the tables ---

  class JourneyTables {
    var journeys: seq<Journey>
    var segments: seq<Segment>
    var packing: seq<PackingItem>

    constructor (data: JourneyData)
      ensures State() == data
    {
      journeys, segments, packing := data.journeys, data.segments, data.packing;
    }

    function State(): JourneyData
      reads this
    {
      JourneyData(journeys, segments, packing)
    }

    /** What every committed state satisfies. */
    ghost predicate Valid()
      reads this
    {
      DistinctSegments(segments) && DistinctPositions(segments) && Dense(segments)
    }

    /** One row write; refused when it would break UNIQUE(journey, position). */
    method WriteRow(k: nat, row: Segment) returns (ok: bool)
      requires k < |segments|
      modifies this`segments
      ensures match Place(old(segments), k, row)
              case None => !ok && segments == old(segments)
              case Some(next) => ok && segments == next
    {
      ok := Free(segments, k, row.position);
      if ok {
        segments := segments[k := row];
      }
    }

    method ShiftPositions(visit: seq<nat>) returns (ok: bool)
      requires forall v :: 0 <= v < |visit| ==> visit[v] < |segments|
      modifies this`segments
      ensures match ShiftRun(old(segments), visit)
              case None => !ok
              case Some(next) => ok && segments == next
    {
      var v := 0;
      ok := true;
      while v < |visit|
        invariant v <= |visit| && ok && |segments| == |old(segments)|
        invariant ShiftRun(segments, visit[v..]) == ShiftRun(old(segments), visit)
      {
        assert visit[v..][1..] == visit[v + 1..];
        ok := WriteRow(visit[v], segments[visit[v]].(position := segments[visit[v]].position + SHIFT));
        if !ok {
          return;
        }
        v := v + 1;
      }
    }

    method AssignPositions(order: seq<string>, moved: string, now: string) returns (ok: bool)
      requires forall i :: 0 <= i < |order| ==> HasSegment(segments, order[i])
      modifies this`segments
      ensures match AssignRun(old(segments), order, 0, moved, now)
              case None => !ok
              case Some(next) => ok && segments == next
    {
      ok := true;
      for k := 0 to |order|
        invariant ok && (forall i :: 0 <= i < |order| ==> HasSegment(segments, order[i]))
        invariant AssignRun(segments, order, k, moved, now) == AssignRun(old(segments), order, 0, moved, now)
      {
        var row := RowOf(segments, order[k]);
        PlacedHas(segments, row, Stamped(segments[row], k, moved, now), order);
        ok := WriteRow(row, Stamped(segments[row], k, moved, now));
        if !ok {
          return;
        }
      }
    }

    method CompactSegments(journeyId: string) returns (ok: bool)
      requires DistinctSegments(segments) && DistinctPositions(segments) &&
          (forall i :: 0 <= i < |segments| ==> 0 <= segments[i].position)
      modifies this`segments
      ensures ok && segments == Renumber(old(segments), IdsOf(Route(old(segments), journeyId)))
    {
      hide DistinctSegments, DistinctPositions, Route, Beyond, Lists, Renumber;
      var order := IdsOf(Route(segments, journeyId));
      RouteLists(segments, journeyId);
      RouteBeyond(segments, journeyId);
      ListedRows(order, segments, journeyId);
      CompactFinishes(segments, segments, order, 0, journeyId);
      ok := true;
      for k := 0 to |order|
        invariant ok && (forall i :: 0 <= i < |order| ==> HasSegment(segments, order[i]))
        invariant CompactRun(segments, order, k) == Some(Renumber(old(segments), order))
      {
        var row := RowOf(segments, order[k]);
        PlacedHas(segments, row, segments[row].(position := k), order);
        ok := WriteRow(row, segments[row].(position := k));
      }
    }

    method TouchJourney(journeyId: string, now: string)
      modifies this`journeys
      ensures journeys == TouchRow(old(journeys), journeyId, now)
    {
      journeys := TouchRow(journeys, journeyId, now);
    }

    /** reorder_segment, with the bulk shift visiting the rows in an arbitrary order. On a route of more than 100,000
        segments the constraint may refuse a row on the way; the transaction then leaves nothing behind. */
    method ReorderSegment(journeyId: string, itemId: string, expected: int, newPosition: nat, visit: seq<nat>,
        now: string)
      returns (problem: Option<HttpError>)
      requires Valid() && Visits(visit, segments, journeyId) && expected >= 1
      modifies this
      ensures problem == Some(ConstraintError) ==>
                State() == old(State()) && |Owned(old(segments), journeyId)| > SHIFT &&
                Serve(old(State()), Reorder(journeyId, itemId, expected, newPosition), now).Ok?
      ensures problem != Some(ConstraintError) ==>
                match Serve(old(State()), Reorder(journeyId, itemId, expected, newPosition), now)
                case Err(error) => problem == Some(error) && State() == old(State())
                case Ok(next) => problem.None? && State() == next
    {
      hide Visits, DistinctSegments, DistinctPositions, Dense, Owned, Route, ShiftRun, AssignRun, MoveTo, Reordered,
          Shifted, TouchRow;
      if !HasJourney(journeys, journeyId) {
        return Some(NotFound);
      }
      var owned := FindSegment(segments, journeyId, itemId);
      if owned.None? {
        return Some(NotFound);
      }
      if owned.value.stamp.version != expected {
        return Some(VersionConflict);
      }
      var ids := IdsOf(Route(segments, journeyId));
      if newPosition >= |ids| {
        return Some(Unprocessable);
      }
      FoundInRoute(segments, journeyId, itemId);
      ReorderValue(segments, visit, journeyId, itemId, newPosition, now);
      if |Owned(segments, journeyId)| <= SHIFT {
        ReorderRuns(segments, visit, journeyId, itemId, newPosition, now);
      }
      ids := MoveTo(ids, itemId, newPosition);
      VisitBounds(visit, segments, journeyId);
      var before := segments;
      var shifted := ShiftPositions(visit);
      if !shifted {
        segments := before;
        return Some(ConstraintError);
      }
      var renumbered := AssignPositions(ids, itemId, now);
      if !renumbered {
        segments := before;
        return Some(ConstraintError);
      }
      TouchJourney(journeyId, now);
      problem := None;
    }

    method CreateSegment(journeyId: string, id: string, body: SegmentBody,
        now: string) returns (problem: Option<HttpError>)
      requires Valid() && AcceptsSegment(body)
      modifies this
      ensures match Serve(old(State()), PostSegment(journeyId, id, body), now)
              case Err(error) => problem == Some(error) && State() == old(State())
              case Ok(next) => problem.None? && State() == next
    {
      if !HasJourney(journeys, journeyId) {
        return Some(NotFound);
      }
      var position := MaxPosition(segments, journeyId) + 1;
      if HasSegment(segments, id) {
        return Some(ConstraintError);
      }
      segments := segments + [NewSegment(journeyId, id, body, position, now)];
      TouchJourney(journeyId, now);
      problem := None;
    }

    method DropSegment(journeyId: string, itemId: string, now: string) returns (problem: Option<HttpError>)
      requires Valid()
      modifies this
      ensures match Serve(old(State()), Request.DropSegment(journeyId, itemId), now)
              case Err(error) => problem == Some(error) && State() == old(State())
              case Ok(next) => problem.None? && State() == next
    {
      if !HasJourney(journeys, journeyId) || FindSegment(segments, journeyId, itemId).None? {
        return Some(NotFound);
      }
      ghost var keep := (s: Segment) => s.id != itemId;
      FilteredSegments(segments, keep);
      PositiveFilter(segments, keep);
      segments := Filter(segments, (s: Segment) => s.id != itemId);
      var ok := CompactSegments(journeyId);
      TouchJourney(journeyId, now);
      problem := None;
    }
  }

  lemma PositiveFilter(segments: seq<Segment>, keep: Segment -> bool)
    requires Dense(segments)
    ensures forall i :: 0 <= i < |Filter(segments, keep)| ==> 0 <= Filter(segments, keep)[i].position
  {
    hide Owned;
    forall i | 0 <= i < |Filter(segments, keep)| ensures 0 <= Filter(segments, keep)[i].position {
      var a := FilterIndex(segments, keep, i);
    }
  }

  lemma VisitBounds(visit: seq<nat>, segments: seq<Segment>, journeyId: string)
    requires Visits(visit, segments, journeyId)
    ensures forall v :: 0 <= v < |visit| ==> visit[v] < |segments|
  {
  }

  lemma FoundInRoute(segments: seq<Segment>, journeyId: string, itemId: string)
    requires FindSegment(segments, journeyId, itemId).Some?
    ensures itemId in IdsOf(Route(segments, journeyId))
  {
    hide Route;
    var k := FoundSegment(segments, journeyId, itemId);
    var route := Route(segments, journeyId);
    RouteMember(segments, journeyId, segments[k]);
    var r :| 0 <= r < |route| && route[r] == segments[k];
    assert IdsOf(route)[r] == itemId;
  }
}
