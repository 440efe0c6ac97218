/** Any sequence of requests keeps every route numbered 0, 1, ..., n - 1, and a reorder moves one segment
    and keeps the others in their order. */
module JourneyRuns {
  import opened Basics
  import opened JourneyDomain
  import opened JourneyService
  import opened JourneyEdits
  import opened JourneyDatabase
  import opened JourneyTables

  ghost predicate Ranked(segments: seq<Segment>) {
    DistinctSegments(segments) && DistinctPositions(segments) && Dense(segments)
  }

  /** When every listed row carries its index in the list, the route is the list. */
  lemma NumberedRoute(segments: seq<Segment>, order: seq<string>, journeyId: string)
    requires Ranked(segments) && Lists(order, segments, journeyId)
    requires forall i :: 0 <= i < |segments| && segments[i].id in order ==>
        segments[i].position == IndexOf(order, segments[i].id)
    ensures IdsOf(Route(segments, journeyId)) == order
  {
    hide DistinctSegments, DistinctPositions, Dense, Route, Owned;
    var route := Route(segments, journeyId);
    RouteLength(segments, journeyId);
    forall k | 0 <= k < |route| ensures route[k].id == order[k] {
      DenseRoute(segments, journeyId, k);
      RouteMember(segments, journeyId, route[k]);
      var i :| 0 <= i < |segments| && segments[i] == route[k];
      assert segments[i].id in order;
    }
  }

  lemma SameShape(a: seq<Segment>, b: seq<Segment>)
    requires Ranked(a) && |a| == |b|
    requires forall i :: 0 <= i < |a| ==> a[i].id == b[i].id && a[i].journeyId == b[i].journeyId && a[i].position == b[i].position
    ensures Ranked(b)
  {
    hide Owned;
    forall i | 0 <= i < |b| ensures |Owned(b, b[i].journeyId)| == |Owned(a, a[i].journeyId)| {
      OwnedCount(b, a, b[i].journeyId);
    }
  }

  lemma SameLists(order: seq<string>, a: seq<Segment>, b: seq<Segment>, journeyId: string)
    requires Lists(order, a, journeyId) && |a| == |b|
    requires forall i :: 0 <= i < |a| ==> a[i].id == b[i].id && a[i].journeyId == b[i].journeyId
    ensures Lists(order, b, journeyId)
  {
    OwnedCount(b, a, journeyId);
    hide Owned;
  }

  lemma ReorderedRanked(segments: seq<Segment>, order: seq<string>, journeyId: string, moved: string, now: string)
    requires Ranked(segments) && Lists(order, segments, journeyId)
    ensures Ranked(Reordered(segments, order, moved, now))
    ensures IdsOf(Route(Reordered(segments, order, moved, now), journeyId)) == order
  {
    RenumberDense(segments, order, journeyId);
    hide DistinctSegments, DistinctPositions, Dense, Route, Owned, Lists;
    var after := Reordered(segments, order, moved, now);
    SameShape(Renumber(segments, order), after);
    SameLists(order, segments, after, journeyId);
    NumberedRoute(after, order, journeyId);
  }

  /** On a ranked table the next free position is the number of segments of the journey. */
  lemma NextPosition(segments: seq<Segment>, journeyId: string)
    requires Ranked(segments)
    ensures MaxPosition(segments, journeyId) + 1 == |Owned(segments, journeyId)|
  {
    hide DistinctSegments, DistinctPositions, Owned, MaxPosition;
    var n, m := |Owned(segments, journeyId)|, MaxPosition(segments, journeyId);
    if n > 0 {
      var k := RowAt(segments, journeyId, n - 1);
      assert segments[k].position <= m;
    }
  }

  lemma RemainingRanked(segments: seq<Segment>, journeyId: string, itemId: string)
    requires Ranked(segments) && FindSegment(segments, journeyId, itemId).Some?
    ensures var remaining := Filter(segments, (s: Segment) => s.id != itemId);
            var order := IdsOf(Route(remaining, journeyId));
            Ranked(Renumber(remaining, order)) && IdsOf(Route(Renumber(remaining, order), journeyId)) == order
  {
    hide Route, Owned, DistinctSegments, DistinctPositions, Lists;
    var keep := (s: Segment) => s.id != itemId;
    var remaining := Filter(segments, keep);
    var order := IdsOf(Route(remaining, journeyId));
    var k := FoundSegment(segments, journeyId, itemId);
    FilteredSegments(segments, keep);
    RouteLists(remaining, journeyId);
    forall i | 0 <= i < |remaining|
      ensures remaining[i].journeyId != journeyId ==>
          0 <= remaining[i].position < |Owned(remaining, remaining[i].journeyId)|
    {
      var a := FilterIndex(segments, keep, i);
      if remaining[i].journeyId != journeyId {
        OnlyThere(segments, k, itemId, remaining[i].journeyId);
        OwnedWithout(segments, itemId, remaining[i].journeyId);
      }
    }
    RenumberDense(remaining, order, journeyId);
    SameLists(order, remaining, Renumber(remaining, order), journeyId);
    NumberedRoute(Renumber(remaining, order), order, journeyId);
  }

  lemma RewriteKeepsShape(segments: seq<Segment>, id: string, body: SegmentBody, now: string)
    requires Ranked(segments)
    ensures Ranked(RewriteSegment(segments, id, body, now))
  {
    hide Ranked, Trim, TrimDetails;
    SameShape(segments, RewriteSegment(segments, id, body, now));
  }

  lemma FilterRanked(segments: seq<Segment>, gone: string)
    requires Ranked(segments)
    ensures Ranked(Filter(segments, (s: Segment) => s.journeyId != gone))
  {
    hide DistinctSegments, DistinctPositions, Dense;
    FilteredSegments(segments, (s: Segment) => s.journeyId != gone);
    DeletedDense(segments, gone);
  }

  /** Every successful request keeps the tables ranked. */
  lemma RequestKeepsRanks(db: JourneyData, request: Request, now: string)
    requires Ranked(db.segments) && Serve(db, request, now).Ok?
    ensures Ranked(Serve(db, request, now).value.segments)
  {
    hide Ranked, AcceptsSegment, AcceptsJourney, AcceptsPacking, TouchRow, Route, Renumber, Reordered, MoveTo,
        RewriteSegment;
    var segments := db.segments;
    match request {
      case DropJourney(journeyId) => FilterRanked(segments, journeyId);
      case PostSegment(journeyId, id, body) => AppendedRanked(segments,
          NewSegment(journeyId, id, body, MaxPosition(segments, journeyId) + 1, now));
      case PutSegment(_, itemId, body, _) => RewriteKeepsShape(segments, itemId, body, now);
      case DropSegment(journeyId, itemId) => RemainingRanked(segments, journeyId, itemId);
      case Reorder(journeyId, itemId, _, position) =>
        MovedLists(segments, journeyId, itemId, position);
        ReorderedRanked(segments, MoveTo(IdsOf(Route(segments, journeyId)), itemId, position), journeyId, itemId, now);
      case _ =>
    }
  }

  lemma MovedLists(segments: seq<Segment>, journeyId: string, itemId: string, position: nat)
    requires Ranked(segments) && itemId in IdsOf(Route(segments, journeyId)) &&
        position < |IdsOf(Route(segments, journeyId))|
    ensures Lists(MoveTo(IdsOf(Route(segments, journeyId)), itemId, position), segments, journeyId)
  {
    hide DistinctSegments, DistinctPositions, Dense, Lists, Route, MoveTo;
    RouteLists(segments, journeyId);
    MoveToLists(IdsOf(Route(segments, journeyId)), itemId, position, segments, journeyId);
  }

  lemma AppendedRanked(segments: seq<Segment>, s: Segment)
    requires Ranked(segments) && !HasSegment(segments, s.id) && s.position == MaxPosition(segments, s.journeyId) + 1
    ensures Ranked(segments + [s])
  {
    hide MaxPosition, DistinctSegments, DistinctPositions, Dense, HasSegment;
    NextPosition(segments, s.journeyId);
    AppendedSegment(segments, s);
  }

  /** A reorder is remove-then-insert on the ordered list, nothing else. */
  lemma ReorderMoves(db: JourneyData, journeyId: string, itemId: string, expected: int, position: int, now: string,
      i: nat)
    requires Ranked(db.segments) && Serve(db, Reorder(journeyId, itemId, expected, position), now).Ok?
    requires var before := IdsOf(Route(db.segments, journeyId)); i < |before| && before[i] == itemId
    ensures var before := IdsOf(Route(db.segments, journeyId));
            var after :=
              IdsOf(Route(Serve(db, Reorder(journeyId, itemId, expected, position), now).value.segments, journeyId));
            && 0 <= position < |after| == |before| && after[position] == itemId
            && after[..position] + after[position + 1..] == before[..i] + before[i + 1..]
  {
    hide Ranked, TouchRow, Route, Reordered, MoveTo;
    var before := IdsOf(Route(db.segments, journeyId));
    MovedLists(db.segments, journeyId, itemId, position);
    ReorderedRanked(db.segments, MoveTo(before, itemId, position), journeyId, itemId, now);
    RankedOrder(db.segments, journeyId);
    MovedOne(before, i, position);
  }

  lemma RankedOrder(segments: seq<Segment>, journeyId: string)
    requires Ranked(segments)
    ensures Distinct(IdsOf(Route(segments, journeyId)))
  {
    hide DistinctSegments, DistinctPositions, Dense, Route, Owned;
    RouteLists(segments, journeyId);
  }

  lemma MovedOne(order: seq<string>, i: nat, position: nat)
    requires Distinct(order) && i < |order| && position < |order|
    ensures var after := MoveTo(order, order[i], position);
            && |after| == |order| && after[position] == order[i]
            && after[..position] + after[position + 1..] == order[..i] + order[i + 1..]
  {
    IndexUnique(order, i);
    var rest, after := order[..i] + order[i + 1..], MoveTo(order, order[i], position);
    assert after == rest[..position] + [order[i]] + rest[position..];
    assert after[..position] == rest[..position] && after[position + 1..] == rest[position..];
  }

  function ServeAll(db: JourneyData, requests: seq<Request>, now: string): Result<JourneyData, HttpError>
    decreases |requests|
  {
    if requests == [] then Ok(db)
    else
      match Serve(db, requests[0], now)
      case Err(error) => Err(error)
      case Ok(next) => ServeAll(next, requests[1..], now)
  }

  /** What a sequence of requests leaves behind. Failed ones change nothing, and any request may fail that the
      transaction itself would serve: refused by a constraint, or lost on its way. */
  function Served(db: JourneyData, requests: seq<Request>, times: seq<string>, lost: seq<bool>): JourneyData
    requires |times| == |requests| == |lost|
    decreases |requests|
  {
    if requests == [] then db
    else if lost[0] then Served(db, requests[1..], times[1..], lost[1..])
    else
      match Serve(db, requests[0], times[0])
      case Err(_) => Served(db, requests[1..], times[1..], lost[1..])
      case Ok(next) => Served(next, requests[1..], times[1..], lost[1..])
  }

  /** From ranked tables, any sequence of requests leaves every route exactly 0, 1, ..., n - 1. */
  lemma {:induction false} EverySequenceRanked(db: JourneyData, requests: seq<Request>, times: seq<string>,
      lost: seq<bool>, journeyId: string, k: nat)
    requires |times| == |requests| == |lost| && Ranked(db.segments)
    ensures Ranked(Served(db, requests, times, lost).segments)
    ensures var route := Route(Served(db, requests, times, lost).segments, journeyId);
            k < |route| ==> route[k].position == k
    decreases |requests|
  {
    hide Serve, Route, DistinctSegments, DistinctPositions, Dense;
    if requests == [] {
      if k < |Route(db.segments, journeyId)| {
        DenseRoute(db.segments, journeyId, k);
      }
    } else if lost[0] {
      EverySequenceRanked(db, requests[1..], times[1..], lost[1..], journeyId, k);
    } else {
      match Serve(db, requests[0], times[0]) {
        case Err(_) => EverySequenceRanked(db, requests[1..], times[1..], lost[1..], journeyId, k);
        case Ok(next) =>
          RequestKeepsRanks(db, requests[0], times[0]);
          EverySequenceRanked(next, requests[1..], times[1..], lost[1..], journeyId, k);
      }
    }
  }
}
