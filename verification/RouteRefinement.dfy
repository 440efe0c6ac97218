/** Save on route edits: a new or rewritten segment, the swap of two neighbours, and a deletion with its
    extra reorder that changes nothing. */
module RouteRefinement {
  import opened Basics
  import opened JourneyDomain
  import opened JourneyService
  import opened JourneyEdits
  import opened JourneyDatabase
  import opened JourneyTables
  import opened JourneyRuns
  import opened JourneySave
  import opened JourneyRefinement

  // ---- routes with the same shape ---

  ghost predicate SamePlaces(a: seq<Segment>, b: seq<Segment>) {
    |a| == |b| && forall i :: 0 <= i < |a| ==> a[i].id == b[i].id && a[i].journeyId == b[i].journeyId && a[i].position == b[i].position
  }

  lemma RouteIndex(segments: seq<Segment>, journeyId: string, i: nat)
    requires Ranked(segments) && i < |segments| && segments[i].journeyId == journeyId
    ensures var order := IdsOf(Route(segments, journeyId));
            segments[i].id in order && IndexOf(order, segments[i].id) == segments[i].position
  {
    hide DistinctSegments, DistinctPositions, Dense, Route, Owned;
    var route := Route(segments, journeyId);
    var order := IdsOf(route);
    RouteLists(segments, journeyId);
    var k := IndexOf(order, segments[i].id);
    DenseRoute(segments, journeyId, k);
    RouteMember(segments, journeyId, route[k]);
    SameSegment(segments, route[k], segments[i]);
  }

  /** A ranked route depends only on identifiers, owners and positions. */
  lemma SamePlacesSameRoute(a: seq<Segment>, b: seq<Segment>, journeyId: string)
    requires Ranked(a) && SamePlaces(a, b)
    ensures IdsOf(Route(a, journeyId)) == IdsOf(Route(b, journeyId)) && Ranked(b)
  {
    hide DistinctSegments, DistinctPositions, Dense, Route, Owned;
    var order := IdsOf(Route(a, journeyId));
    SameShape(a, b);
    RouteLists(a, journeyId);
    SameLists(order, a, b, journeyId);
    forall i | 0 <= i < |b| && b[i].id in order ensures b[i].position == IndexOf(order, b[i].id) {
      RouteIndex(a, journeyId, i);
    }
    NumberedRoute(b, order, journeyId);
  }

  /** Appending a segment behind all others of its journey appends it to that route only. */
  lemma AppendedRoute(segments: seq<Segment>, s: Segment, journeyId: string)
    requires forall i :: 0 <= i < |segments| && segments[i].journeyId == s.journeyId ==>
        segments[i].position <= s.position
    ensures Route(segments + [s], journeyId) == Route(segments, journeyId) + if s.journeyId == journeyId then [s]
        else []
  {
    FilterAppend(segments, [s], (x: Segment) => x.journeyId == journeyId);
    var owned := Owned(segments, journeyId);
    assert Owned([s], journeyId) == if s.journeyId == journeyId then [s] else [];
    assert Owned(segments + [s], journeyId) == owned + Owned([s], journeyId);
    if s.journeyId == journeyId {
      assert (owned + [s])[..|owned|] == owned;
      var sorted := SortByPosition(owned);
      forall k | 0 <= k < |sorted| ensures sorted[k].position <= s.position {
        RouteMember(segments, journeyId, sorted[k]);
      }
    } else {
      assert owned + [] == owned;
    }
  }

  /** Some row already carries this body. */
  ghost predicate HasBody(segments: seq<Segment>, s: Segment) {
    exists j :: 0 <= j < |segments| && SegmentBodyOf(s) == SegmentBodyOf(segments[j])
  }

  lemma SegmentAcceptable(db: JourneyData, next: JourneyData, k: nat)
    requires Acceptable(db) && k < |next.segments| && next.packing == db.packing
    requires AcceptedJourneys(next.journeys)
    requires forall i :: 0 <= i < |next.segments| && i != k ==> HasBody(db.segments, next.segments[i])
    ensures Acceptable(next) <==> AcceptsSegment(SegmentBodyOf(next.segments[k]))
  {
    hide AcceptsJourney, AcceptsSegment, AcceptsPacking;
    if AcceptsSegment(SegmentBodyOf(next.segments[k])) {
      forall i | 0 <= i < |next.segments| ensures AcceptsSegment(SegmentBodyOf(next.segments[i])) {
        if i != k {
          var j :| 0 <= j < |db.segments| && SegmentBodyOf(next.segments[i]) == SegmentBodyOf(db.segments[j]);
        }
      }
    }
  }

  lemma SegmentsAcceptable(db: JourneyData, next: JourneyData)
    requires Acceptable(db) && next.packing == db.packing
    requires AcceptedJourneys(next.journeys)
    requires forall i :: 0 <= i < |next.segments| ==> HasBody(db.segments, next.segments[i])
    ensures Acceptable(next)
  {
    hide AcceptsJourney, AcceptsSegment, AcceptsPacking;
    forall i | 0 <= i < |next.segments| ensures AcceptsSegment(SegmentBodyOf(next.segments[i])) {
      assert HasBody(db.segments, next.segments[i]);
      var j :| 0 <= j < |db.segments| && SegmentBodyOf(next.segments[i]) == SegmentBodyOf(db.segments[j]);
    }
  }

  // ---- a new segment ---

  lemma {:induction false} OnlyNewBehind(previous: JourneyData, before: seq<Segment>, s: Segment, k: nat)
    requires k <= |before| + 1 && SegmentById(previous.segments, s.id).None?
    ensures Moved(previous, before, before + [s], k).None?
    decreases |before| + 1 - k
  {
    if k <= |before| {
      OnlyNewBehind(previous, before, s, k + 1);
    }
  }

  lemma AppendReorders(db: JourneyData, next: JourneyData, s: Segment)
    requires next.segments == db.segments + [s] && !HasSegment(db.segments, s.id)
    requires forall i :: 0 <= i < |db.segments| && db.segments[i].journeyId == s.journeyId ==>
        db.segments[i].position <= s.position
    ensures Flatten(Reorders(db, next)) == []
  {
    hide Route, Moved, SegmentById, HasSegment;
    NoSegment(db.segments, s.id);
    forall i | 0 <= i < |next.journeys| ensures Reorders(db, next)[i] == [] {
      var id := next.journeys[i].id;
      AppendedRoute(db.segments, s, id);
      if s.journeyId == id {
        OnlyNewBehind(db, Route(db.segments, id), s, 0);
      } else {
        assert Route(db.segments, id) + [] == Route(db.segments, id);
        NothingMoved(db, Route(db.segments, id), Route(next.segments, id), 0);
      }
    }
    FlattenNone(Reorders(db, next));
  }

  lemma AppendSends(db: JourneyData, next: JourneyData, s: Segment, journeyId: string, now: string)
    requires DistinctJourneys(db.journeys) && DistinctSegments(db.segments) && DistinctPacking(db.packing) &&
        !HasSegment(db.segments, s.id)
    requires next == db.(segments := db.segments + [s], journeys := Touch(db.journeys, journeyId, now))
    requires forall i :: 0 <= i < |db.segments| && db.segments[i].journeyId == s.journeyId ==>
        db.segments[i].position <= s.position
    ensures SaveRequests(db, next) == [PostSegment(s.journeyId, s.id, SegmentBodyOf(s))]
  {
    hide DistinctJourneys, DistinctSegments, DistinctPacking, SegmentById, JourneyRequests, PackingRequests, Reorders,
        SegmentWrite, HasJourney, Touch;
    QuietJourneys(db, next, journeyId, now);
    QuietPacking(db, next);
    AppendReorders(db, next, s);
    forall i | 0 <= i < |db.segments| ensures SegmentDrops(db, next)[i] == [] && SegmentWrites(db, next)[i] == [] {
      assert next.segments[i] == db.segments[i];
      assert HasSegment(next.segments, db.segments[i].id);
      UnchangedSegment(db, next.segments[i], i);
    }
    FlattenNone(SegmentDrops(db, next));
    FlattenOne(SegmentWrites(db, next), |db.segments|);
    AppendedWrite(db, s);
  }

  lemma AppendedWrite(db: JourneyData, s: Segment)
    requires !HasSegment(db.segments, s.id)
    ensures SegmentWrite(db, s) == [PostSegment(s.journeyId, s.id, SegmentBodyOf(s))]
  {
    NoSegment(db.segments, s.id);
  }

  lemma SameSegmentAppend(a: seq<Segment>, x: Segment, y: Segment)
    requires x.(stamp := NO_STAMP) == y.(stamp := NO_STAMP)
    ensures SameSegments(a + [x], a + [y])
  {
  }

  lemma SamePackingSelf(packing: seq<PackingItem>)
    ensures SamePacking(packing, packing)
  {
  }

  lemma SameSegmentsSelf(segments: seq<Segment>)
    ensures SameSegments(segments, segments)
  {
  }

  lemma AppendServes(db: JourneyData, next: JourneyData, s: Segment, journeyId: string, now: string, time: string)
    requires Acceptable(db) && Ranked(db.segments) && HasJourney(db.journeys, journeyId) &&
        !HasSegment(db.segments, s.id) && s.journeyId == journeyId
    requires next == db.(segments := db.segments + [s], journeys := Touch(db.journeys, journeyId, now))
    requires s.position == |Owned(db.segments, journeyId)| && TrimmedSegment(s)
    ensures Brings(Serve(db, PostSegment(s.journeyId, s.id, SegmentBodyOf(s)), time), next)
  {
    hide Acceptable, HasJourney, HasSegment, Ranked, Owned, Trim, TrimDetails, AcceptsSegment, SameSegments,
        SameJourneys,
        SamePacking, TouchRow, Touch, MaxPosition;
    NextPosition(db.segments, journeyId);
    SameSegmentAppend(db.segments, NewSegment(journeyId, s.id, SegmentBodyOf(s), s.position, time), s);
    TouchedContent(db.journeys, journeyId, now, time);
    SamePackingSelf(db.packing);
    AppendAcceptable(db, next, s, journeyId, now);
  }

  lemma AppendAcceptable(db: JourneyData, next: JourneyData, s: Segment, journeyId: string, now: string)
    requires Acceptable(db) && next == db.(segments := db.segments + [s],
        journeys := Touch(db.journeys, journeyId, now))
    ensures Acceptable(next) <==> AcceptsSegment(SegmentBodyOf(s))
  {
    hide AcceptsJourney, AcceptsSegment, AcceptsPacking, Acceptable, Touch;
    TouchedAcceptable(db, next, journeyId, now);
    forall i | 0 <= i < |next.segments| && i != |db.segments|
      ensures HasBody(db.segments, next.segments[i])
    {
      assert i < |db.segments| && SegmentBodyOf(next.segments[i]) == SegmentBodyOf(db.segments[i]);
    }
    SegmentAcceptable(db, next, |db.segments|);
  }

  lemma DetailsTrimmedTwice(details: Details)
    ensures TrimDetails(TrimDetails(details)) == TrimDetails(details)
  {
    hide Trim;
    match details {
      case Stay(place) => TrimTwice(place);
      case Move(origin, destination, transport) =>
        TrimTwice(origin);
        TrimTwice(destination);
        TrimTwice(transport);
    }
  }

  lemma SavedTrimmed(input: SegmentInput, journeyId: string, existing: Option<Segment>, position: nat, id: string,
      now: string)
    ensures TrimmedSegment(SegmentFrom(input, journeyId, existing, position, id, now))
  {
    hide Trim, TrimDetails;
    TrimTwice(input.notes);
    DetailsTrimmedTwice(input.details);
  }

  lemma DenseBelow(segments: seq<Segment>, journeyId: string)
    requires Dense(segments)
    ensures forall i :: 0 <= i < |segments| && segments[i].journeyId == journeyId ==>
        segments[i].position <= |Owned(segments, journeyId)|
  {
    hide Owned;
  }

  lemma NewSegmentBrings(db: JourneyData, journeyId: string, input: SegmentInput, id: string, now: string, time: string,
      parseable: string -> bool)
    requires Hosted(db, parseable) && FreshId(db, id) && HasJourney(db.journeys, journeyId)
    ensures var s := SegmentFrom(input, journeyId, None, |Route(db.segments, journeyId)|, id, now);
            var next := db.(segments := db.segments + [s], journeys := Touch(db.journeys, journeyId, now));
            Brings(ServeAll(db, SaveRequests(db, next), time), next) && |SaveRequests(db, next)| <= 1
  {
    hide Hosted, Acceptable, Trimmed, Sound, Accepted, DistinctJourneys, DistinctSegments, DistinctPacking, Ranked,
        HasJourney, HasSegment, FreshId, Trim,
      TrimDetails, Owned, Route, Touch, SaveRequests, ServeAll, Serve, Brings;
    var s := SegmentFrom(input, journeyId, None, |Route(db.segments, journeyId)|, id, now);
    var next := db.(segments := db.segments + [s], journeys := Touch(db.journeys, journeyId, now));
    HostedParts(db, parseable);
    FreshParts(db, id);
    RouteLength(db.segments, journeyId);
    RankedDense(db.segments);
    DenseBelow(db.segments, journeyId);
    SavedTrimmed(input, journeyId, None, |Route(db.segments, journeyId)|, id, now);
    AppendSends(db, next, s, journeyId, now);
    AppendServes(db, next, s, journeyId, now, time);
    BringsOne(db, next, PostSegment(s.journeyId, s.id, SegmentBodyOf(s)), time);
  }

  lemma RankedDense(segments: seq<Segment>)
    requires Ranked(segments)
    ensures Dense(segments) && DistinctSegments(segments) && DistinctPositions(segments)
  {
    hide Dense, DistinctSegments, DistinctPositions;
  }

  // ---- a rewritten segment ---

  lemma ReplaceSends(db: JourneyData, next: JourneyData, s: Segment, k: nat, journeyId: string, now: string)
    requires DistinctJourneys(db.journeys) && DistinctSegments(db.segments) && DistinctPacking(db.packing) &&
        Ranked(db.segments)
    requires k < |db.segments| && s.id == db.segments[k].id && s.journeyId == db.segments[k].journeyId &&
        s.position == db.segments[k].position
    requires next == db.(segments := db.segments[k := s], journeys := Touch(db.journeys, journeyId, now))
    ensures SaveRequests(db, next) ==
              if SegmentBodyOf(db.segments[k]) != SegmentBodyOf(s)
              then [PutSegment(s.journeyId, s.id, SegmentBodyOf(s), db.segments[k].stamp.version)] else []
  {
    hide DistinctJourneys, DistinctSegments, DistinctPacking, Ranked, SegmentById, JourneyRequests, PackingRequests,
        SegmentRequests, Route, Touch;
    QuietJourneys(db, next, journeyId, now);
    QuietPacking(db, next);
    forall i | 0 <= i < |next.journeys|
      ensures IdsOf(Route(db.segments, next.journeys[i].id)) == IdsOf(Route(next.segments, next.journeys[i].id))
    {
      SamePlacesSameRoute(db.segments, next.segments, next.journeys[i].id);
    }
    SegmentPhase(db, next, k);
    SegmentAt(db.segments, k);
  }

  lemma RewrittenRows(segments: seq<Segment>, s: Segment, k: nat, time: string)
    requires DistinctSegments(segments) && k < |segments| && TrimmedSegment(s)
    requires s.id == segments[k].id && s.journeyId == segments[k].journeyId && s.position == segments[k].position
    ensures SameSegments(RewriteSegment(segments, s.id, SegmentBodyOf(s), time), segments[k := s])
  {
    hide Trim, TrimDetails;
  }

  lemma ReplaceAcceptable(db: JourneyData, next: JourneyData, s: Segment, k: nat, journeyId: string, now: string)
    requires Acceptable(db) && k < |db.segments| &&
        next == db.(segments := db.segments[k := s], journeys := Touch(db.journeys, journeyId, now))
    ensures Acceptable(next) <==> AcceptsSegment(SegmentBodyOf(s))
  {
    hide AcceptsJourney, AcceptsSegment, AcceptsPacking, Acceptable, Touch;
    TouchedAcceptable(db, next, journeyId, now);
    forall i | 0 <= i < |next.segments| && i != k
      ensures HasBody(db.segments, next.segments[i])
    {
      assert i < |db.segments| && SegmentBodyOf(next.segments[i]) == SegmentBodyOf(db.segments[i]);
    }
    SegmentAcceptable(db, next, k);
  }

  lemma ReplaceServes(db: JourneyData, next: JourneyData, s: Segment, k: nat, now: string, time: string)
    requires Acceptable(db) && DistinctSegments(db.segments) && k < |db.segments| &&
        db.segments[k].stamp.version >= 1 &&
        TrimmedSegment(s)
    requires s.id == db.segments[k].id && s.journeyId == db.segments[k].journeyId &&
        s.position == db.segments[k].position
    requires HasJourney(db.journeys, s.journeyId)
    requires next == db.(segments := db.segments[k := s], journeys := Touch(db.journeys, s.journeyId, now))
    ensures Brings(Serve(db, PutSegment(s.journeyId, s.id, SegmentBodyOf(s), db.segments[k].stamp.version), time), next)
  {
    hide Acceptable, DistinctSegments, HasJourney, Trim, TrimDetails, AcceptsSegment, SameSegments, SameJourneys,
        SamePacking, TouchRow, Touch, RewriteSegment,
      FindSegment, TrimmedSegment;
    SegmentAt(db.segments, k);
    RewrittenRows(db.segments, s, k, time);
    TouchedContent(db.journeys, s.journeyId, now, time);
    SamePackingSelf(db.packing);
    ReplaceAcceptable(db, next, s, k, s.journeyId, now);
  }

  lemma UnwrittenContent(db: JourneyData, next: JourneyData, s: Segment, k: nat, journeyId: string, now: string)
    requires k < |db.segments| && s.id == db.segments[k].id && s.journeyId == db.segments[k].journeyId &&
        s.position == db.segments[k].position
    requires SegmentBodyOf(db.segments[k]) == SegmentBodyOf(s) &&
        next == db.(segments := db.segments[k := s], journeys := Touch(db.journeys, journeyId, now))
    ensures SameContent(db, next)
  {
    hide Touch;
    TouchedContent(db.journeys, journeyId, now, now);
  }

  lemma RewrittenSegmentBrings(db: JourneyData, journeyId: string, input: SegmentInput, existing: Segment, id: string,
      now: string, time: string, parseable: string -> bool)
    requires Hosted(db, parseable) && HasJourney(db.journeys, journeyId)
    requires FindSegment(db.segments, journeyId, existing.id) == Some(existing)
    ensures var s := SegmentFrom(input, journeyId, Some(existing), |Route(db.segments, journeyId)|, id, now);
            var next := db.(segments := ReplaceSegment(db.segments, s), journeys := Touch(db.journeys, journeyId, now));
            Brings(ServeAll(db, SaveRequests(db, next), time), next) && |SaveRequests(db, next)| <= 1
  {
    hide Hosted, Acceptable, Trimmed, Sound, Accepted, DistinctJourneys, DistinctSegments, DistinctPacking,
        DistinctPositions, Ranked, HasJourney, Trim, TrimDetails, Owned, Route, Touch,
      SaveRequests, ServeAll, Serve, Brings, ReplaceSegment, FindSegment, SameContent, TrimmedSegment, Dense;
    var s := SegmentFrom(input, journeyId, Some(existing), |Route(db.segments, journeyId)|, id, now);
    var k := FoundSegment(db.segments, journeyId, existing.id);
    HostedParts(db, parseable);
    VersionsPositive(db, parseable);
    RankedDense(db.segments);
    ReplacedSegment(db.segments, s, k);
    var next := db.(segments := db.segments[k := s], journeys := Touch(db.journeys, journeyId, now));
    SavedTrimmed(input, journeyId, Some(existing), |Route(db.segments, journeyId)|, id, now);
    ReplaceSends(db, next, s, k, journeyId, now);
    ReplaceAcceptable(db, next, s, k, journeyId, now);
    if SegmentBodyOf(db.segments[k]) != SegmentBodyOf(s) {
      ReplaceServes(db, next, s, k, now, time);
      BringsOne(db, next, PutSegment(s.journeyId, s.id, SegmentBodyOf(s), db.segments[k].stamp.version), time);
    } else {
      UnwrittenContent(db, next, s, k, journeyId, now);
      StoredSegment(db, k);
      BringsNothing(db, next, time);
    }
  }

  lemma StoredSegment(db: JourneyData, k: nat)
    requires Acceptable(db) && k < |db.segments|
    ensures AcceptsSegment(SegmentBodyOf(db.segments[k]))
  {
    hide AcceptsJourney, AcceptsSegment, AcceptsPacking;
  }

  // ---- a swap of two neighbours ---

  /** Rows that only change position: the writes are quiet, and only the route of this journey moves. */
  lemma RenumberKept(segments: seq<Segment>, order: seq<string>)
    ensures SegmentsKept(segments, Renumber(segments, order), -1)
  {
  }

  lemma RenumberElsewhere(segments: seq<Segment>, order: seq<string>, journeyId: string, other: string)
    requires Ranked(segments) && Lists(order, segments, journeyId) && other != journeyId
    ensures IdsOf(Route(Renumber(segments, order), other)) == IdsOf(Route(segments, other))
  {
    hide DistinctSegments, DistinctPositions, Dense, Route, Owned;
    var after := Renumber(segments, order);
    var route := IdsOf(Route(segments, other));
    RankedDense(segments);
    RenumberRanked(segments, order, journeyId);
    RouteLists(segments, other);
    SameLists(route, segments, after, other);
    forall i | 0 <= i < |after| && after[i].id in route ensures after[i].position == IndexOf(route, after[i].id) {
      RouteIndex(segments, other, i);
    }
    NumberedRoute(after, route, other);
  }

  lemma RenumberRanked(segments: seq<Segment>, order: seq<string>, journeyId: string)
    requires Ranked(segments) && Lists(order, segments, journeyId)
    ensures Ranked(Renumber(segments, order)) && IdsOf(Route(Renumber(segments, order), journeyId)) == order
  {
    RenumberDense(segments, order, journeyId);
    hide DistinctSegments, DistinctPositions, Dense, Route, Owned, Lists;
    SameLists(order, segments, Renumber(segments, order), journeyId);
    NumberedRoute(Renumber(segments, order), order, journeyId);
  }

  lemma JourneyIndex(journeys: seq<Journey>, journeyId: string) returns (k: nat)
    requires HasJourney(journeys, journeyId)
    ensures k < |journeys| && journeys[k].id == journeyId
  {
    k :| 0 <= k < |journeys| && journeys[k].id == journeyId;
  }

  /** All reorders but that of one journey are empty, so the phase sends what that journey needs. */
  lemma OneReorder(db: JourneyData, next: JourneyData, journeyId: string)
    requires DistinctJourneys(next.journeys) && HasJourney(next.journeys, journeyId)
    requires forall other :: other != journeyId ==>
        IdsOf(Route(db.segments, other)) == IdsOf(Route(next.segments, other))
    ensures Flatten(Reorders(db, next)) == JourneyReorder(db, next, journeyId)
  {
    hide Route, Moved, JourneyReorder;
    var k := JourneyIndex(next.journeys, journeyId);
    forall i | 0 <= i < |next.journeys| && i != k ensures Reorders(db, next)[i] == [] {
      assert next.journeys[i].id != journeyId;
      StillReorder(db, next, next.journeys[i].id);
    }
    FlattenOne(Reorders(db, next), k);
  }

  lemma StillReorder(db: JourneyData, next: JourneyData, journeyId: string)
    requires IdsOf(Route(db.segments, journeyId)) == IdsOf(Route(next.segments, journeyId))
    ensures JourneyReorder(db, next, journeyId) == []
  {
    hide Route, Moved;
    NothingMoved(db, Route(db.segments, journeyId), Route(next.segments, journeyId), 0);
  }

  lemma SwapShape(order: seq<string>, id: string, direction: Direction) returns (k: nat)
    requires Distinct(order) && id in order && Swapped(order, id, direction).Some?
    ensures var after := Swapped(order, id, direction).value;
            && k + 1 < |order| == |after|
            && (forall i :: 0 <= i < k ==> after[i] == order[i]) && after[k] == order[k + 1] &&
                after[k + 1] == order[k] && after[k] != order[k]
            && after[k] in order && MoveTo(order, after[k], k) == after
  {
    var index, after := IndexOf(order, id), Swapped(order, id, direction).value;
    k := if direction.Up? then index - 1 else index;
    IndexUnique(order, k + 1);
    var rest := order[..k + 1] + order[k + 1 + 1..];
    assert rest[..k] + [order[k + 1]] + rest[k..] == after;
  }

  lemma TouchDistinct(journeys: seq<Journey>, journeyId: string, now: string)
    requires DistinctJourneys(journeys)
    ensures DistinctJourneys(Touch(journeys, journeyId, now)) && SameIds(journeys, Touch(journeys, journeyId, now))
  {
  }

  lemma TouchHas(journeys: seq<Journey>, journeyId: string, now: string)
    requires HasJourney(journeys, journeyId)
    ensures HasJourney(Touch(journeys, journeyId, now), journeyId)
  {
    var i :| 0 <= i < |journeys| && journeys[i].id == journeyId;
    assert Touch(journeys, journeyId, now)[i].id == journeyId;
  }

  lemma {:induction false} SegmentKnown(segments: seq<Segment>, id: string)
    requires HasSegment(segments, id)
    ensures SegmentById(segments, id).Some? && SegmentById(segments, id).value in segments &&
        SegmentById(segments, id).value.id == id
  {
    if segments[0].id != id {
      var i :| 0 <= i < |segments| && segments[i].id == id;
      assert segments[1..][i - 1].id == id;
      SegmentKnown(segments[1..], id);
    }
  }

  /** The reorder of a journey whose route now reads `after`, first differing from before at k. */
  lemma ReorderAt(db: JourneyData, next: JourneyData, journeyId: string, k: nat)
    requires var before, after := IdsOf(Route(db.segments, journeyId)), IdsOf(Route(next.segments, journeyId));
             && |before| >= |after| && k < |after| && Distinct(after)
             && (forall i :: 0 <= i < k ==> before[i] == after[i]) && before[k] != after[k]
             && HasSegment(db.segments, after[k])
    ensures var after := IdsOf(Route(next.segments, journeyId));
            SegmentById(db.segments, after[k]).Some? &&
            JourneyReorder(db, next, journeyId) == [Reorder(journeyId, after[k],
                SegmentById(db.segments, after[k]).value.stamp.version, k)]
  {
    hide Route, Moved, SegmentById;
    var before, after := Route(db.segments, journeyId), Route(next.segments, journeyId);
    SegmentKnown(db.segments, after[k].id);
    forall i | 0 <= i < k ensures before[i].id == after[i].id {
      assert IdsOf(before)[i] == IdsOf(after)[i];
    }
    FirstMoved(db, before, after, 0, k);
    IndexUnique(IdsOf(after), k);
  }

  lemma {:induction false} FirstMoved(previous: JourneyData, before: seq<Segment>, after: seq<Segment>, k: nat,
      target: nat)
    requires k <= target < |after| && |before| >= |after|
    requires forall i :: 0 <= i < target ==> before[i].id == after[i].id
    requires before[target].id != after[target].id && SegmentById(previous.segments, after[target].id).Some?
    ensures Moved(previous, before, after, k) == Some(target)
    decreases target - k
  {
    if k < target {
      FirstMoved(previous, before, after, k + 1, target);
    }
  }

  lemma SwapSends(db: JourneyData, next: JourneyData, journeyId: string, order: seq<string>, after: seq<string>, k: nat,
      now: string)
    requires DistinctJourneys(db.journeys) && DistinctPacking(db.packing) && Ranked(db.segments) &&
        HasJourney(db.journeys, journeyId)
    requires order == IdsOf(Route(db.segments, journeyId)) && Lists(after, db.segments, journeyId)
    requires k + 1 < |order| == |after| && (forall i :: 0 <= i < k ==> after[i] == order[i]) && after[k] != order[k]
    requires next == db.(segments := Renumber(db.segments, after), journeys := Touch(db.journeys, journeyId, now))
    ensures HasSegment(db.segments, after[k]) && SegmentById(db.segments, after[k]).Some?
    ensures SaveRequests(db, next) == [Reorder(journeyId, after[k],
        SegmentById(db.segments, after[k]).value.stamp.version, k)]
  {
    hide DistinctJourneys, DistinctSegments, DistinctPositions, Dense, DistinctPacking, SegmentById, JourneyRequests,
        PackingRequests, Route, Touch, Renumber,
      JourneyReorder, Reorders, HasJourney, HasSegment, Owned;
    QuietJourneys(db, next, journeyId, now);
    QuietPacking(db, next);
    RankedDense(db.segments);
    RenumberKept(db.segments, after);
    QuietWrites(db, next);
    RenumberRanked(db.segments, after, journeyId);
    forall other | other != journeyId ensures IdsOf(Route(db.segments, other)) == IdsOf(Route(next.segments, other)) {
      RenumberElsewhere(db.segments, after, journeyId, other);
    }
    TouchDistinct(db.journeys, journeyId, now);
    TouchHas(db.journeys, journeyId, now);
    OneReorder(db, next, journeyId);
    ListedRows(after, db.segments, journeyId);
    ReorderAt(db, next, journeyId, k);
  }

  /** With the same segments and bodies nothing is deleted and nothing written. */
  lemma QuietWrites(db: JourneyData, next: JourneyData)
    requires DistinctSegments(db.segments) && SegmentsKept(db.segments, next.segments, -1)
    ensures Flatten(SegmentDrops(db, next)) == [] && Flatten(SegmentWrites(db, next)) == []
  {
    hide DistinctSegments, SegmentById, SegmentWrite, HasJourney;
    forall i | 0 <= i < |db.segments| ensures SegmentDrops(db, next)[i] == [] {
      assert next.segments[i].id == db.segments[i].id;
    }
    FlattenNone(SegmentDrops(db, next));
    forall i | 0 <= i < |next.segments| ensures SegmentWrites(db, next)[i] == [] {
      UnchangedSegment(db, next.segments[i], i);
    }
    FlattenNone(SegmentWrites(db, next));
  }

  lemma ReorderedContent(segments: seq<Segment>, order: seq<string>, moved: string, time: string)
    ensures SameSegments(Reordered(segments, order, moved, time), Renumber(segments, order))
  {
  }

  lemma KnownRow(segments: seq<Segment>, id: string, journeyId: string)
    requires DistinctSegments(segments) && HasSegment(segments, id)
    requires forall i :: 0 <= i < |segments| && segments[i].id == id ==> segments[i].journeyId == journeyId
    ensures SegmentById(segments, id).Some? && FindSegment(segments, journeyId, id) == SegmentById(segments, id)
  {
    var i :| 0 <= i < |segments| && segments[i].id == id;
    SegmentAt(segments, i);
  }

  lemma ListedOwner(order: seq<string>, segments: seq<Segment>, journeyId: string, id: string)
    requires Lists(order, segments, journeyId) && id in order
    ensures forall i :: 0 <= i < |segments| && segments[i].id == id ==> segments[i].journeyId == journeyId
  {
    hide Owned;
  }

  lemma KnownVersion(db: JourneyData, id: string, parseable: string -> bool)
    requires Accepted(db, parseable) && HasSegment(db.segments, id)
    ensures SegmentById(db.segments, id).Some? && SegmentById(db.segments, id).value.stamp.version >= 1
  {
    VersionsPositive(db, parseable);
    hide Accepted;
    SegmentKnown(db.segments, id);
    var row := SegmentById(db.segments, id).value;
    var i :| 0 <= i < |db.segments| && db.segments[i] == row;
  }

  lemma SwapServes(db: JourneyData, next: JourneyData, journeyId: string, order: seq<string>, after: seq<string>,
      k: nat, now: string, time: string, parseable: string -> bool)
    requires Acceptable(db) && Accepted(db, parseable) && Ranked(db.segments) && HasJourney(db.journeys, journeyId)
    requires order == IdsOf(Route(db.segments, journeyId)) && k < |order| && k < |after| && after[k] in order &&
        MoveTo(order, after[k], k) == after
    requires HasSegment(db.segments, after[k]) && SegmentById(db.segments, after[k]).Some?
    requires next == db.(segments := Renumber(db.segments, after), journeys := Touch(db.journeys, journeyId, now))
    ensures Brings(Serve(db, Reorder(journeyId, after[k], SegmentById(db.segments, after[k]).value.stamp.version, k),
        time), next)
  {
    hide Acceptable, Accepted, DistinctSegments, DistinctPositions, Dense, HasJourney, HasSegment, SameSegments,
        SameJourneys, SamePacking, TouchRow, Touch,
      FindSegment, SegmentById, Route, MoveTo, Renumber, Reordered, Owned, Lists;
    RankedDense(db.segments);
    KnownVersion(db, after[k], parseable);
    RouteLists(db.segments, journeyId);
    ListedOwner(order, db.segments, journeyId, after[k]);
    KnownRow(db.segments, after[k], journeyId);
    ReorderedContent(db.segments, after, after[k], time);
    TouchedContent(db.journeys, journeyId, now, time);
    SamePackingSelf(db.packing);
    MovedAcceptable(db, next, after, journeyId, now);
  }

  lemma MovedAcceptable(db: JourneyData, next: JourneyData, after: seq<string>, journeyId: string, now: string)
    requires Acceptable(db) && next == db.(segments := Renumber(db.segments, after),
        journeys := Touch(db.journeys, journeyId, now))
    ensures Acceptable(next)
  {
    hide AcceptsJourney, AcceptsSegment, AcceptsPacking, Acceptable, Touch;
    TouchedAcceptable(db, next, journeyId, now);
    forall i | 0 <= i < |next.segments|
      ensures HasBody(db.segments, next.segments[i])
    {
      assert SegmentBodyOf(next.segments[i]) == SegmentBodyOf(db.segments[i]);
    }
    SegmentsAcceptable(db, next);
  }

  lemma MoveBrings(db: JourneyData, journeyId: string, itemId: string, direction: Direction, now: string, time: string,
      parseable: string -> bool)
    requires Hosted(db, parseable) && HasJourney(db.journeys, journeyId)
    requires itemId in IdsOf(Route(db.segments, journeyId)) &&
        Swapped(IdsOf(Route(db.segments, journeyId)), itemId, direction).Some?
    ensures var after := Swapped(IdsOf(Route(db.segments, journeyId)), itemId, direction).value;
            var next := db.(segments := Renumber(db.segments, after), journeys := Touch(db.journeys, journeyId, now));
            Brings(ServeAll(db, SaveRequests(db, next), time), next) && |SaveRequests(db, next)| <= 1
  {
    hide Hosted, Acceptable, Trimmed, Sound, Accepted, DistinctJourneys, DistinctSegments, DistinctPacking,
        DistinctPositions, Dense, HasJourney, HasSegment, Owned, Route,
      Touch, SaveRequests, ServeAll, Serve, Brings, Renumber, MoveTo, Swapped, Lists, SegmentById;
    var order := IdsOf(Route(db.segments, journeyId));
    var after := Swapped(order, itemId, direction).value;
    var next := db.(segments := Renumber(db.segments, after), journeys := Touch(db.journeys, journeyId, now));
    HostedParts(db, parseable);
    RankedDense(db.segments);
    RouteLists(db.segments, journeyId);
    ListsDistinct(order, db.segments, journeyId);
    SwappedLists(order, itemId, direction, db.segments, journeyId);
    var k := SwapShape(order, itemId, direction);
    SwapSends(db, next, journeyId, order, after, k, now);
    SwapServes(db, next, journeyId, order, after, k, now, time, parseable);
    BringsOne(db, next, Reorder(journeyId, after[k], SegmentById(db.segments, after[k]).value.stamp.version, k), time);
  }

  lemma ListsDistinct(order: seq<string>, segments: seq<Segment>, journeyId: string)
    requires Lists(order, segments, journeyId)
    ensures Distinct(order)
  {
    hide Owned;
  }

  lemma NothingBrings(db: JourneyData, time: string, parseable: string -> bool)
    requires Hosted(db, parseable)
    ensures Brings(ServeAll(db, SaveRequests(db, db), time), db) && |SaveRequests(db, db)| <= 1
  {
    hide Hosted, Acceptable, Trimmed, Sound, Accepted, DistinctJourneys, DistinctSegments, DistinctPacking, Ranked,
        ServeAll, Brings, SameContent,
      JourneyRequests, SegmentRequests, PackingRequests;
    HostedParts(db, parseable);
    QuietJourneys(db, db, "", "");
    QuietSegments(db, db);
    QuietPacking(db, db);
    SelfContent(db);
    BringsNothing(db, db, time);
  }

  // ---- a deletion ---

  /** The edited segments after deleting one, and the rows the server keeps for the same request. */
  function Remaining(segments: seq<Segment>, itemId: string): seq<Segment> {
    Filter(segments, (s: Segment) => s.id != itemId)
  }

  function AfterDrop(segments: seq<Segment>, journeyId: string, itemId: string): seq<Segment> {
    Renumber(Remaining(segments, itemId), IdsOf(Route(Remaining(segments, itemId), journeyId)))
  }

  lemma DropShape(segments: seq<Segment>, journeyId: string, itemId: string, i: nat) returns (a: nat)
    requires i < |AfterDrop(segments, journeyId, itemId)|
    ensures a < |segments| && AfterDrop(segments, journeyId, itemId)[i].(position := segments[a].position) ==
        segments[a] && segments[a].id != itemId
  {
    hide Route;
    a := FilterIndex(segments, (s: Segment) => s.id != itemId, i);
  }

  lemma DropKeepsOthers(segments: seq<Segment>, journeyId: string, itemId: string, a: nat)
    requires a < |segments| && segments[a].id != itemId
    ensures HasSegment(AfterDrop(segments, journeyId, itemId), segments[a].id)
  {
    hide Route;
    FilterMember(segments, (s: Segment) => s.id != itemId, segments[a]);
    var i :| 0 <= i < |Remaining(segments, itemId)| && Remaining(segments, itemId)[i] == segments[a];
    assert AfterDrop(segments, journeyId, itemId)[i].id == segments[a].id;
  }

  lemma DropGone(segments: seq<Segment>, journeyId: string, itemId: string)
    ensures !HasSegment(AfterDrop(segments, journeyId, itemId), itemId)
  {
    hide Route;
    forall i | 0 <= i < |AfterDrop(segments, journeyId, itemId)| ensures AfterDrop(segments, journeyId,
        itemId)[i].id != itemId {
      var a := DropShape(segments, journeyId, itemId, i);
    }
  }

  lemma DropDrops(db: JourneyData, next: JourneyData, journeyId: string, itemId: string)
    requires DistinctSegments(db.segments) && FindSegment(db.segments, journeyId, itemId).Some?
    requires next.segments == AfterDrop(db.segments, journeyId, itemId) && HasJourney(next.journeys, journeyId)
    ensures Flatten(SegmentDrops(db, next)) == [Request.DropSegment(journeyId, itemId)]
    ensures Flatten(SegmentWrites(db, next)) == []
  {
    hide SegmentById, SegmentWrite, HasJourney, AfterDrop, HasSegment;
    var k := FoundSegment(db.segments, journeyId, itemId);
    DropGone(db.segments, journeyId, itemId);
    forall i | 0 <= i < |db.segments| && i != k ensures SegmentDrops(db, next)[i] == [] {
      DropKeepsOthers(db.segments, journeyId, itemId, i);
    }
    FlattenOne(SegmentDrops(db, next), k);
    forall i | 0 <= i < |next.segments| ensures SegmentWrites(db, next)[i] == [] {
      var a := DropShape(db.segments, journeyId, itemId, i);
      assert next.segments[i].(position := db.segments[a].position).id == db.segments[a].id;
      UnchangedSegment(db, next.segments[i], a);
    }
    FlattenNone(SegmentWrites(db, next));
  }

  lemma DropRanked(segments: seq<Segment>, journeyId: string, itemId: string)
    requires Ranked(segments) && FindSegment(segments, journeyId, itemId).Some?
    ensures Ranked(AfterDrop(segments, journeyId, itemId))
    ensures IdsOf(Route(AfterDrop(segments, journeyId, itemId), journeyId)) == IdsOf(Route(Remaining(segments, itemId),
        journeyId))
    ensures Ranked(AfterDrop(segments, journeyId, itemId)) &&
        Lists(IdsOf(Route(Remaining(segments, itemId), journeyId)), Remaining(segments, itemId), journeyId)
  {
    hide Route, Lists, DistinctSegments, DistinctPositions, Dense, FindSegment, Renumber;
    RankedDense(segments);
    RemainingRanked(segments, journeyId, itemId);
    FilterSame(segments, (s: Segment) => s.id != itemId, (s: Segment) => s.id != itemId);
    FilteredSegments(segments, (s: Segment) => s.id != itemId);
    RouteLists(Remaining(segments, itemId), journeyId);
  }

  lemma DropElsewhere(segments: seq<Segment>, journeyId: string, itemId: string, other: string)
    requires Ranked(segments) && FindSegment(segments, journeyId, itemId).Some? && other != journeyId
    ensures IdsOf(Route(AfterDrop(segments, journeyId, itemId), other)) == IdsOf(Route(segments, other))
  {
    hide Route, Lists, DistinctSegments, DistinctPositions, Dense, FindSegment, Owned;
    var remaining := Remaining(segments, itemId);
    var order := IdsOf(Route(segments, other));
    RankedDense(segments);
    DropRanked(segments, journeyId, itemId);
    RouteLists(segments, other);
    DropLists(segments, journeyId, itemId, other, order);
    forall i | 0 <= i < |AfterDrop(segments, journeyId, itemId)| &&
        AfterDrop(segments, journeyId, itemId)[i].id in order
      ensures AfterDrop(segments, journeyId, itemId)[i].position == IndexOf(order,
          AfterDrop(segments, journeyId, itemId)[i].id)
    {
      DropPosition(segments, journeyId, itemId, other, i);
    }
    NumberedRoute(AfterDrop(segments, journeyId, itemId), order, other);
  }

  lemma DropLists(segments: seq<Segment>, journeyId: string, itemId: string, other: string, order: seq<string>)
    requires DistinctSegments(segments) && FindSegment(segments, journeyId, itemId).Some? && other != journeyId &&
        Lists(order, segments, other)
    ensures Lists(order, AfterDrop(segments, journeyId, itemId), other)
  {
    hide Route;
    var k := FoundSegment(segments, journeyId, itemId);
    var after := AfterDrop(segments, journeyId, itemId);
    OnlyThere(segments, k, itemId, other);
    OwnedWithout(segments, itemId, other);
    OwnedCount(after, Remaining(segments, itemId), other);
    hide Owned, AfterDrop;
    forall i | 0 <= i < |after| ensures after[i].id in order <==> after[i].journeyId == other {
      var a := DropShape(segments, journeyId, itemId, i);
      assert after[i].(position := segments[a].position).id == segments[a].id;
      assert after[i].(position := segments[a].position).journeyId == segments[a].journeyId;
    }
  }

  lemma DropPosition(segments: seq<Segment>, journeyId: string, itemId: string, other: string, i: nat)
    requires Ranked(segments) && FindSegment(segments, journeyId, itemId).Some? && other != journeyId
    requires i < |AfterDrop(segments, journeyId, itemId)|
    ensures var order, row := IdsOf(Route(segments, other)), AfterDrop(segments, journeyId, itemId)[i];
            row.id in order ==> row.position == IndexOf(order, row.id)
  {
    hide Route, DistinctSegments, DistinctPositions, Dense, FindSegment, Owned;
    var order := IdsOf(Route(segments, other));
    var remaining := Remaining(segments, itemId);
    var row := AfterDrop(segments, journeyId, itemId)[i];
    RankedDense(segments);
    RouteLists(segments, other);
    DropRanked(segments, journeyId, itemId);
    var a := FilterIndex(segments, (s: Segment) => s.id != itemId, i);
    assert remaining[i] == segments[a];
    if row.id in order {
      assert segments[a].journeyId == other;
      RouteIndex(segments, other, a);
    }
  }

  lemma RouteOfRemaining(segments: seq<Segment>, journeyId: string, itemId: string)
    requires DistinctSegments(segments) && FindSegment(segments, journeyId, itemId).Some?
    ensures |Route(Remaining(segments, itemId), journeyId)| <= |Route(segments, journeyId)|
  {
    RouteLength(segments, journeyId);
    RouteLength(Remaining(segments, itemId), journeyId);
    FilteredCount(segments, journeyId, itemId);
  }

  lemma {:induction false} FilteredCount(segments: seq<Segment>, journeyId: string, itemId: string)
    ensures |Owned(Remaining(segments, itemId), journeyId)| <= |Owned(segments, journeyId)|
  {
    if segments != [] {
      FilteredCount(segments[1..], journeyId, itemId);
    }
  }

  /** Either the route lost its last segment and nothing moved, or there is a first place that changed. */
  lemma {:induction false} FirstDifference(before: seq<string>, after: seq<string>, k: nat) returns (d: Option<nat>)
    requires k <= |after| <= |before| && (forall i :: 0 <= i < k ==> before[i] == after[i])
    ensures d.None? ==> forall i :: 0 <= i < |after| ==> before[i] == after[i]
    ensures d.Some? ==> d.value < |after| && before[d.value] != after[d.value] && forall i :: 0 <= i < d.value ==>
        before[i] == after[i]
    decreases |after| - k
  {
    if k == |after| {
      d := None;
    } else if before[k] != after[k] {
      d := Some(k);
    } else {
      d := FirstDifference(before, after, k + 1);
    }
  }

  lemma {:induction false} StillThere(previous: JourneyData, before: seq<Segment>, after: seq<Segment>, k: nat)
    requires k <= |after| <= |before| && (forall i :: 0 <= i < |after| ==> before[i].id == after[i].id)
    ensures Moved(previous, before, after, k).None?
    decreases |after| - k
  {
    if k < |after| {
      StillThere(previous, before, after, k + 1);
    }
  }

  lemma UnmovedReorder(db: JourneyData, next: JourneyData, journeyId: string)
    requires var before, after := IdsOf(Route(db.segments, journeyId)), IdsOf(Route(next.segments, journeyId));
             |after| <= |before| && forall i :: 0 <= i < |after| ==> before[i] == after[i]
    ensures JourneyReorder(db, next, journeyId) == []
  {
    hide Route, Moved;
    var before, after := Route(db.segments, journeyId), Route(next.segments, journeyId);
    forall i | 0 <= i < |after| ensures before[i].id == after[i].id {
      assert IdsOf(before)[i] == IdsOf(after)[i];
    }
    StillThere(db, before, after, 0);
  }

  /** What the deletion of one segment sends: the delete, and a reorder of the first segment that moved up. */
  lemma DropSends(db: JourneyData, next: JourneyData, journeyId: string, itemId: string,
      now: string) returns (d: Option<nat>)
    requires DistinctJourneys(db.journeys) && DistinctPacking(db.packing) && Ranked(db.segments) &&
        HasJourney(db.journeys, journeyId)
    requires FindSegment(db.segments, journeyId, itemId).Some?
    requires next == db.(segments := AfterDrop(db.segments, journeyId, itemId),
        journeys := Touch(db.journeys, journeyId, now))
    ensures var before, after := IdsOf(Route(db.segments, journeyId)), IdsOf(Route(next.segments, journeyId));
            && |after| <= |before|
            && match d
            case None => after == before[..|after|] &&
                SaveRequests(db, next) == [Request.DropSegment(journeyId, itemId)]
            case Some(k) =>
              && k < |after| && after[..k] == before[..k] && after[k] != before[k]
              && HasSegment(db.segments, after[k]) && SegmentById(db.segments, after[k]).Some?
              && SaveRequests(db, next) ==
                   [Request.DropSegment(journeyId, itemId),
                       Reorder(journeyId, after[k], SegmentById(db.segments, after[k]).value.stamp.version, k)]
  {
    hide DistinctJourneys, DistinctSegments, DistinctPositions, Dense, DistinctPacking, SegmentById, JourneyRequests,
        PackingRequests, Route, Touch, AfterDrop,
      JourneyReorder, Reorders, HasJourney, HasSegment, Owned, FindSegment, Lists;
    var before, after := IdsOf(Route(db.segments, journeyId)), IdsOf(Route(next.segments, journeyId));
    QuietJourneys(db, next, journeyId, now);
    QuietPacking(db, next);
    RankedDense(db.segments);
    TouchDistinct(db.journeys, journeyId, now);
    TouchHas(db.journeys, journeyId, now);
    DropDrops(db, next, journeyId, itemId);
    DropRanked(db.segments, journeyId, itemId);
    forall other | other != journeyId ensures IdsOf(Route(db.segments, other)) == IdsOf(Route(next.segments, other)) {
      DropElsewhere(db.segments, journeyId, itemId, other);
    }
    OneReorder(db, next, journeyId);
    RouteOfRemaining(db.segments, journeyId, itemId);
    d := FirstDifference(before, after, 0);
    if d.None? {
      UnmovedReorder(db, next, journeyId);
    } else {
      RankedDense(next.segments);
      RouteLists(next.segments, journeyId);
      ListsDistinct(after, next.segments, journeyId);
      DroppedKnown(db.segments, journeyId, itemId, d.value);
      ReorderAt(db, next, journeyId, d.value);
    }
  }

  lemma DroppedKnown(segments: seq<Segment>, journeyId: string, itemId: string, k: nat)
    requires k < |Route(AfterDrop(segments, journeyId, itemId), journeyId)|
    ensures HasSegment(segments, Route(AfterDrop(segments, journeyId, itemId), journeyId)[k].id)
  {
    hide Route, AfterDrop;
    var after := AfterDrop(segments, journeyId, itemId);
    RouteMember(after, journeyId, Route(after, journeyId)[k]);
    var i :| 0 <= i < |after| && after[i] == Route(after, journeyId)[k];
    var a := DropShape(segments, journeyId, itemId, i);
    assert after[i].(position := segments[a].position).id == segments[a].id;
  }

  /** What the server holds between the two requests of a deletion. */
  function Dropped(db: JourneyData, journeyId: string, itemId: string, time: string): JourneyData {
    db.(segments := AfterDrop(db.segments, journeyId, itemId), journeys := TouchRow(db.journeys, journeyId, time))
  }

  lemma DropServes(db: JourneyData, journeyId: string, itemId: string, time: string)
    requires HasJourney(db.journeys, journeyId) && FindSegment(db.segments, journeyId, itemId).Some?
    ensures Serve(db, Request.DropSegment(journeyId, itemId), time) == Ok(Dropped(db, journeyId, itemId, time))
  {
    hide Route, HasJourney, FindSegment, TouchRow;
    FilterSame(db.segments, (s: Segment) => s.id != itemId, (s: Segment) => s.id != itemId);
  }

  lemma DropAcceptable(db: JourneyData, next: JourneyData, journeyId: string, itemId: string, now: string)
    requires Acceptable(db) && next == db.(segments := AfterDrop(db.segments, journeyId, itemId),
        journeys := Touch(db.journeys, journeyId, now))
    ensures Acceptable(next)
  {
    hide AcceptsJourney, AcceptsSegment, AcceptsPacking, Acceptable, Touch, AfterDrop;
    TouchedAcceptable(db, next, journeyId, now);
    forall i | 0 <= i < |next.segments|
      ensures HasBody(db.segments, next.segments[i])
    {
      var a := DropShape(db.segments, journeyId, itemId, i);
      SameBody(next.segments[i], db.segments[a]);
    }
    SegmentsAcceptable(db, next);
  }

  lemma SameBody(a: Segment, b: Segment)
    requires a.(position := b.position) == b
    ensures SegmentBodyOf(a) == SegmentBodyOf(b) && a.id == b.id && a.journeyId == b.journeyId && a.stamp == b.stamp
  {
  }

  lemma TouchRowHas(journeys: seq<Journey>, journeyId: string, time: string)
    requires HasJourney(journeys, journeyId)
    ensures HasJourney(TouchRow(journeys, journeyId, time), journeyId)
  {
    var i :| 0 <= i < |journeys| && journeys[i].id == journeyId;
    assert TouchRow(journeys, journeyId, time)[i].id == journeyId;
  }

  /** The row found after the deletion still carries the version the client loaded. */
  lemma DroppedVersion(segments: seq<Segment>, journeyId: string, itemId: string, k: nat)
    requires Ranked(segments) && FindSegment(segments, journeyId, itemId).Some?
    requires k < |Route(AfterDrop(segments, journeyId, itemId), journeyId)|
    ensures var after := AfterDrop(segments, journeyId, itemId);
            var id := IdsOf(Route(after, journeyId))[k];
            && SegmentById(segments, id).Some? && FindSegment(after, journeyId, id).Some?
            && FindSegment(after, journeyId, id).value.stamp == SegmentById(segments, id).value.stamp
  {
    hide Route, AfterDrop, DistinctPositions, Dense;
    var after := AfterDrop(segments, journeyId, itemId);
    DropRanked(segments, journeyId, itemId);
    var row := Route(after, journeyId)[k];
    RouteMember(after, journeyId, row);
    var i :| 0 <= i < |after| && after[i] == row;
    var a := DropShape(segments, journeyId, itemId, i);
    SameBody(after[i], segments[a]);
    SegmentAt(after, i);
    SegmentAt(segments, a);
  }

  /** Moving a segment to where it already is changes no position. */
  lemma MoveToSelf(order: seq<string>, k: nat)
    requires Distinct(order) && k < |order|
    ensures MoveTo(order, order[k], k) == order
  {
    IndexUnique(order, k);
    var rest := order[..k] + order[k + 1..];
    assert rest[..k] + [order[k]] + rest[k..] == order;
  }

  lemma SelfReorder(segments: seq<Segment>, journeyId: string, moved: string, time: string)
    requires Ranked(segments)
    ensures SameSegments(Reordered(segments, IdsOf(Route(segments, journeyId)), moved, time), segments)
  {
    hide Route, DistinctSegments, DistinctPositions, Dense, Owned;
    var order := IdsOf(Route(segments, journeyId));
    RankedDense(segments);
    RouteLists(segments, journeyId);
    forall i | 0 <= i < |segments|
      ensures Reordered(segments, order, moved, time)[i].(stamp := NO_STAMP) == segments[i].(stamp := NO_STAMP)
    {
      if segments[i].id in order {
        RouteIndex(segments, journeyId, i);
      }
    }
  }

  /** The extra reorder after a deletion succeeds and changes nothing but versions and timestamps. */
  lemma ExtraReorderServes(db: JourneyData, journeyId: string, itemId: string, k: nat, time: string,
      parseable: string -> bool)
    requires Accepted(db, parseable) && Ranked(db.segments) && HasJourney(db.journeys, journeyId) &&
        FindSegment(db.segments, journeyId, itemId).Some?
    requires k < |IdsOf(Route(AfterDrop(db.segments, journeyId, itemId), journeyId))|
    requires HasSegment(db.segments, IdsOf(Route(AfterDrop(db.segments, journeyId, itemId), journeyId))[k])
    ensures var after := AfterDrop(db.segments, journeyId, itemId);
            var id := IdsOf(Route(after, journeyId))[k];
            && SegmentById(db.segments, id).Some?
            && var outcome := Serve(Dropped(db, journeyId, itemId, time),
                Reorder(journeyId, id, SegmentById(db.segments, id).value.stamp.version, k), time);
               && outcome.Ok?
               && SameSegments(outcome.value.segments, after) && outcome.value.packing == db.packing
               && outcome.value.journeys == TouchRow(TouchRow(db.journeys, journeyId, time), journeyId, time)
  {
    hide Accepted, DistinctSegments, DistinctPositions, Dense, HasJourney, HasSegment, SameSegments, TouchRow,
        FindSegment, SegmentById, Route, MoveTo, Reordered,
      AfterDrop, Owned, Lists;
    var after := AfterDrop(db.segments, journeyId, itemId);
    var order := IdsOf(Route(after, journeyId));
    DropRanked(db.segments, journeyId, itemId);
    RankedDense(after);
    RouteLists(after, journeyId);
    ListsDistinct(order, after, journeyId);
    KnownVersion(db, order[k], parseable);
    DroppedVersion(db.segments, journeyId, itemId, k);
    MoveToSelf(order, k);
    SelfReorder(after, journeyId, order[k], time);
    TouchRowHas(db.journeys, journeyId, time);
  }

  lemma TouchedTwice(journeys: seq<Journey>, journeyId: string, now: string, time: string)
    ensures SameJourneys(TouchRow(TouchRow(journeys, journeyId, time), journeyId, time),
        Touch(journeys, journeyId, now))
  {
  }

  lemma DropBringsAlone(db: JourneyData, next: JourneyData, journeyId: string, itemId: string, now: string,
      time: string)
    requires Acceptable(db) && HasJourney(db.journeys, journeyId) && FindSegment(db.segments, journeyId, itemId).Some?
    requires next == db.(segments := AfterDrop(db.segments, journeyId, itemId),
        journeys := Touch(db.journeys, journeyId, now))
    ensures Brings(Serve(db, Request.DropSegment(journeyId, itemId), time), next)
  {
    hide Acceptable, HasJourney, FindSegment, AfterDrop, Serve, Touch, TouchRow, SameSegments, SameJourneys,
        SamePacking;
    DropServes(db, journeyId, itemId, time);
    DropAcceptable(db, next, journeyId, itemId, now);
    TouchedContent(db.journeys, journeyId, now, time);
    SamePackingSelf(db.packing);
    SameSegmentsSelf(next.segments);
  }

  lemma DropBringsTwice(db: JourneyData, next: JourneyData, journeyId: string, itemId: string, k: nat, now: string,
      time: string, parseable: string -> bool)
    requires Acceptable(db) && Accepted(db, parseable) && Ranked(db.segments) && HasJourney(db.journeys, journeyId)
    requires FindSegment(db.segments, journeyId, itemId).Some?
    requires next == db.(segments := AfterDrop(db.segments, journeyId, itemId),
        journeys := Touch(db.journeys, journeyId, now))
    requires k < |IdsOf(Route(next.segments, journeyId))| &&
        HasSegment(db.segments, IdsOf(Route(next.segments, journeyId))[k])
    requires SegmentById(db.segments, IdsOf(Route(next.segments, journeyId))[k]).Some?
    requires var id := IdsOf(Route(next.segments, journeyId))[k];
             SaveRequests(db, next) == [Request.DropSegment(journeyId, itemId),
                 Reorder(journeyId, id, SegmentById(db.segments, id).value.stamp.version, k)]
    ensures Brings(ServeAll(db, SaveRequests(db, next), time), next)
  {
    hide Acceptable, Accepted, Ranked, HasJourney, HasSegment, FindSegment, AfterDrop, Serve, Touch, TouchRow,
        SameSegments, SameJourneys, SamePacking, SaveRequests, ServeAll,
      Route, SegmentById;
    var id := IdsOf(Route(next.segments, journeyId))[k];
    DropServes(db, journeyId, itemId, time);
    ExtraReorderServes(db, journeyId, itemId, k, time, parseable);
    RunTwo(db, Request.DropSegment(journeyId, itemId),
        Reorder(journeyId, id, SegmentById(db.segments, id).value.stamp.version, k), time);
    DropAcceptable(db, next, journeyId, itemId, now);
    TouchedTwice(db.journeys, journeyId, now, time);
    SamePackingSelf(db.packing);
  }

  lemma DropBrings(db: JourneyData, journeyId: string, itemId: string, now: string, time: string,
      parseable: string -> bool)
    requires Hosted(db, parseable) && HasJourney(db.journeys, journeyId) &&
        FindSegment(db.segments, journeyId, itemId).Some?
    ensures var next := db.(segments := AfterDrop(db.segments, journeyId, itemId),
        journeys := Touch(db.journeys, journeyId, now));
            Brings(ServeAll(db, SaveRequests(db, next), time), next)
  {
    hide Hosted, Acceptable, Trimmed, Sound, Accepted, DistinctJourneys, DistinctSegments, DistinctPacking, Ranked,
        HasJourney, HasSegment, Route,
      Touch, SaveRequests, ServeAll, Serve, Brings, AfterDrop, FindSegment, SegmentById;
    var next := db.(segments := AfterDrop(db.segments, journeyId, itemId), journeys := Touch(db.journeys, journeyId,
        now));
    HostedParts(db, parseable);
    var d := DropSends(db, next, journeyId, itemId, now);
    if d.None? {
      DropBringsAlone(db, next, journeyId, itemId, now, time);
      BringsOne(db, next, Request.DropSegment(journeyId, itemId), time);
    } else {
      DropBringsTwice(db, next, journeyId, itemId, d.value, now, time, parseable);
    }
  }
}
