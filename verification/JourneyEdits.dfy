/** Any sequence of edits keeps the data accepted and every route dense. */
module JourneyEdits {
  import opened Basics
  import opened JourneyDomain
  import opened JourneyService

  predicate DateInput(text: string) {
    text == "" || LocalDate(text)
  }

  /** The dates the edit carries are empty or well formed; the service itself does not look at their shape. */
  predicate DatesWellFormed(edit: Edit) {
    match edit
    case CreateJourney(input) => DateInput(input.startDate) && DateInput(input.endDate)
    case UpdateJourney(_, input) => DateInput(input.startDate) && DateInput(input.endDate)
    case SaveSegment(_, input, _) => DateInput(input.startDate) && DateInput(input.endDate)
    case _ => true
  }

  ghost predicate FreshId(data: JourneyData, id: string) {
    NonEmpty(id) && !HasJourney(data.journeys, id) && !HasSegment(data.segments, id) && !HasPacking(data.packing, id)
  }

  ghost predicate Sound(data: JourneyData, parseable: string -> bool) {
    Accepted(data, parseable) && Dense(data.segments)
  }

  // ---- lists of journeys ---

  /** Same identifiers in the same places. */
  ghost predicate SameIds(a: seq<Journey>, b: seq<Journey>) {
    |a| == |b| && forall i :: 0 <= i < |a| ==> a[i].id == b[i].id
  }

  lemma SameIdsHas(a: seq<Journey>, b: seq<Journey>, id: string)
    requires SameIds(a, b)
    ensures HasJourney(a, id) <==> HasJourney(b, id)
  {
    if HasJourney(a, id) {
      var i :| 0 <= i < |a| && a[i].id == id;
      assert b[i].id == id;
    }
    if HasJourney(b, id) {
      var i :| 0 <= i < |b| && b[i].id == id;
      assert a[i].id == id;
    }
  }

  lemma SameIdsSegments(a: seq<Journey>, b: seq<Journey>, segments: seq<Segment>, parseable: string -> bool)
    requires SameIds(a, b) && GoodSegments(segments, a, parseable)
    ensures GoodSegments(segments, b, parseable)
  {
    hide HasJourney, ValidSegment, SameIds, DistinctSegments, DistinctPositions;
    forall i | 0 <= i < |segments| ensures HasJourney(b, segments[i].journeyId) {
      SameIdsHas(a, b, segments[i].journeyId);
    }
  }

  lemma SameIdsPacking(a: seq<Journey>, b: seq<Journey>, packing: seq<PackingItem>, parseable: string -> bool)
    requires SameIds(a, b) && GoodPacking(packing, a, parseable)
    ensures GoodPacking(packing, b, parseable)
  {
    hide HasJourney, ValidPacking, SameIds, DistinctPacking;
    forall i | 0 <= i < |packing| ensures HasJourney(b, packing[i].journeyId) {
      SameIdsHas(a, b, packing[i].journeyId);
    }
  }

  lemma TouchGood(journeys: seq<Journey>, journeyId: string, now: string, parseable: string -> bool)
    requires GoodJourneys(journeys, parseable) && Timestamp(now, parseable)
    ensures GoodJourneys(Touch(journeys, journeyId, now), parseable) &&
        SameIds(journeys, Touch(journeys, journeyId, now))
  {
    hide Timestamp, NonEmpty, NullableDate, DatesInOrder;
  }

  /** Touching a journey leaves the rest of accepted data accepted. */
  lemma TouchedAccepted(data: JourneyData, segments: seq<Segment>, packing: seq<PackingItem>, journeyId: string,
      now: string, parseable: string -> bool)
    requires Accepted(data, parseable) && Timestamp(now, parseable)
    ensures var next := JourneyData(Touch(data.journeys, journeyId, now), segments, packing);
            Accepted(next, parseable) <==> GoodSegments(segments, data.journeys, parseable) && GoodPacking(packing, data.journeys, parseable)
  {
    hide Accepted, GoodJourneys, GoodSegments, GoodPacking, SameIds, Timestamp;
    var next := JourneyData(Touch(data.journeys, journeyId, now), segments, packing);
    AcceptedParts(data, parseable);
    AcceptedParts(next, parseable);
    TouchGood(data.journeys, journeyId, now, parseable);
    SameIdsBack(data.journeys, next.journeys);
    if GoodSegments(segments, data.journeys, parseable) && GoodPacking(packing, data.journeys, parseable) {
      SameIdsSegments(data.journeys, next.journeys, segments, parseable);
      SameIdsPacking(data.journeys, next.journeys, packing, parseable);
    }
    if Accepted(next, parseable) {
      SameIdsSegments(next.journeys, data.journeys, segments, parseable);
      SameIdsPacking(next.journeys, data.journeys, packing, parseable);
    }
  }

  lemma SameIdsBack(a: seq<Journey>, b: seq<Journey>)
    requires SameIds(a, b)
    ensures SameIds(b, a)
  {
  }

  lemma DatedShape(text: string)
    ensures NullableDate(Dated(text)) <==> DateInput(text)
  {
  }

  lemma DatedOrder(start: string, end: string)
    ensures DatesInOrder(Dated(start), Dated(end)) <==> !OutOfOrder(start, end)
  {
    hide Before;
  }

  // ---- journeys ---

  lemma CreatedJourney(data: JourneyData, input: JourneyInput, id: string, now: string, parseable: string -> bool)
    requires Accepted(data, parseable) && FreshId(data, id) && Timestamp(now, parseable) && ValidateJourney(input) == []
    ensures var next := Apply(data, CreateJourney(input), id, now).value;
            Accepted(next, parseable) <==> DateInput(input.startDate) && DateInput(input.endDate)
  {
    hide Before, Trim, Timestamp, LocalDate, ValidSegment, ValidPacking;
    var next := Apply(data, CreateJourney(input), id, now).value;
    var j := next.journeys[|data.journeys|];
    TrimTwice(input.name);
    DatedShape(input.startDate);
    DatedShape(input.endDate);
    DatedOrder(input.startDate, input.endDate);
    JourneyAppend(data.journeys, j);
    assert ValidJourney(j, parseable) <==> DateInput(input.startDate) && DateInput(input.endDate);
  }

  lemma RenamedJourney(data: JourneyData, journeyId: string, input: JourneyInput, id: string, now: string,
      parseable: string -> bool)
    requires Accepted(data, parseable) && Timestamp(now, parseable) && ValidateJourney(input) == [] &&
        HasJourney(data.journeys, journeyId)
    ensures var next := Apply(data, UpdateJourney(journeyId, input), id, now).value;
            Accepted(next, parseable) <==> DateInput(input.startDate) && DateInput(input.endDate)
  {
    hide Before, Trim, Timestamp, LocalDate, ValidSegment, ValidPacking;
    var next := Apply(data, UpdateJourney(journeyId, input), id, now).value;
    TrimTwice(input.name);
    DatedShape(input.startDate);
    DatedShape(input.endDate);
    DatedOrder(input.startDate, input.endDate);
    var k :| 0 <= k < |data.journeys| && data.journeys[k].id == journeyId;
    assert ValidJourney(next.journeys[k], parseable) <==> DateInput(input.startDate) && DateInput(input.endDate);
    SameIdsKept(data, next, parseable);
  }

  lemma SameIdsKept(data: JourneyData, next: JourneyData, parseable: string -> bool)
    requires Accepted(data, parseable) && SameIds(data.journeys, next.journeys)
    requires next.segments == data.segments && next.packing == data.packing
    ensures (forall i :: 0 <= i < |next.journeys| ==> ValidJourney(next.journeys[i], parseable)) <==>
        Accepted(next, parseable)
  {
    hide ValidJourney, ValidSegment, ValidPacking, HasJourney;
    forall id ensures HasJourney(next.journeys, id) <==> HasJourney(data.journeys, id) {
      SameIdsHas(data.journeys, next.journeys, id);
    }
  }

  lemma RestatedJourney(data: JourneyData, journeyId: string, status: Status, id: string, now: string,
      parseable: string -> bool)
    requires Accepted(data, parseable) && Timestamp(now, parseable) && HasJourney(data.journeys, journeyId)
    ensures Accepted(Apply(data, SetStatus(journeyId, status), id, now).value, parseable)
  {
    hide Before, NonEmpty, Timestamp, LocalDate, ValidSegment, ValidPacking;
    SameIdsKept(data, Apply(data, SetStatus(journeyId, status), id, now).value, parseable);
  }

  lemma KeptJourney(journeys: seq<Journey>, gone: string, id: string)
    requires HasJourney(journeys, id) && id != gone
    ensures HasJourney(Filter(journeys, (j: Journey) => j.id != gone), id)
  {
    var keep := (j: Journey) => j.id != gone;
    var i :| 0 <= i < |journeys| && journeys[i].id == id;
    FilterMember(journeys, keep, journeys[i]);
    var k :| 0 <= k < |Filter(journeys, keep)| && Filter(journeys, keep)[k] == journeys[i];
  }

  lemma FilteredJourneys(journeys: seq<Journey>, keep: Journey -> bool, parseable: string -> bool)
    requires GoodJourneys(journeys, parseable)
    ensures GoodJourneys(Filter(journeys, keep), parseable)
  {
    hide ValidJourney;
    var kept := Filter(journeys, keep);
    forall i | 0 <= i < |kept| ensures ValidJourney(kept[i], parseable) {
      var a := FilterIndex(journeys, keep, i);
    }
    forall i, j | 0 <= i < j < |kept| ensures kept[i].id != kept[j].id {
      var a, b := FilterOrder(journeys, keep, i, j);
    }
  }

  lemma FilteredSegments(segments: seq<Segment>, keep: Segment -> bool)
    requires DistinctSegments(segments) && DistinctPositions(segments)
    ensures DistinctSegments(Filter(segments, keep)) && DistinctPositions(Filter(segments, keep))
  {
    var kept := Filter(segments, keep);
    forall i, j | 0 <= i < j < |kept|
      ensures kept[i].id != kept[j].id && (kept[i].journeyId == kept[j].journeyId ==>
          kept[i].position != kept[j].position)
    {
      var a, b := FilterOrder(segments, keep, i, j);
    }
  }

  lemma FilteredPacking(packing: seq<PackingItem>, keep: PackingItem -> bool)
    requires DistinctPacking(packing)
    ensures DistinctPacking(Filter(packing, keep))
  {
    var kept := Filter(packing, keep);
    forall i, j | 0 <= i < j < |kept| ensures kept[i].id != kept[j].id {
      var a, b := FilterOrder(packing, keep, i, j);
    }
  }

  lemma DeletedJourney(data: JourneyData, journeyId: string, id: string, now: string, parseable: string -> bool)
    requires Accepted(data, parseable) && HasJourney(data.journeys, journeyId)
    ensures Accepted(Apply(data, DeleteJourney(journeyId), id, now).value, parseable)
  {
    hide ValidJourney, ValidSegment, ValidPacking, HasJourney, DistinctSegments, DistinctPositions, DistinctPacking,
        DistinctJourneys;
    var next := Apply(data, DeleteJourney(journeyId), id, now).value;
    var keepS, keepP := (s: Segment) => s.journeyId != journeyId, (p: PackingItem) => p.journeyId != journeyId;
    FilteredJourneys(data.journeys, (j: Journey) => j.id != journeyId, parseable);
    FilteredSegments(data.segments, keepS);
    FilteredPacking(data.packing, keepP);
    forall i | 0 <= i < |next.segments| ensures ValidSegment(next.segments[i], parseable) &&
        HasJourney(next.journeys, next.segments[i].journeyId) {
      var a := FilterIndex(data.segments, keepS, i);
      KeptJourney(data.journeys, journeyId, next.segments[i].journeyId);
    }
    forall i | 0 <= i < |next.packing| ensures ValidPacking(next.packing[i], parseable) &&
        HasJourney(next.journeys, next.packing[i].journeyId) {
      var a := FilterIndex(data.packing, keepP, i);
      KeptJourney(data.journeys, journeyId, next.packing[i].journeyId);
    }
  }

  lemma {:induction false} OwnedElsewhere(segments: seq<Segment>, gone: string, journeyId: string)
    requires journeyId != gone
    ensures Owned(Filter(segments, (s: Segment) => s.journeyId != gone), journeyId) == Owned(segments, journeyId)
  {
    if segments != [] {
      OwnedElsewhere(segments[1..], gone, journeyId);
    }
  }

  lemma DeletedDense(segments: seq<Segment>, gone: string)
    requires Dense(segments)
    ensures Dense(Filter(segments, (s: Segment) => s.journeyId != gone))
  {
    hide Owned;
    var keep := (s: Segment) => s.journeyId != gone;
    var kept := Filter(segments, keep);
    forall i | 0 <= i < |kept| ensures 0 <= kept[i].position < |Owned(kept, kept[i].journeyId)| {
      var a := FilterIndex(segments, keep, i);
      OwnedElsewhere(segments, gone, kept[i].journeyId);
    }
  }

  // ---- segments ---

  lemma {:induction false} FoundSegment(segments: seq<Segment>, journeyId: string, id: string) returns (k: nat)
    requires FindSegment(segments, journeyId, id).Some?
    ensures k < |segments| && segments[k] == FindSegment(segments, journeyId, id).value
    ensures segments[k].id == id && segments[k].journeyId == journeyId
  {
    if segments[0].id == id && segments[0].journeyId == journeyId {
      k := 0;
    } else {
      k := FoundSegment(segments[1..], journeyId, id);
      k := k + 1;
    }
  }

  lemma {:induction false} FoundPacking(packing: seq<PackingItem>, journeyId: string, id: string) returns (k: nat)
    requires FindPacking(packing, journeyId, id).Some?
    ensures k < |packing| && packing[k] == FindPacking(packing, journeyId, id).value
    ensures packing[k].id == id && packing[k].journeyId == journeyId
  {
    if packing[0].id == id && packing[0].journeyId == journeyId {
      k := 0;
    } else {
      k := FoundPacking(packing[1..], journeyId, id);
      k := k + 1;
    }
  }

  lemma TrimmedDetails(details: Details)
    ensures ValidDetails(TrimDetails(details)) <==> ValidDetails(details)
  {
    hide Trim, NonEmpty;
    match details {
      case Stay(place) => TrimTwice(place);
      case Move(origin, destination, _) =>
        TrimTwice(origin);
        TrimTwice(destination);
    }
  }

  lemma SavedSegmentValid(input: SegmentInput, journeyId: string, existing: Option<Segment>, position: nat, id: string,
      now: string, parseable: string -> bool)
    requires ValidateSegment(input) == [] && NonEmpty(id) && NonEmpty(journeyId) && Timestamp(now, parseable)
    requires existing.Some? ==> ValidSegment(existing.value, parseable)
    ensures ValidSegment(SegmentFrom(input, journeyId, existing, position, id, now), parseable) <==>
              DateInput(input.startDate) && DateInput(input.endDate)
  {
    hide NonEmpty, Before, Timestamp, LocalDate, Trim, TrimDetails;
    TrimmedDetails(input.details);
    DatedShape(input.startDate);
    DatedShape(input.endDate);
    DatedOrder(input.startDate, input.endDate);
    assert ValidDetails(input.details);
  }

  lemma OwnedAppend(segments: seq<Segment>, s: Segment, journeyId: string)
    ensures |Owned(segments + [s], journeyId)| == |Owned(segments, journeyId)| + if s.journeyId == journeyId then 1
        else 0
  {
    FilterAppend(segments, [s], (x: Segment) => x.journeyId == journeyId);
    assert Owned([s], journeyId) == if s.journeyId == journeyId then [s] else [];
  }

  lemma AppendedSegment(segments: seq<Segment>, s: Segment)
    requires DistinctSegments(segments) && DistinctPositions(segments) && Dense(segments)
    requires !HasSegment(segments, s.id) && s.position == |Owned(segments, s.journeyId)|
    ensures DistinctSegments(segments + [s]) && DistinctPositions(segments + [s]) && Dense(segments + [s])
  {
    hide Owned;
    var after := segments + [s];
    forall i | 0 <= i < |after| ensures 0 <= after[i].position < |Owned(after, after[i].journeyId)| {
      OwnedAppend(segments, s, after[i].journeyId);
    }
    forall i | 0 <= i < |segments| ensures segments[i].id != s.id &&
        (segments[i].journeyId == s.journeyId ==> segments[i].position != s.position) {
    }
  }

  lemma ReplacedSegment(segments: seq<Segment>, s: Segment, k: nat)
    requires DistinctSegments(segments) && DistinctPositions(segments) && k < |segments|
    requires s.id == segments[k].id && s.journeyId == segments[k].journeyId && s.position == segments[k].position
    ensures ReplaceSegment(segments, s) == segments[k := s]
    ensures DistinctSegments(segments[k := s]) && DistinctPositions(segments[k := s]) &&
        (Dense(segments) ==> Dense(segments[k := s]))
  {
    hide Owned;
    var after := segments[k := s];
    forall i | 0 <= i < |after| ensures |Owned(after, after[i].journeyId)| == |Owned(segments, segments[i].journeyId)| {
      OwnedCount(after, segments, after[i].journeyId);
    }
  }

  lemma RouteLength(segments: seq<Segment>, journeyId: string)
    ensures |Route(segments, journeyId)| == |Owned(segments, journeyId)|
  {
    if segments == [] {
      EmptyRoute(journeyId);
    } else {
      RouteMember(segments, journeyId, segments[0]);
    }
  }

  lemma JourneyIdValid(journeys: seq<Journey>, journeyId: string, parseable: string -> bool)
    requires GoodJourneys(journeys, parseable) && HasJourney(journeys, journeyId)
    ensures NonEmpty(journeyId)
  {
    hide NonEmpty, Before, Timestamp, LocalDate;
    var i :| 0 <= i < |journeys| && journeys[i].id == journeyId;
  }

  /** The segments a save leaves behind are in order exactly when the dates are well formed. */
  lemma SavedSegments(data: JourneyData, journeyId: string, input: SegmentInput, existing: Option<Segment>, id: string,
      now: string, parseable: string -> bool)
    requires Sound(data, parseable) && FreshId(data, id) && Timestamp(now, parseable) &&
        HasJourney(data.journeys, journeyId)
    requires ValidateSegment(input) == []
    requires existing.Some? ==> FindSegment(data.segments, journeyId, existing.value.id) == existing
    ensures var s := SegmentFrom(input, journeyId, existing, |Route(data.segments, journeyId)|, id, now);
            var segments := if existing.Some? then ReplaceSegment(data.segments, s) else data.segments + [s];
            && (GoodSegments(segments, data.journeys, parseable) <==> DateInput(input.startDate) && DateInput(input.endDate))
            && Dense(segments)
  {
    hide HasJourney, ValidSegment, ValidJourney, ValidPacking, Route, Owned, Dense, DistinctSegments, DistinctPositions,
        NonEmpty,
      HasSegment, Timestamp, DateInput, ReplaceSegment;
    var s := SegmentFrom(input, journeyId, existing, |Route(data.segments, journeyId)|, id, now);
    JourneyIdValid(data.journeys, journeyId, parseable);
    RouteLength(data.segments, journeyId);
    if existing.Some? {
      var k := FoundSegment(data.segments, journeyId, existing.value.id);
      SavedSegmentValid(input, journeyId, existing, |Route(data.segments, journeyId)|, id, now, parseable);
      ReplacedSegment(data.segments, s, k);
      var after := data.segments[k := s];
      assert after[k] == s;
    } else {
      SavedSegmentValid(input, journeyId, None, |Route(data.segments, journeyId)|, id, now, parseable);
      AppendedSegment(data.segments, s);
      var after := data.segments + [s];
      assert after[|data.segments|] == s;
    }
  }

  lemma {:induction false} OwnedWithout(segments: seq<Segment>, itemId: string, journeyId: string)
    requires forall i :: 0 <= i < |segments| && segments[i].id == itemId ==> segments[i].journeyId != journeyId
    ensures Owned(Filter(segments, (s: Segment) => s.id != itemId), journeyId) == Owned(segments, journeyId)
  {
    if segments != [] {
      OwnedWithout(segments[1..], itemId, journeyId);
    }
  }

  lemma DeletedSegments(data: JourneyData, journeyId: string, itemId: string, parseable: string -> bool)
    requires Sound(data, parseable) && FindSegment(data.segments, journeyId, itemId).Some?
    ensures var remaining := Filter(data.segments, (s: Segment) => s.id != itemId);
            var segments := Renumber(remaining, IdsOf(Route(remaining, journeyId)));
            GoodSegments(segments, data.journeys, parseable) && Dense(segments)
  {
    hide HasJourney, ValidSegment, ValidJourney, ValidPacking, Route, Owned, DistinctSegments, DistinctPositions;
    var keep := (s: Segment) => s.id != itemId;
    var remaining := Filter(data.segments, keep);
    var k := FoundSegment(data.segments, journeyId, itemId);
    FilteredSegments(data.segments, keep);
    RouteLists(remaining, journeyId);
    forall i | 0 <= i < |remaining|
      ensures ValidSegment(remaining[i], parseable) && HasJourney(data.journeys, remaining[i].journeyId)
      ensures remaining[i].journeyId != journeyId ==>
          0 <= remaining[i].position < |Owned(remaining, remaining[i].journeyId)|
    {
      var a := FilterIndex(data.segments, keep, i);
      if remaining[i].journeyId != journeyId {
        OnlyThere(data.segments, k, itemId, remaining[i].journeyId);
        OwnedWithout(data.segments, itemId, remaining[i].journeyId);
      }
    }
    RenumberDense(remaining, IdsOf(Route(remaining, journeyId)), journeyId);
    RenumberValid(remaining, IdsOf(Route(remaining, journeyId)), data.journeys, parseable);
  }

  lemma OnlyThere(segments: seq<Segment>, k: nat, itemId: string, journeyId: string)
    requires DistinctSegments(segments) && k < |segments| && segments[k].id == itemId &&
        segments[k].journeyId != journeyId
    ensures forall i :: 0 <= i < |segments| && segments[i].id == itemId ==> segments[i].journeyId != journeyId
  {
  }

  lemma SwappedLists(order: seq<string>, id: string, direction: Direction, segments: seq<Segment>, journeyId: string)
    requires Lists(order, segments, journeyId) && id in order && Swapped(order, id, direction).Some?
    ensures Lists(Swapped(order, id, direction).value, segments, journeyId)
  {
    hide Owned;
    var after := Swapped(order, id, direction).value;
    var index := IndexOf(order, id);
    var target := if direction.Up? then index - 1 else index + 1;
    forall x ensures x in after <==> x in order {
      if x in order {
        var k :| 0 <= k < |order| && order[k] == x;
        assert after[if k == index then target else if k == target then index else k] == x;
      }
    }
  }

  lemma MovedSegments(data: JourneyData, journeyId: string, itemId: string, direction: Direction,
      parseable: string -> bool)
    requires Sound(data, parseable)
    ensures var order := IdsOf(Route(data.segments, journeyId));
            itemId in order && Swapped(order, itemId, direction).Some? ==>
              var segments := Renumber(data.segments, Swapped(order, itemId, direction).value);
              GoodSegments(segments, data.journeys, parseable) && Dense(segments)
  {
    hide HasJourney, ValidSegment, ValidJourney, ValidPacking, Route, Owned, DistinctSegments, DistinctPositions,
        Swapped;
    var order := IdsOf(Route(data.segments, journeyId));
    RouteLists(data.segments, journeyId);
    if itemId in order && Swapped(order, itemId, direction).Some? {
      var reordered := Swapped(order, itemId, direction).value;
      SwappedLists(order, itemId, direction, data.segments, journeyId);
      RenumberDense(data.segments, reordered, journeyId);
      RenumberValid(data.segments, reordered, data.journeys, parseable);
    }
  }

  // ---- packing ---

  lemma SavedPacking(data: JourneyData, journeyId: string, input: PackingInput, existing: Option<PackingItem>,
      id: string, now: string, parseable: string -> bool)
    requires Accepted(data, parseable) && FreshId(data, id) && Timestamp(now, parseable) &&
        HasJourney(data.journeys, journeyId)
    requires ValidatePacking(input) == []
    requires existing.Some? ==> FindPacking(data.packing, journeyId, existing.value.id) == existing
    ensures var p := PackingFrom(input, journeyId, existing, id, now);
            GoodPacking(if existing.Some? then ReplacePacking(data.packing, p) else data.packing + [p], data.journeys,
                parseable)
  {
    hide HasJourney, ValidSegment, ValidJourney, Timestamp, Trim, DistinctSegments, DistinctPositions;
    var p := PackingFrom(input, journeyId, existing, id, now);
    JourneyIdValid(data.journeys, journeyId, parseable);
    TrimTwice(input.caption);
    if existing.Some? {
      var k := FoundPacking(data.packing, journeyId, existing.value.id);
      assert ReplacePacking(data.packing, p) == data.packing[k := p];
    } else {
      PackingAppend(data.packing, p);
    }
  }

  lemma PackedItems(data: JourneyData, itemId: string, packed: int, parseable: string -> bool)
    requires Accepted(data, parseable)
    ensures GoodPacking(Pack(data.packing, itemId, packed), data.journeys, parseable)
  {
    hide HasJourney, ValidSegment, ValidJourney, Timestamp, NonEmpty, DistinctSegments, DistinctPositions;
  }

  lemma DeletedItems(data: JourneyData, itemId: string, parseable: string -> bool)
    requires Accepted(data, parseable)
    ensures GoodPacking(Filter(data.packing, (p: PackingItem) => p.id != itemId), data.journeys, parseable)
  {
    hide HasJourney, ValidSegment, ValidJourney, ValidPacking, DistinctSegments, DistinctPositions, DistinctPacking;
    var keep := (p: PackingItem) => p.id != itemId;
    FilteredPacking(data.packing, keep);
    forall i | 0 <= i < |Filter(data.packing, keep)|
      ensures ValidPacking(Filter(data.packing, keep)[i], parseable) &&
          HasJourney(data.journeys, Filter(data.packing, keep)[i].journeyId)
    {
      var a := FilterIndex(data.packing, keep, i);
    }
  }

  // ---- every edit ---

  lemma JourneyEditKeeps(data: JourneyData, edit: Edit, id: string, now: string, parseable: string -> bool)
    requires Sound(data, parseable) && FreshId(data, id) && Timestamp(now, parseable)
    requires edit.CreateJourney? || edit.UpdateJourney? || edit.SetStatus? || edit.DeleteJourney?
    requires Apply(data, edit, id, now).Ok?
    ensures var next := Apply(data, edit, id, now).value;
            (Accepted(next, parseable) <==> DatesWellFormed(edit)) && Dense(next.segments)
  {
    hide Accepted, FreshId, Timestamp, DateInput, HasJourney, Dense, Rename, Restate;
    match edit {
      case CreateJourney(input) => CreatedJourney(data, input, id, now, parseable);
      case UpdateJourney(journeyId, input) => RenamedJourney(data, journeyId, input, id, now, parseable);
      case SetStatus(journeyId, status) => RestatedJourney(data, journeyId, status, id, now, parseable);
      case DeleteJourney(journeyId) =>
        DeletedJourney(data, journeyId, id, now, parseable);
        DeletedDense(data.segments, journeyId);
    }
  }

  lemma SegmentEditKeeps(data: JourneyData, edit: Edit, id: string, now: string, parseable: string -> bool)
    requires Sound(data, parseable) && FreshId(data, id) && Timestamp(now, parseable)
    requires edit.SaveSegment? || edit.DeleteSegment? || edit.MoveSegment?
    requires Apply(data, edit, id, now).Ok?
    ensures var next := Apply(data, edit, id, now).value;
            (Accepted(next, parseable) <==> DatesWellFormed(edit)) && Dense(next.segments)
  {
    hide Accepted, FreshId, Timestamp, DateInput, HasJourney, Dense, Touch, Renumber, ReplaceSegment, Route,
        GoodSegments, GoodPacking, Swapped, SegmentFrom,
      ValidateSegment, FindSegment;
    var next := Apply(data, edit, id, now).value;
    AcceptedParts(data, parseable);
    TouchedAccepted(data, next.segments, data.packing, edit.journeyId, now, parseable);
    match edit {
      case SaveSegment(journeyId, input, segmentId) =>
        var existing := if Given(segmentId) then FindSegment(data.segments, journeyId, segmentId.value) else None;
        FoundSame(data.segments, journeyId, segmentId);
        SavedSegments(data, journeyId, input, existing, id, now, parseable);
      case DeleteSegment(journeyId, itemId) => DeletedSegments(data, journeyId, itemId, parseable);
      case MoveSegment(journeyId, itemId, direction) => MovedSegments(data, journeyId, itemId, direction, parseable);
    }
  }

  lemma FoundSame(segments: seq<Segment>, journeyId: string, segmentId: Option<string>)
    ensures segmentId.Some? && FindSegment(segments, journeyId, segmentId.value).Some? ==>
              FindSegment(segments, journeyId, segmentId.value).value.id == segmentId.value
  {
    if segmentId.Some? && FindSegment(segments, journeyId, segmentId.value).Some? {
      var k := FoundSegment(segments, journeyId, segmentId.value);
    }
  }

  lemma PackingEditKeeps(data: JourneyData, edit: Edit, id: string, now: string, parseable: string -> bool)
    requires Sound(data, parseable) && FreshId(data, id) && Timestamp(now, parseable)
    requires edit.SavePacking? || edit.SetPacked? || edit.DeletePacking?
    requires Apply(data, edit, id, now).Ok?
    ensures Accepted(Apply(data, edit, id, now).value, parseable) && Dense(Apply(data, edit, id, now).value.segments)
  {
    hide Accepted, FreshId, Timestamp, HasJourney, Dense, Touch, ReplacePacking, GoodSegments, GoodPacking, PackingFrom,
        ValidatePacking, FindPacking, Pack;
    var next := Apply(data, edit, id, now).value;
    AcceptedParts(data, parseable);
    TouchedAccepted(data, data.segments, next.packing, edit.journeyId, now, parseable);
    match edit {
      case SavePacking(journeyId, input, packingId) =>
        if Given(packingId) && FindPacking(data.packing, journeyId, packingId.value).Some? {
          var k := FoundPacking(data.packing, journeyId, packingId.value);
        }
        SavedPacking(data, journeyId, input, if Given(packingId) then
            FindPacking(data.packing, journeyId, packingId.value) else None, id, now, parseable);
      case SetPacked(journeyId, itemId, packed) => PackedItems(data, itemId, packed, parseable);
      case DeletePacking(journeyId, itemId) => DeletedItems(data, itemId, parseable);
    }
  }

  /** A successful edit of accepted, dense data leaves every route dense, and leaves accepted data exactly when
      the dates it brought in are well formed. */
  lemma EditKeeps(data: JourneyData, edit: Edit, id: string, now: string, parseable: string -> bool)
    requires Sound(data, parseable) && FreshId(data, id) && Timestamp(now, parseable) && Apply(data, edit, id, now).Ok?
    ensures var next := Apply(data, edit, id, now).value;
            (Accepted(next, parseable) <==> DatesWellFormed(edit)) && Dense(next.segments)
  {
    hide Accepted, Apply, FreshId, Timestamp, Dense;
    if edit.CreateJourney? || edit.UpdateJourney? || edit.SetStatus? || edit.DeleteJourney? {
      JourneyEditKeeps(data, edit, id, now, parseable);
    } else if edit.SaveSegment? || edit.DeleteSegment? || edit.MoveSegment? {
      SegmentEditKeeps(data, edit, id, now, parseable);
    } else {
      PackingEditKeeps(data, edit, id, now, parseable);
    }
  }

  datatype Call = Call(edit: Edit, id: string, now: string)

  /** A refused edit leaves the data as it was. */
  function ApplyAll(data: JourneyData, calls: seq<Call>): JourneyData
    decreases |calls|
  {
    if calls == [] then data
    else
      match Apply(data, calls[0].edit, calls[0].id, calls[0].now)
      case Err(_) => ApplyAll(data, calls[1..])
      case Ok(next) => ApplyAll(next, calls[1..])
  }

  ghost predicate WellBehaved(data: JourneyData, calls: seq<Call>, parseable: string -> bool)
    decreases |calls|
  {
    calls == [] ||
      (&& FreshId(data, calls[0].id) && Timestamp(calls[0].now, parseable) && DatesWellFormed(calls[0].edit)
       && match Apply(data, calls[0].edit, calls[0].id, calls[0].now)
          case Err(_) => WellBehaved(data, calls[1..], parseable)
          case Ok(next) => WellBehaved(next, calls[1..], parseable))
  }

  /** From accepted, dense data every sequence of edits, successful or refused, gives accepted, dense data:
      identifiers unique, references intact, packed quantities within bounds. */
  lemma {:induction false} EverySequenceKeeps(data: JourneyData, calls: seq<Call>, parseable: string -> bool)
    requires Sound(data, parseable) && WellBehaved(data, calls, parseable)
    ensures Sound(ApplyAll(data, calls), parseable)
    decreases |calls|
  {
    hide Accepted, Dense, Apply, FreshId, Timestamp, DatesWellFormed;
    if calls != [] {
      match Apply(data, calls[0].edit, calls[0].id, calls[0].now) {
        case Err(_) => EverySequenceKeeps(data, calls[1..], parseable);
        case Ok(next) =>
          EditKeeps(data, calls[0].edit, calls[0].id, calls[0].now, parseable);
          EverySequenceKeeps(next, calls[1..], parseable);
      }
    }
  }
}
