/** The web application's edits: each returns new data, and every sequence of them keeps the data accepted
    and each route numbered from zero without gaps. */
module JourneyService {
  import opened Basics
  import opened JourneyDomain

  datatype ValidationCode = NameRequired | DateOrder | PlaceRequired | RouteRequired | LabelRequired | QuantityInvalid

  datatype ServiceError = Invalid(codes: seq<ValidationCode>) | JourneyNotFound | ItemNotFound

  datatype JourneyInput = JourneyInput(name: string, startDate: string, endDate: string)

  datatype SegmentInput = SegmentInput(details: Details, startDate: string, endDate: string, notes: string)

  /** None is a quantity that is not an integer. */
  datatype PackingInput = PackingInput(caption: string, category: Category, quantity: Option<int>, essential: bool)

  datatype Direction = Up | Down

  datatype Edit =
    | CreateJourney(journey: JourneyInput)
    | UpdateJourney(journeyId: string, journey: JourneyInput)
    | SetStatus(journeyId: string, status: Status)
    | DeleteJourney(journeyId: string)
    | SaveSegment(journeyId: string, segment: SegmentInput, segmentId: Option<string>)
    | DeleteSegment(journeyId: string, itemId: string)
    | MoveSegment(journeyId: string, itemId: string, direction: Direction)
    | SavePacking(journeyId: string, packing: PackingInput, packingId: Option<string>)
    | SetPacked(journeyId: string, itemId: string, packed: int)
    | DeletePacking(journeyId: string, itemId: string)

  // ---- validation ---

  function If(condition: bool, code: ValidationCode): seq<ValidationCode> {
    if condition then [code] else []
  }

  predicate OutOfOrder(start: string, end: string) {
    start != "" && end != "" && Before(end, start)
  }

  function ValidateJourney(input: JourneyInput): seq<ValidationCode> {
    If(!NonEmpty(input.name), NameRequired) + If(OutOfOrder(input.startDate, input.endDate), DateOrder)
  }

  function ValidateSegment(input: SegmentInput): seq<ValidationCode> {
    If(OutOfOrder(input.startDate, input.endDate), DateOrder) +
    If(input.details.Stay? && !NonEmpty(input.details.placeName), PlaceRequired) +
    If(input.details.Move? && (!NonEmpty(input.details.originName) || !NonEmpty(input.details.destinationName)),
        RouteRequired)
  }

  function ValidatePacking(input: PackingInput): seq<ValidationCode> {
    If(!NonEmpty(input.caption), LabelRequired) +
    If(input.quantity.None? || input.quantity.value < 1 || input.quantity.value > 99, QuantityInvalid)
  }

  // ---- routes ---

  function Owned(segments: seq<Segment>, journeyId: string): seq<Segment> {
    Filter(segments, (s: Segment) => s.journeyId == journeyId)
  }

  /** A stable insertion, which is what sorting by position amounts to. */
  function InsertByPosition(items: seq<Segment>, item: Segment): seq<Segment> {
    if items == [] || items[|items| - 1].position <= item.position then items + [item]
    else InsertByPosition(items[..|items| - 1], item) + [items[|items| - 1]]
  }

  function SortByPosition(items: seq<Segment>): seq<Segment> {
    if items == [] then [] else InsertByPosition(SortByPosition(items[..|items| - 1]), items[|items| - 1])
  }

  /** segmentsForJourney. */
  function Route(segments: seq<Segment>, journeyId: string): seq<Segment> {
    SortByPosition(Owned(segments, journeyId))
  }

  function IdsOf(segments: seq<Segment>): seq<string> {
    seq(|segments|, i requires 0 <= i < |segments| => segments[i].id)
  }

  /** Gives every listed segment its index in the list as position, and leaves the others alone. */
  function Renumber(segments: seq<Segment>, order: seq<string>): seq<Segment> {
    seq(|segments|, i requires 0 <= i < |segments| =>
      if segments[i].id in order then segments[i].(position := IndexOf(order, segments[i].id)) else segments[i])
  }

  // ---- the edits ---

  function Dated(text: string): Option<string> {
    if text == "" then None else Some(text)
  }

  function TrimDetails(details: Details): Details {
    match details
    case Stay(place) => Stay(Trim(place))
    case Move(origin, destination, transport) => Move(Trim(origin), Trim(destination), Trim(transport))
  }

  function Touch(journeys: seq<Journey>, journeyId: string, now: string): seq<Journey> {
    seq(|journeys|, i requires 0 <= i < |journeys| =>
      if journeys[i].id == journeyId then journeys[i].(stamp := journeys[i].stamp.(updatedAt := now)) else journeys[i])
  }

  function Rename(journeys: seq<Journey>, journeyId: string, input: JourneyInput, now: string): seq<Journey> {
    seq(|journeys|, i requires 0 <= i < |journeys| =>
      if journeys[i].id == journeyId then
        journeys[i].(name := Trim(input.name), startDate := Dated(input.startDate), endDate := Dated(input.endDate),
                     stamp := journeys[i].stamp.(updatedAt := now))
      else journeys[i])
  }

  function Restate(journeys: seq<Journey>, journeyId: string, status: Status, now: string): seq<Journey> {
    seq(|journeys|, i requires 0 <= i < |journeys| =>
      if journeys[i].id == journeyId then journeys[i].(status := status, stamp := journeys[i].stamp.(updatedAt := now))
          else journeys[i])
  }

  function ReplaceSegment(segments: seq<Segment>, segment: Segment): seq<Segment> {
    seq(|segments|, i requires 0 <= i < |segments| => if segments[i].id == segment.id then segment else segments[i])
  }

  function ReplacePacking(packing: seq<PackingItem>, item: PackingItem): seq<PackingItem> {
    seq(|packing|, i requires 0 <= i < |packing| => if packing[i].id == item.id then item else packing[i])
  }

  function Pack(packing: seq<PackingItem>, id: string, packed: int): seq<PackingItem> {
    seq(|packing|, i requires 0 <= i < |packing| =>
      if packing[i].id == id then packing[i].(packed := Max(0, Min(packing[i].quantity, packed))) else packing[i])
  }

  function FindSegment(segments: seq<Segment>, journeyId: string, id: string): Option<Segment> {
    if segments == [] then None
    else if segments[0].id == id && segments[0].journeyId == journeyId then Some(segments[0])
    else FindSegment(segments[1..], journeyId, id)
  }

  function FindPacking(packing: seq<PackingItem>, journeyId: string, id: string): Option<PackingItem> {
    if packing == [] then None
    else if packing[0].id == id && packing[0].journeyId == journeyId then Some(packing[0])
    else FindPacking(packing[1..], journeyId, id)
  }

  function SegmentFrom(input: SegmentInput, journeyId: string, existing: Option<Segment>, position: nat, id: string,
      now: string): Segment {
    match existing
    case None =>
      Segment(id, journeyId, position, Dated(input.startDate), Dated(input.endDate), Trim(input.notes),
          TrimDetails(input.details), Stamp(1, now, now))
    case Some(s) =>
      Segment(s.id, journeyId, s.position, Dated(input.startDate), Dated(input.endDate), Trim(input.notes),
          TrimDetails(input.details),
        s.stamp.(updatedAt := now))
  }

  function PackingFrom(input: PackingInput, journeyId: string, existing: Option<PackingItem>, id: string,
      now: string): PackingItem
    requires input.quantity.Some?
  {
    var quantity := input.quantity.value;
    match existing
    case None => PackingItem(id, journeyId, Trim(input.caption), input.category, quantity, Min(0, quantity),
        input.essential, Stamp(1, now, now))
    case Some(p) =>
      PackingItem(p.id, journeyId, Trim(input.caption), input.category, quantity, Min(p.packed, quantity),
          input.essential,
        p.stamp.(updatedAt := now))
  }

  /** An empty identifier counts as none. */
  predicate Given(id: Option<string>) {
    id.Some? && id.value != ""
  }

  /** The order after moving one step, or None when the segment is already at that end. */
  function Swapped(order: seq<string>, id: string, direction: Direction): Option<seq<string>>
    requires id in order
  {
    var index := IndexOf(order, id);
    var target := if direction.Up? then index - 1 else index + 1;
    if target < 0 || target >= |order| then None else Some(order[index := order[target]][target := id])
  }

  function ApplyJourneyEdit(data: JourneyData, edit: Edit, id: string, now: string): Result<JourneyData, ServiceError>
    requires edit.CreateJourney? || edit.UpdateJourney? || edit.SetStatus? || edit.DeleteJourney?
  {
    match edit
    case CreateJourney(input) =>
      if ValidateJourney(input) != [] then Err(Invalid(ValidateJourney(input)))
      else Ok(data.(journeys := data.journeys +
        [Journey(id, Trim(input.name), Dated(input.startDate), Dated(input.endDate), Planning, Stamp(1, now, now))]))
    case UpdateJourney(journeyId, input) =>
      if !HasJourney(data.journeys, journeyId) then Err(JourneyNotFound)
      else if ValidateJourney(input) != [] then Err(Invalid(ValidateJourney(input)))
      else Ok(data.(journeys := Rename(data.journeys, journeyId, input, now)))
    case SetStatus(journeyId, status) =>
      if !HasJourney(data.journeys, journeyId) then Err(JourneyNotFound)
      else Ok(data.(journeys := Restate(data.journeys, journeyId, status, now)))
    case DeleteJourney(journeyId) =>
      if !HasJourney(data.journeys, journeyId) then Err(JourneyNotFound)
      else Ok(JourneyData(
        Filter(data.journeys, (j: Journey) => j.id != journeyId),
        Filter(data.segments, (s: Segment) => s.journeyId != journeyId),
        Filter(data.packing, (p: PackingItem) => p.journeyId != journeyId)))
  }

  function ApplySegmentEdit(data: JourneyData, edit: Edit, id: string, now: string): Result<JourneyData, ServiceError>
    requires edit.SaveSegment? || edit.DeleteSegment? || edit.MoveSegment?
  {
    if !HasJourney(data.journeys, edit.journeyId) then Err(JourneyNotFound)
    else
      match edit
      case SaveSegment(journeyId, input, segmentId) => (
        var existing := if Given(segmentId) then FindSegment(data.segments, journeyId, segmentId.value) else None;
        if ValidateSegment(input) != [] then Err(Invalid(ValidateSegment(input)))
        else if Given(segmentId) && existing.None? then Err(ItemNotFound)
        else
          var segment := SegmentFrom(input, journeyId, existing, |Route(data.segments, journeyId)|, id, now);
          Ok(data.(segments := if existing.Some? then ReplaceSegment(data.segments, segment)
              else data.segments + [segment],
                   journeys := Touch(data.journeys, journeyId, now))))
      case DeleteSegment(journeyId, itemId) => (
        if FindSegment(data.segments, journeyId, itemId).None? then Err(ItemNotFound)
        else
          var remaining := Filter(data.segments, (s: Segment) => s.id != itemId);
          Ok(data.(segments := Renumber(remaining, IdsOf(Route(remaining, journeyId))),
              journeys := Touch(data.journeys, journeyId, now))))
      case MoveSegment(journeyId, itemId, direction) =>
        var order := IdsOf(Route(data.segments, journeyId));
        if itemId !in order then Err(ItemNotFound)
        else
          match Swapped(order, itemId, direction)
          case None => Ok(data)
          case Some(reordered) =>
            Ok(data.(segments := Renumber(data.segments, reordered), journeys := Touch(data.journeys, journeyId, now)))
  }

  function ApplyPackingEdit(data: JourneyData, edit: Edit, id: string, now: string): Result<JourneyData, ServiceError>
    requires edit.SavePacking? || edit.SetPacked? || edit.DeletePacking?
  {
    if !HasJourney(data.journeys, edit.journeyId) then Err(JourneyNotFound)
    else
      match edit
      case SavePacking(journeyId, input, packingId) => (
        var existing := if Given(packingId) then FindPacking(data.packing, journeyId, packingId.value) else None;
        if ValidatePacking(input) != [] then Err(Invalid(ValidatePacking(input)))
        else if Given(packingId) && existing.None? then Err(ItemNotFound)
        else
          var item := PackingFrom(input, journeyId, existing, id, now);
          Ok(data.(packing := if existing.Some? then ReplacePacking(data.packing, item) else data.packing + [item],
                   journeys := Touch(data.journeys, journeyId, now))))
      case SetPacked(journeyId, itemId, packed) =>
        if FindPacking(data.packing, journeyId, itemId).None? then Err(ItemNotFound)
        else Ok(data.(packing := Pack(data.packing, itemId, packed), journeys := Touch(data.journeys, journeyId, now)))
      case DeletePacking(journeyId, itemId) =>
        if FindPacking(data.packing, journeyId, itemId).None? then Err(ItemNotFound)
        else
          Ok(data.(packing := Filter(data.packing, (p: PackingItem) => p.id != itemId),
              journeys := Touch(data.journeys, journeyId, now)))
  }

  /** One edit; `id` and `now` are what the runtime hands out. */
  function Apply(data: JourneyData, edit: Edit, id: string, now: string): Result<JourneyData, ServiceError> {
    if edit.CreateJourney? || edit.UpdateJourney? || edit.SetStatus? || edit.DeleteJourney? then
        ApplyJourneyEdit(data, edit, id, now)
    else if edit.SaveSegment? || edit.DeleteSegment? || edit.MoveSegment? then ApplySegmentEdit(data, edit, id, now)
    else ApplyPackingEdit(data, edit, id, now)
  }

  // ---- sorting keeps the segments ---

  lemma {:induction false} InsertMember(items: seq<Segment>, item: Segment, x: Segment)
    ensures x in InsertByPosition(items, item) <==> x in items || x == item
    ensures |InsertByPosition(items, item)| == |items| + 1
  {
    if !(items == [] || items[|items| - 1].position <= item.position) {
      InsertMember(items[..|items| - 1], item, x);
      assert items == items[..|items| - 1] + [items[|items| - 1]];
    }
  }

  lemma {:induction false} SortMember(items: seq<Segment>, x: Segment)
    ensures x in SortByPosition(items) <==> x in items
    ensures |SortByPosition(items)| == |items|
  {
    if items != [] {
      SortMember(items[..|items| - 1], x);
      InsertMember(SortByPosition(items[..|items| - 1]), items[|items| - 1], x);
      assert items == items[..|items| - 1] + [items[|items| - 1]];
    }
  }

  ghost predicate Increasing(items: seq<Segment>) {
    forall i, j :: 0 <= i < j < |items| ==> items[i].position < items[j].position
  }

  lemma {:induction false} InsertIncreasing(items: seq<Segment>, item: Segment)
    requires Increasing(items) && (forall i :: 0 <= i < |items| ==> items[i].position != item.position)
    ensures Increasing(InsertByPosition(items, item))
  {
    if !(items == [] || items[|items| - 1].position <= item.position) {
      var rest, last := items[..|items| - 1], items[|items| - 1];
      InsertIncreasing(rest, item);
      var merged := InsertByPosition(rest, item);
      forall i | 0 <= i < |merged| ensures merged[i].position < last.position {
        InsertMember(rest, item, merged[i]);
      }
    }
  }

  lemma {:induction false} SortIncreasing(items: seq<Segment>)
    requires forall i, j :: 0 <= i < j < |items| ==> items[i].position != items[j].position
    ensures Increasing(SortByPosition(items))
  {
    if items != [] {
      var rest, last := items[..|items| - 1], items[|items| - 1];
      SortIncreasing(rest);
      var sorted := SortByPosition(rest);
      forall i | 0 <= i < |sorted| ensures sorted[i].position != last.position {
        SortMember(rest, sorted[i]);
        var k :| 0 <= k < |rest| && rest[k] == sorted[i];
      }
      InsertIncreasing(sorted, last);
    }
  }

  lemma OwnedMember(segments: seq<Segment>, journeyId: string, x: Segment)
    ensures x in Owned(segments, journeyId) <==> x in segments && x.journeyId == journeyId
  {
    FilterMember(segments, (s: Segment) => s.journeyId == journeyId, x);
  }

  lemma RouteMember(segments: seq<Segment>, journeyId: string, x: Segment)
    ensures x in Route(segments, journeyId) <==> x in segments && x.journeyId == journeyId
    ensures |Route(segments, journeyId)| == |Owned(segments, journeyId)|
  {
    SortMember(Owned(segments, journeyId), x);
    OwnedMember(segments, journeyId, x);
  }

  lemma OwnedPositions(segments: seq<Segment>, journeyId: string, i: nat, j: nat)
    requires DistinctPositions(segments) && i < j < |Owned(segments, journeyId)|
    ensures Owned(segments, journeyId)[i].position != Owned(segments, journeyId)[j].position
  {
    var keep := (s: Segment) => s.journeyId == journeyId;
    var a, b := FilterOrder(segments, keep, i, j);
    var owned := Owned(segments, journeyId);
    OwnedMember(segments, journeyId, owned[i]);
    OwnedMember(segments, journeyId, owned[j]);
  }

  /** A route lists its segments in strictly increasing position. */
  lemma RouteIncreasing(segments: seq<Segment>, journeyId: string)
    requires DistinctPositions(segments)
    ensures Increasing(Route(segments, journeyId))
  {
    hide DistinctPositions;
    var owned := Owned(segments, journeyId);
    forall i, j | 0 <= i < j < |owned| ensures owned[i].position != owned[j].position {
      OwnedPositions(segments, journeyId, i, j);
    }
    SortIncreasing(owned);
  }

  /** The order lists each segment of the journey exactly once. */
  ghost predicate Lists(order: seq<string>, segments: seq<Segment>, journeyId: string) {
    && Distinct(order) && |order| == |Owned(segments, journeyId)|
    && (forall i :: 0 <= i < |segments| ==> (segments[i].id in order <==> segments[i].journeyId == journeyId))
  }

  lemma SameSegment(segments: seq<Segment>, x: Segment, y: Segment)
    requires DistinctSegments(segments) && x in segments && y in segments && x.id == y.id
    ensures x == y
  {
    var i :| 0 <= i < |segments| && segments[i] == x;
    var j :| 0 <= j < |segments| && segments[j] == y;
  }

  lemma RouteLists(segments: seq<Segment>, journeyId: string)
    requires DistinctSegments(segments) && DistinctPositions(segments)
    ensures Lists(IdsOf(Route(segments, journeyId)), segments, journeyId)
  {
    hide DistinctSegments, DistinctPositions, Route, Owned;
    var route := Route(segments, journeyId);
    var order := IdsOf(route);
    RouteIncreasing(segments, journeyId);
    forall i, j | 0 <= i < j < |order| ensures order[i] != order[j] {
      RouteMember(segments, journeyId, route[i]);
      RouteMember(segments, journeyId, route[j]);
      if order[i] == order[j] {
        SameSegment(segments, route[i], route[j]);
      }
    }
    forall i | 0 <= i < |segments| ensures segments[i].id in order <==> segments[i].journeyId == journeyId {
      RouteMember(segments, journeyId, segments[i]);
      if segments[i].journeyId == journeyId {
        var k :| 0 <= k < |route| && route[k] == segments[i];
        assert order[k] == segments[i].id;
      } else if segments[i].id in order {
        var k :| 0 <= k < |order| && order[k] == segments[i].id;
        RouteMember(segments, journeyId, route[k]);
        SameSegment(segments, route[k], segments[i]);
      }
    }
    assert |order| == |Owned(segments, journeyId)| by {
      if segments != [] { RouteMember(segments, journeyId, segments[0]); } else { EmptyRoute(journeyId); }
    }
  }

  lemma EmptyRoute(journeyId: string)
    ensures Route([], journeyId) == [] && Owned([], journeyId) == []
  {
  }

  // ---- dense routes ---

  /** Every position is below the number of segments of its journey; with distinct positions, that makes
      each route exactly 0, 1, ..., n - 1. */
  ghost predicate Dense(segments: seq<Segment>) {
    forall i :: 0 <= i < |segments| ==> 0 <= segments[i].position < |Owned(segments, segments[i].journeyId)|
  }

  lemma {:induction false} IncreasingBelow(items: seq<Segment>, k: nat, n: nat)
    requires Increasing(items) && k < |items| && n == |items|
    requires forall i :: 0 <= i < |items| ==> 0 <= items[i].position < n
    ensures items[k].position >= k
    decreases k
  {
    if k > 0 {
      IncreasingBelow(items, k - 1, n);
    }
  }

  lemma {:induction false} IncreasingAbove(items: seq<Segment>, k: nat, n: nat)
    requires Increasing(items) && k < |items| && n == |items|
    requires forall i :: 0 <= i < |items| ==> 0 <= items[i].position < n
    ensures items[k].position <= k
    decreases n - k
  {
    if k < n - 1 {
      IncreasingAbove(items, k + 1, n);
    }
  }

  /** On dense data the k-th segment of a route has position k. */
  lemma DenseRoute(segments: seq<Segment>, journeyId: string, k: nat)
    requires DistinctPositions(segments) && Dense(segments) && k < |Route(segments, journeyId)|
    ensures Route(segments, journeyId)[k].position == k
  {
    hide DistinctPositions, Route, Owned;
    var route := Route(segments, journeyId);
    RouteIncreasing(segments, journeyId);
    forall i | 0 <= i < |route| ensures 0 <= route[i].position < |route| {
      RouteMember(segments, journeyId, route[i]);
      var j :| 0 <= j < |segments| && segments[j] == route[i];
    }
    IncreasingBelow(route, k, |route|);
    IncreasingAbove(route, k, |route|);
  }

  lemma {:induction false} OwnedCount(segments: seq<Segment>, others: seq<Segment>, journeyId: string)
    requires |segments| == |others| && (forall i :: 0 <= i < |segments| ==>
        segments[i].journeyId == others[i].journeyId)
    ensures |Owned(segments, journeyId)| == |Owned(others, journeyId)|
  {
    if segments != [] {
      assert forall i :: 0 <= i < |segments[1..]| ==> segments[1..][i].journeyId == others[1..][i].journeyId;
      OwnedCount(segments[1..], others[1..], journeyId);
    }
  }

  /** Renumbering by a complete list makes that route dense and touches no other. */
  lemma RenumberDense(segments: seq<Segment>, order: seq<string>, journeyId: string)
    requires DistinctSegments(segments) && DistinctPositions(segments) && Lists(order, segments, journeyId)
    requires forall i :: 0 <= i < |segments| && segments[i].journeyId != journeyId ==>
               0 <= segments[i].position < |Owned(segments, segments[i].journeyId)|
    ensures DistinctPositions(Renumber(segments, order)) && Dense(Renumber(segments, order))
    ensures DistinctSegments(Renumber(segments, order))
  {
    var after := Renumber(segments, order);
    forall i | 0 <= i < |after| ensures 0 <= after[i].position < |Owned(after, after[i].journeyId)| {
      OwnedCount(after, segments, after[i].journeyId);
    }
    forall i, j | 0 <= i < j < |after| && after[i].journeyId ==
        after[j].journeyId ensures after[i].position != after[j].position {
      if segments[i].journeyId == journeyId {
        assert order[IndexOf(order, segments[i].id)] == segments[i].id;
        assert order[IndexOf(order, segments[j].id)] == segments[j].id;
      }
    }
  }

  lemma RenumberValid(segments: seq<Segment>, order: seq<string>, journeys: seq<Journey>, parseable: string -> bool)
    requires forall i :: 0 <= i < |segments| ==> ValidSegment(segments[i], parseable) && HasJourney(journeys, segments[i].journeyId)
    ensures forall i :: 0 <= i < |segments| ==>
              ValidSegment(Renumber(segments, order)[i], parseable) &&
                  HasJourney(journeys, Renumber(segments, order)[i].journeyId)
  {
    hide HasJourney, NonEmpty, DatesInOrder, NullableDate, ValidDetails, ValidStamp;
  }
}
