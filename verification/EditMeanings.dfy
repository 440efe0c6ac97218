/** What each edit of the journey service does to the rows, field by field, and when it is refused. */
module EditMeanings {
  import opened Basics
  import opened JourneyDomain
  import opened JourneyService
  import opened JourneyEdits
  import opened JourneyTables
  import opened JourneyRuns
  import opened RouteRefinement

  // ---- what most edits share ---

  /** The edited journey carries the time of the edit; nothing else of any journey changes. */
  ghost predicate Stamped(before: seq<Journey>, after: seq<Journey>, journeyId: string, now: string) {
    && |after| == |before|
    && forall i :: 0 <= i < |before| ==>
         after[i] == if before[i].id == journeyId then before[i].(stamp := before[i].stamp.(updatedAt := now))
                     else before[i]
  }

  /** Only the k-th row differs. */
  ghost predicate OnlyRow<T>(before: seq<T>, after: seq<T>, k: nat) {
    && k < |before| == |after|
    && forall i :: 0 <= i < |before| && i != k ==> after[i] == before[i]
  }

  /** Filtering out one row keeps all others in place. */
  lemma {:induction false} WithoutRow<T>(s: seq<T>, keep: T -> bool, k: nat)
    requires k < |s| && forall i :: 0 <= i < |s| ==> (keep(s[i]) <==> i != k)
    ensures Filter(s, keep) == s[..k] + s[k + 1..]
  {
    if k == 0 {
      AllRows(s[1..], keep);
    } else {
      WithoutRow(s[1..], keep, k - 1);
      assert s[..k] + s[k + 1..] == [s[0]] + (s[1..][..k - 1] + s[1..][k..]);
    }
  }

  lemma {:induction false} AllRows<T>(s: seq<T>, keep: T -> bool)
    requires forall i :: 0 <= i < |s| ==> keep(s[i])
    ensures Filter(s, keep) == s
  {
    if s != [] {
      AllRows(s[1..], keep);
    }
  }

  lemma {:induction false} FindSegmentExactly(segments: seq<Segment>, journeyId: string, id: string)
    ensures FindSegment(segments, journeyId, id).Some? <==>
        exists i :: 0 <= i < |segments| && segments[i].id == id && segments[i].journeyId == journeyId
  {
    if segments != [] {
      FindSegmentExactly(segments[1..], journeyId, id);
      if i :| 1 <= i < |segments| && segments[i].id == id && segments[i].journeyId == journeyId {
        assert segments[1..][i - 1] == segments[i];
      }
    }
  }

  lemma {:induction false} FindPackingExactly(packing: seq<PackingItem>, journeyId: string, id: string)
    ensures FindPacking(packing, journeyId, id).Some? <==>
        exists i :: 0 <= i < |packing| && packing[i].id == id && packing[i].journeyId == journeyId
  {
    if packing != [] {
      FindPackingExactly(packing[1..], journeyId, id);
      if i :| 1 <= i < |packing| && packing[i].id == id && packing[i].journeyId == journeyId {
        assert packing[1..][i - 1] == packing[i];
      }
    }
  }

  // ---- when an edit is refused ---

  /** The text of the edit is in order: names and places not blank, no end before its start, quantities of 1 to 99. */
  predicate InOrder(edit: Edit) {
    match edit
    case CreateJourney(input) => Trim(input.name) != "" && InDateOrder(input.startDate, input.endDate)
    case UpdateJourney(_, input) => Trim(input.name) != "" && InDateOrder(input.startDate, input.endDate)
    case SaveSegment(_, input, _) =>
      && InDateOrder(input.startDate, input.endDate)
      && (match input.details
          case Stay(place) => Trim(place) != ""
          case Move(origin, destination, _) => Trim(origin) != "" && Trim(destination) != "")
    case SavePacking(_, input, _) =>
      Trim(input.caption) != "" && input.quantity.Some? && 1 <= input.quantity.value <= 99
    case _ => true
  }

  predicate InDateOrder(start: string, end: string) {
    start == "" || end == "" || !Before(end, start)
  }

  /** The item an edit names belongs to the journey it names. */
  ghost predicate Names(data: JourneyData, edit: Edit) {
    match edit
    case SaveSegment(journeyId, _, segmentId) =>
      segmentId.Some? && segmentId.value != "" ==> HasRow(data.segments, journeyId, segmentId.value)
    case DeleteSegment(journeyId, itemId) => HasRow(data.segments, journeyId, itemId)
    case MoveSegment(journeyId, itemId, _) => HasRow(data.segments, journeyId, itemId)
    case SavePacking(journeyId, _, packingId) =>
      packingId.Some? && packingId.value != "" ==> HasItem(data.packing, journeyId, packingId.value)
    case SetPacked(journeyId, itemId, _) => HasItem(data.packing, journeyId, itemId)
    case DeletePacking(journeyId, itemId) => HasItem(data.packing, journeyId, itemId)
    case _ => true
  }

  ghost predicate HasRow(segments: seq<Segment>, journeyId: string, id: string) {
    exists i :: 0 <= i < |segments| && segments[i].id == id && segments[i].journeyId == journeyId
  }

  ghost predicate HasItem(packing: seq<PackingItem>, journeyId: string, id: string) {
    exists i :: 0 <= i < |packing| && packing[i].id == id && packing[i].journeyId == journeyId
  }

  /** What is wrong with the text of an edit. */
  predicate Faulty(edit: Edit, code: ValidationCode) {
    match edit
    case CreateJourney(input) => FaultyJourney(input, code)
    case UpdateJourney(_, input) => FaultyJourney(input, code)
    case SaveSegment(_, input, _) => (
      match code
      case DateOrder => !InDateOrder(input.startDate, input.endDate)
      case PlaceRequired => input.details.Stay? && Trim(input.details.placeName) == ""
      case RouteRequired =>
        input.details.Move? && (Trim(input.details.originName) == "" || Trim(input.details.destinationName) == "")
      case _ => false)
    case SavePacking(_, input, _) => (
      match code
      case LabelRequired => Trim(input.caption) == ""
      case QuantityInvalid => input.quantity.None? || input.quantity.value < 1 || input.quantity.value > 99
      case _ => false)
    case _ => false
  }

  predicate FaultyJourney(input: JourneyInput, code: ValidationCode) {
    match code
    case NameRequired => Trim(input.name) == ""
    case DateOrder => !InDateOrder(input.startDate, input.endDate)
    case _ => false
  }

  /** Which error it is: the journey is looked for first, then the text is judged, then the item is looked for; and the
      codes of a refused text are exactly its faults. */
  lemma ErrorsNamed(data: JourneyData, edit: Edit, id: string, now: string)
    requires Ranked(data.segments)
    ensures var r := Apply(data, edit, id, now);
            var found := edit.CreateJourney? || HasJourney(data.journeys, edit.journeyId);
            && (r == Err(JourneyNotFound) <==> !found)
            && (r == Err(ItemNotFound) <==> found && InOrder(edit) && !Names(data, edit))
            && (r.Err? && r.error.Invalid? <==> found && !InOrder(edit))
            && (r.Err? && r.error.Invalid? ==> forall code :: code in r.error.codes <==> Faulty(edit, code))
  {
    hide Ranked, HasJourney, Trim, Before, Route, Renumber, Swapped, ReplaceSegment, ReplacePacking, Touch, Rename,
        FindSegment, FindPacking, SegmentFrom, PackingFrom, Pack;
    match edit {
      case SaveSegment(journeyId, _, segmentId) =>
        if Given(segmentId) {
          FindSegmentExactly(data.segments, journeyId, segmentId.value);
        }
      case DeleteSegment(journeyId, itemId) => FindSegmentExactly(data.segments, journeyId, itemId);
      case MoveSegment(journeyId, itemId, _) => InRoute(data.segments, journeyId, itemId);
      case SavePacking(journeyId, _, packingId) =>
        if Given(packingId) {
          FindPackingExactly(data.packing, journeyId, packingId.value);
        }
      case SetPacked(journeyId, itemId, _) => FindPackingExactly(data.packing, journeyId, itemId);
      case DeletePacking(journeyId, itemId) => FindPackingExactly(data.packing, journeyId, itemId);
      case _ =>
    }
  }

  /** An edit of ranked data succeeds exactly when its journey exists, its text is in order and its item is there. */
  lemma RefusedExactly(data: JourneyData, edit: Edit, id: string, now: string)
    requires Ranked(data.segments)
    ensures Apply(data, edit, id, now).Ok? <==>
              && (edit.CreateJourney? || HasJourney(data.journeys, edit.journeyId))
              && InOrder(edit) && Names(data, edit)
  {
    hide Apply, Ranked, HasJourney, InOrder, Names, Faulty;
    ErrorsNamed(data, edit, id, now);
  }

  lemma InRoute(segments: seq<Segment>, journeyId: string, itemId: string)
    requires Ranked(segments)
    ensures itemId in IdsOf(Route(segments, journeyId)) <==> HasRow(segments, journeyId, itemId)
  {
    hide Route;
    RankedDense(segments);
    var route := Route(segments, journeyId);
    if itemId in IdsOf(route) {
      var k :| 0 <= k < |IdsOf(route)| && IdsOf(route)[k] == itemId;
      RouteMember(segments, journeyId, route[k]);
      var i :| 0 <= i < |segments| && segments[i] == route[k];
    }
    if HasRow(segments, journeyId, itemId) {
      var i :| 0 <= i < |segments| && segments[i].id == itemId && segments[i].journeyId == journeyId;
      RouteMember(segments, journeyId, segments[i]);
      var k :| 0 <= k < |route| && route[k] == segments[i];
      assert IdsOf(route)[k] == itemId;
    }
  }

  // ---- journeys ---

  /** Creating appends one planned journey with the given text, trimmed, and the empty dates left out. */
  lemma CreateMeans(data: JourneyData, input: JourneyInput, id: string, now: string)
    requires Apply(data, CreateJourney(input), id, now).Ok?
    ensures var next := Apply(data, CreateJourney(input), id, now).value;
            var j := next.journeys[|data.journeys|];
            && |next.journeys| == |data.journeys| + 1 && next.journeys[..|data.journeys|] == data.journeys
            && next.segments == data.segments && next.packing == data.packing
            && j.id == id && j.name == Trim(input.name) && j.status == Planning
            && j.startDate == (if input.startDate == "" then None else Some(input.startDate))
            && j.endDate == (if input.endDate == "" then None else Some(input.endDate))
            && j.stamp.version == 1 && j.stamp.createdAt == now && j.stamp.updatedAt == now
  {
    hide Trim;
  }

  /** Updating rewrites name and dates of one journey, and its time; status, version and everything else stay. */
  lemma UpdateMeans(data: JourneyData, journeyId: string, input: JourneyInput, id: string, now: string, k: nat)
    requires DistinctJourneys(data.journeys) && k < |data.journeys| && data.journeys[k].id == journeyId
    requires Apply(data, UpdateJourney(journeyId, input), id, now).Ok?
    ensures var next := Apply(data, UpdateJourney(journeyId, input), id, now).value;
            var prior, row := data.journeys[k], next.journeys[k];
            && OnlyRow(data.journeys, next.journeys, k) && next.segments == data.segments &&
                next.packing == data.packing
            && row.id == journeyId && row.name == Trim(input.name) && row.status == prior.status
            && row.startDate == (if input.startDate == "" then None else Some(input.startDate))
            && row.endDate == (if input.endDate == "" then None else Some(input.endDate))
            && row.stamp.version == prior.stamp.version && row.stamp.createdAt == prior.stamp.createdAt
            && row.stamp.updatedAt == now
  {
    hide Trim, ValidateJourney;
  }

  lemma SetStatusMeans(data: JourneyData, journeyId: string, status: Status, id: string, now: string, k: nat)
    requires DistinctJourneys(data.journeys) && k < |data.journeys| && data.journeys[k].id == journeyId
    ensures Apply(data, SetStatus(journeyId, status), id, now).Ok?
    ensures var next := Apply(data, SetStatus(journeyId, status), id, now).value;
            && OnlyRow(data.journeys, next.journeys, k) && next.segments == data.segments &&
                next.packing == data.packing
            && next.journeys[k].status == status
            && next.journeys[k].(status := data.journeys[k].status, stamp := data.journeys[k].stamp) ==
                data.journeys[k]
            && next.journeys[k].stamp.version == data.journeys[k].stamp.version
            && next.journeys[k].stamp.createdAt == data.journeys[k].stamp.createdAt
            && next.journeys[k].stamp.updatedAt == now
  {
  }

  /** Deleting a journey takes it and exactly its segments and items, and leaves the others in place. */
  lemma DeleteJourneyMeans(data: JourneyData, journeyId: string, id: string, now: string, k: nat)
    requires DistinctJourneys(data.journeys) && k < |data.journeys| && data.journeys[k].id == journeyId
    ensures Apply(data, DeleteJourney(journeyId), id, now).Ok?
    ensures var next := Apply(data, DeleteJourney(journeyId), id, now).value;
            && next.journeys == data.journeys[..k] + data.journeys[k + 1..]
            && (forall s :: s in next.segments <==> s in data.segments && s.journeyId != journeyId)
            && (forall p :: p in next.packing <==> p in data.packing && p.journeyId != journeyId)
  {
    var next := Apply(data, DeleteJourney(journeyId), id, now).value;
    WithoutRow(data.journeys, (j: Journey) => j.id != journeyId, k);
    forall s ensures s in next.segments <==> s in data.segments && s.journeyId != journeyId {
      FilterMember(data.segments, (s: Segment) => s.journeyId != journeyId, s);
    }
    forall p ensures p in next.packing <==> p in data.packing && p.journeyId != journeyId {
      FilterMember(data.packing, (p: PackingItem) => p.journeyId != journeyId, p);
    }
  }

  // ---- segments ---

  /** The fields of a segment that come from the form. */
  ghost predicate TakesInput(s: Segment, input: SegmentInput) {
    && s.startDate == (if input.startDate == "" then None else Some(input.startDate))
    && s.endDate == (if input.endDate == "" then None else Some(input.endDate))
    && s.notes == Trim(input.notes)
    && s.details == (match input.details
                     case Stay(place) => Stay(Trim(place))
                     case Move(origin, destination, transport) =>
                       Move(Trim(origin), Trim(destination), Trim(transport)))
  }

  /** A new segment is appended behind the last of its journey. */
  lemma NewSegmentMeans(data: JourneyData, journeyId: string, input: SegmentInput, segmentId: Option<string>,
      id: string, now: string)
    requires segmentId.None? || segmentId.value == ""
    requires Apply(data, SaveSegment(journeyId, input, segmentId), id, now).Ok?
    ensures var next := Apply(data, SaveSegment(journeyId, input, segmentId), id, now).value;
            var s := next.segments[|data.segments|];
            && |next.segments| == |data.segments| + 1 && next.segments[..|data.segments|] == data.segments
            && Stamped(data.journeys, next.journeys, journeyId, now) && next.packing == data.packing
            && s.id == id && s.journeyId == journeyId && TakesInput(s, input)
            && s.position == |Owned(data.segments, journeyId)|
            && s.stamp.version == 1 && s.stamp.createdAt == now && s.stamp.updatedAt == now
  {
    hide Trim, Route, ValidateSegment, HasJourney, Owned;
    RouteLength(data.segments, journeyId);
  }

  /** A saved segment keeps its place, identifier, version and creation; nothing else of the route changes. */
  lemma SavedSegmentMeans(data: JourneyData, journeyId: string, input: SegmentInput, id: string, now: string, k: nat)
    requires DistinctSegments(data.segments) && k < |data.segments| && data.segments[k].journeyId == journeyId
    requires data.segments[k].id != ""
    requires Apply(data, SaveSegment(journeyId, input, Some(data.segments[k].id)), id, now).Ok?
    ensures var next := Apply(data, SaveSegment(journeyId, input, Some(data.segments[k].id)), id, now).value;
            var s, prior := next.segments[k], data.segments[k];
            && OnlyRow(data.segments, next.segments, k)
            && Stamped(data.journeys, next.journeys, journeyId, now) && next.packing == data.packing
            && s.id == prior.id && s.journeyId == journeyId && s.position == prior.position && TakesInput(s, input)
            && s.stamp.version == prior.stamp.version && s.stamp.createdAt == prior.stamp.createdAt
            && s.stamp.updatedAt == now
  {
    hide Trim, Route, ValidateSegment, HasJourney;
    FoundAt(data.segments, k);
  }

  lemma {:induction false} FoundAt(segments: seq<Segment>, k: nat)
    requires DistinctSegments(segments) && k < |segments|
    ensures FindSegment(segments, segments[k].journeyId, segments[k].id) == Some(segments[k])
  {
    if k > 0 {
      assert segments[0].id != segments[k].id;
      FoundAt(segments[1..], k - 1);
    }
  }

  /** Where a segment is after the one at `gone` has been taken out of its route. */
  function ClosedUp(s: Segment, gone: Segment): Segment {
    if s.journeyId == gone.journeyId && s.position > gone.position then s.(position := s.position - 1) else s
  }

  lemma ClosedRoute(segments: seq<Segment>, k: nat, n: nat)
    requires Ranked(segments) && k < |segments|
    requires var rest := segments[..k] + segments[k + 1..]; n < |Route(rest, segments[k].journeyId)|
    ensures var rest := segments[..k] + segments[k + 1..];
            var row := Route(rest, segments[k].journeyId)[n];
            row in rest && row.journeyId == segments[k].journeyId && ClosedUp(row, segments[k]).position == n
  {
    hide Route, Owned, DistinctSegments, DistinctPositions, Dense;
    var gone, rest := segments[k], segments[..k] + segments[k + 1..];
    var route := Route(rest, gone.journeyId);
    RankedDense(segments);
    RestOfRoute(segments, k);
    RouteIncreasing(rest, gone.journeyId);
    forall i | 0 <= i < |route|
      ensures route[i] in rest && route[i].journeyId == gone.journeyId
      ensures 0 <= ClosedUp(route[i], gone).position < |route| && route[i].position != gone.position
    {
      RouteMember(rest, gone.journeyId, route[i]);
      RestPosition(segments, k, route[i]);
    }
    var closed := seq(|route|, i requires 0 <= i < |route| => ClosedUp(route[i], gone));
    assert Increasing(closed);
    IncreasingBelow(closed, n, |closed|);
    IncreasingAbove(closed, n, |closed|);
  }

  lemma RestPosition(segments: seq<Segment>, k: nat, row: Segment)
    requires Ranked(segments) && k < |segments| && row.journeyId == segments[k].journeyId
    requires row in segments[..k] + segments[k + 1..]
    ensures row.position != segments[k].position && 0 <= row.position < |Owned(segments, row.journeyId)|
    ensures 0 <= segments[k].position < |Owned(segments, row.journeyId)|
  {
    hide Owned;
    var rest := segments[..k] + segments[k + 1..];
    var i :| 0 <= i < |rest| && rest[i] == row;
    var j := if i < k then i else i + 1;
    assert segments[j] == row;
  }

  lemma RestOfRoute(segments: seq<Segment>, k: nat)
    requires DistinctSegments(segments) && DistinctPositions(segments) && k < |segments|
    ensures var rest := segments[..k] + segments[k + 1..];
            && DistinctSegments(rest) && DistinctPositions(rest)
            && |Route(rest, segments[k].journeyId)| == |Owned(segments, segments[k].journeyId)| - 1
  {
    var rest, journeyId := segments[..k] + segments[k + 1..], segments[k].journeyId;
    assert segments == segments[..k] + ([segments[k]] + segments[k + 1..]);
    FilterAppend(segments[..k], [segments[k]] + segments[k + 1..], (s: Segment) => s.journeyId == journeyId);
    FilterAppend([segments[k]], segments[k + 1..], (s: Segment) => s.journeyId == journeyId);
    FilterAppend(segments[..k], segments[k + 1..], (s: Segment) => s.journeyId == journeyId);
    OneOwned(segments[k]);
    RouteLength(rest, journeyId);
    hide Route;
    assert forall i :: 0 <= i < |rest| ==> rest[i] == segments[if i < k then i else i + 1];
  }

  lemma OneOwned(s: Segment)
    ensures |Filter([s], (x: Segment) => x.journeyId == s.journeyId)| == 1
  {
    assert [s][1..] == [];
  }

  /** Deleting a segment takes exactly that row; the later ones of its journey move up by one place. */
  lemma DeleteSegmentMeans(data: JourneyData, itemId: string, id: string, now: string, k: nat)
    requires Ranked(data.segments) && k < |data.segments| && data.segments[k].id == itemId
    requires HasJourney(data.journeys, data.segments[k].journeyId)
    ensures var gone := data.segments[k];
            var outcome := Apply(data, DeleteSegment(gone.journeyId, itemId), id, now);
            var rest := data.segments[..k] + data.segments[k + 1..];
            && outcome.Ok? && |outcome.value.segments| == |rest|
            && (forall i :: 0 <= i < |rest| ==> outcome.value.segments[i] == ClosedUp(rest[i], gone))
            && Stamped(data.journeys, outcome.value.journeys, gone.journeyId, now)
            && outcome.value.packing == data.packing
  {
    hide Route, Owned, Dense, DistinctPositions, HasJourney;
    var gone, rest := data.segments[k], data.segments[..k] + data.segments[k + 1..];
    FoundAt(data.segments, k);
    WithoutRow(data.segments, (s: Segment) => s.id != itemId, k);
    RankedDense(data.segments);
    RestOfRoute(data.segments, k);
    RouteLists(rest, gone.journeyId);
    var route := Route(rest, gone.journeyId);
    forall i | 0 <= i < |rest|
      ensures Renumber(rest, IdsOf(route))[i] == ClosedUp(rest[i], gone)
    {
      ClosedPlace(data.segments, k, i);
    }
  }

  lemma ClosedPlace(segments: seq<Segment>, k: nat, i: nat)
    requires Ranked(segments) && k < |segments|
    requires var rest := segments[..k] + segments[k + 1..]; i < |rest|
    ensures var rest := segments[..k] + segments[k + 1..];
            Renumber(rest, IdsOf(Route(rest, segments[k].journeyId)))[i] == ClosedUp(rest[i], segments[k])
  {
    hide Route, Owned, Dense, DistinctPositions, DistinctSegments;
    var gone, rest := segments[k], segments[..k] + segments[k + 1..];
    RankedDense(segments);
    RestOfRoute(segments, k);
    RouteLists(rest, gone.journeyId);
    var route := Route(rest, gone.journeyId);
    ListsDistinct(IdsOf(route), rest, gone.journeyId);
    if rest[i].journeyId == gone.journeyId {
      RouteMember(rest, gone.journeyId, rest[i]);
      var n :| 0 <= n < |route| && route[n] == rest[i];
      ClosedRoute(segments, k, n);
      assert IdsOf(route)[n] == rest[i].id;
      IndexUnique(IdsOf(route), n);
    }
  }

  /** Moving a segment one place up or down exchanges its position with the neighbour there, and nothing else; at the
      end of the route it changes nothing at all. */
  lemma MoveMeans(data: JourneyData, itemId: string, direction: Direction, id: string, now: string, k: nat)
    returns (q: nat)
    requires Ranked(data.segments) && k < |data.segments| && data.segments[k].id == itemId
    requires HasJourney(data.journeys, data.segments[k].journeyId)
    ensures var s := data.segments[k];
            var outcome := Apply(data, MoveSegment(s.journeyId, itemId, direction), id, now);
            var place := if direction == Up then s.position - 1 else s.position + 1;
            && outcome.Ok?
            && (place < 0 || place >= |Owned(data.segments, s.journeyId)| ==> outcome.value == data)
            && (0 <= place < |Owned(data.segments, s.journeyId)| ==>
                  && q < |data.segments| && q != k && data.segments[q].journeyId == s.journeyId &&
                      data.segments[q].position == place
                  && outcome.value.segments == data.segments[k := s.(position := place)][q :=
                       data.segments[q].(position := s.position)]
                  && Stamped(data.journeys, outcome.value.journeys, s.journeyId, now)
                  && outcome.value.packing == data.packing)
  {
    hide Route, Owned, Dense, DistinctPositions, HasJourney, DistinctSegments;
    var s := data.segments[k];
    var order := IdsOf(Route(data.segments, s.journeyId));
    RankedDense(data.segments);
    RouteIndex(data.segments, s.journeyId, k);
    RouteLists(data.segments, s.journeyId);
    ListsDistinct(order, data.segments, s.journeyId);
    OrderLength(data.segments, s.journeyId);
    var place := if direction == Up then s.position - 1 else s.position + 1;
    q := 0;
    if 0 <= place < |order| {
      q := RowAt(data.segments, s.journeyId, place);
      RouteIndex(data.segments, s.journeyId, q);
      ExchangedRows(data.segments, s.journeyId, k, q, order[s.position := order[place]][place := itemId]);
    }
  }

  lemma OrderLength(segments: seq<Segment>, journeyId: string)
    requires Ranked(segments)
    ensures |IdsOf(Route(segments, journeyId))| == |Owned(segments, journeyId)|
  {
    hide Route, Owned;
    RouteLength(segments, journeyId);
  }

  lemma ExchangedRows(segments: seq<Segment>, journeyId: string, k: nat, q: nat, after: seq<string>)
    requires Ranked(segments) && k < |segments| && q < |segments| && q != k
    requires segments[k].journeyId == segments[q].journeyId == journeyId
    requires var order, p, r := IdsOf(Route(segments, journeyId)), segments[k].position, segments[q].position;
             && 0 <= p < |order| && 0 <= r < |order| && p != r
             && after == order[p := order[r]][r := segments[k].id] && order[r] == segments[q].id
    ensures Renumber(segments, after) == segments[k := segments[k].(position := segments[q].position)][q :=
        segments[q].(position := segments[k].position)]
  {
    hide Route, Owned, Dense, DistinctPositions;
    var order, p, r := IdsOf(Route(segments, journeyId)), segments[k].position, segments[q].position;
    RankedDense(segments);
    RouteLists(segments, journeyId);
    RouteIndex(segments, journeyId, k);
    ListsDistinct(order, segments, journeyId);
    assert order[p] == segments[k].id;
    assert after[p] == segments[q].id && after[r] == segments[k].id;
    ExchangedDistinct(order, after, p, r);
    forall i | 0 <= i < |segments|
      ensures Renumber(segments, after)[i] == segments[k := segments[k].(position := r)][q :=
          segments[q].(position := p)][i]
    {
      if i == k {
        IndexUnique(after, r);
      } else if i == q {
        IndexUnique(after, p);
      } else {
        assert segments[i].id != segments[k].id && segments[i].id != segments[q].id;
        if segments[i].journeyId == journeyId {
          RouteIndex(segments, journeyId, i);
          var n := IndexOf(order, segments[i].id);
          assert after[n] == segments[i].id;
          IndexUnique(after, n);
        } else {
          NothingNew(order, after, p, r, segments[i].id);
        }
      }
    }
  }

  lemma NothingNew(order: seq<string>, after: seq<string>, p: nat, r: nat, id: string)
    requires p < |order| && r < |order| && after == order[p := order[r]][r := order[p]]
    ensures id in after ==> id in order
  {
  }

  lemma ExchangedDistinct(order: seq<string>, after: seq<string>, p: nat, r: nat)
    requires Distinct(order) && p < |order| && r < |order| && p != r && after == order[p := order[r]][r := order[p]]
    ensures Distinct(after)
  {
  }

  /** In terms of the ordered list: moving the segment at place i up puts it before its predecessor, moving it down
      behind its successor. */
  lemma MovedRoute(data: JourneyData, journeyId: string, itemId: string, direction: Direction, id: string, now: string,
      i: nat)
    requires Ranked(data.segments) && HasJourney(data.journeys, journeyId)
    requires var o := IdsOf(Route(data.segments, journeyId)); i < |o| && o[i] == itemId
    ensures var o := IdsOf(Route(data.segments, journeyId));
            var outcome := Apply(data, MoveSegment(journeyId, itemId, direction), id, now);
            && outcome.Ok?
            && IdsOf(Route(outcome.value.segments, journeyId)) ==
                 if direction == Up && i > 0 then o[..i - 1] + [o[i], o[i - 1]] + o[i + 1..]
                 else if direction == Down && i + 1 < |o| then o[..i] + [o[i + 1], o[i]] + o[i + 2..]
                 else o
  {
    hide Route, Owned, Dense, DistinctPositions, HasJourney, DistinctSegments, Lists;
    var o := IdsOf(Route(data.segments, journeyId));
    RankedDense(data.segments);
    RouteLists(data.segments, journeyId);
    ListsDistinct(o, data.segments, journeyId);
    IndexUnique(o, i);
    if direction == Up && i > 0 {
      var after := o[..i - 1] + [o[i], o[i - 1]] + o[i + 1..];
      assert after == o[i := o[i - 1]][i - 1 := o[i]];
      SwappedLists(o, itemId, direction, data.segments, journeyId);
      RenumberRanked(data.segments, after, journeyId);
    } else if direction == Down && i + 1 < |o| {
      var after := o[..i] + [o[i + 1], o[i]] + o[i + 2..];
      assert after == o[i := o[i + 1]][i + 1 := o[i]];
      SwappedLists(o, itemId, direction, data.segments, journeyId);
      RenumberRanked(data.segments, after, journeyId);
    }
  }

  // ---- packing ---

  ghost predicate TakesPacking(p: PackingItem, input: PackingInput) {
    && p.caption == Trim(input.caption) && p.category == input.category && Some(p.quantity) == input.quantity
    && p.essential == input.essential
  }

  /** A new item is appended with nothing packed. */
  lemma NewPackingMeans(data: JourneyData, journeyId: string, input: PackingInput, packingId: Option<string>,
      id: string, now: string)
    requires packingId.None? || packingId.value == ""
    requires Apply(data, SavePacking(journeyId, input, packingId), id, now).Ok?
    ensures var next := Apply(data, SavePacking(journeyId, input, packingId), id, now).value;
            var p := next.packing[|data.packing|];
            && |next.packing| == |data.packing| + 1 && next.packing[..|data.packing|] == data.packing
            && Stamped(data.journeys, next.journeys, journeyId, now) && next.segments == data.segments
            && p.id == id && p.journeyId == journeyId && TakesPacking(p, input) && p.packed == 0
            && p.stamp.version == 1 && p.stamp.createdAt == now && p.stamp.updatedAt == now
  {
    hide Trim, HasJourney;
  }

  lemma {:induction false} PackingFoundAt(packing: seq<PackingItem>, k: nat)
    requires DistinctPacking(packing) && k < |packing|
    ensures FindPacking(packing, packing[k].journeyId, packing[k].id) == Some(packing[k])
  {
    if k > 0 {
      assert packing[0].id != packing[k].id;
      PackingFoundAt(packing[1..], k - 1);
    }
  }

  /** A saved item keeps what is packed, as far as the new quantity allows. */
  lemma SavedPackingMeans(data: JourneyData, journeyId: string, input: PackingInput, id: string, now: string, k: nat)
    requires DistinctPacking(data.packing) && k < |data.packing| && data.packing[k].journeyId == journeyId
    requires data.packing[k].id != ""
    requires Apply(data, SavePacking(journeyId, input, Some(data.packing[k].id)), id, now).Ok?
    ensures var next := Apply(data, SavePacking(journeyId, input, Some(data.packing[k].id)), id, now).value;
            var p, prior := next.packing[k], data.packing[k];
            && OnlyRow(data.packing, next.packing, k)
            && Stamped(data.journeys, next.journeys, journeyId, now) && next.segments == data.segments
            && p.id == prior.id && p.journeyId == journeyId && TakesPacking(p, input)
            && p.packed == (if prior.packed <= p.quantity then prior.packed else p.quantity)
            && p.stamp.version == prior.stamp.version && p.stamp.createdAt == prior.stamp.createdAt
            && p.stamp.updatedAt == now
  {
    hide Trim, HasJourney;
    PackingFoundAt(data.packing, k);
  }

  /** Packing sets the count of one item, kept between nothing and its quantity. */
  lemma SetPackedMeans(data: JourneyData, itemId: string, packed: int, id: string, now: string, k: nat)
    requires DistinctPacking(data.packing) && k < |data.packing| && data.packing[k].id == itemId
    requires HasJourney(data.journeys, data.packing[k].journeyId) && data.packing[k].quantity >= 0
    ensures var prior := data.packing[k];
            var outcome := Apply(data, SetPacked(prior.journeyId, itemId, packed), id, now);
            && outcome.Ok? && OnlyRow(data.packing, outcome.value.packing, k)
            && Stamped(data.journeys, outcome.value.journeys, prior.journeyId, now)
            && outcome.value.segments == data.segments
            && outcome.value.packing[k].(packed := prior.packed) == prior
            && outcome.value.packing[k].packed ==
                 if packed < 0 then 0 else if packed > prior.quantity then prior.quantity else packed
  {
    hide HasJourney;
    PackingFoundAt(data.packing, k);
  }

  lemma DeletePackingMeans(data: JourneyData, itemId: string, id: string, now: string, k: nat)
    requires DistinctPacking(data.packing) && k < |data.packing| && data.packing[k].id == itemId
    requires HasJourney(data.journeys, data.packing[k].journeyId)
    ensures var journeyId := data.packing[k].journeyId;
            var outcome := Apply(data, DeletePacking(journeyId, itemId), id, now);
            && outcome.Ok? && outcome.value.packing == data.packing[..k] + data.packing[k + 1..]
            && Stamped(data.journeys, outcome.value.journeys, journeyId, now)
            && outcome.value.segments == data.segments
  {
    hide HasJourney;
    PackingFoundAt(data.packing, k);
    WithoutRow(data.packing, (p: PackingItem) => p.id != itemId, k);
  }
}
