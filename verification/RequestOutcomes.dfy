/** What each request of the journey API does to the rows, versions and times included, when it is refused, and why no
    concurrent writer's change is ever overwritten. */
module RequestOutcomes {
  import opened Basics
  import opened JourneyDomain
  import opened JourneyService
  import opened JourneyEdits
  import opened JourneyDatabase
  import opened JourneyTables
  import opened JourneyRuns
  import opened JourneySave
  import opened RouteRefinement
  import opened EditMeanings
  import opened CalendarDate

  /** One version on, with the time of the request. */
  ghost predicate Versioned(before: Stamp, after: Stamp, now: string) {
    after.version == before.version + 1 && after.createdAt == before.createdAt && after.updatedAt == now
  }

  /** Only this journey's row differs, and only by being one version on. */
  ghost predicate Touched(before: seq<Journey>, after: seq<Journey>, journeyId: string, now: string) {
    && |after| == |before|
    && forall i :: 0 <= i < |before| ==>
         if before[i].id == journeyId
         then after[i].(stamp := before[i].stamp) == before[i] && Versioned(before[i].stamp, after[i].stamp, now)
         else after[i] == before[i]
  }

  lemma TouchRowTouches(journeys: seq<Journey>, journeyId: string, now: string)
    ensures Touched(journeys, TouchRow(journeys, journeyId, now), journeyId, now)
  {
  }

  // ---- when a request is refused ---

  /** The row a request addresses has the version it expects. */
  ghost predicate Current(db: JourneyData, request: Request) {
    match request
    case PutJourney(id, _, _, expected) =>
      exists i :: 0 <= i < |db.journeys| && db.journeys[i].id == id && db.journeys[i].stamp.version == expected
    case PutSegment(journeyId, id, _, expected) => SegmentAtVersion(db.segments, journeyId, id, expected)
    case Reorder(journeyId, id, expected, _) => SegmentAtVersion(db.segments, journeyId, id, expected)
    case PutPacking(journeyId, id, _, expected) => PackingAtVersion(db.packing, journeyId, id, expected)
    case PutProgress(journeyId, id, _, expected) => PackingAtVersion(db.packing, journeyId, id, expected)
    case _ => true
  }

  ghost predicate SegmentAtVersion(segments: seq<Segment>, journeyId: string, id: string, version: int) {
    exists i :: 0 <= i < |segments| && segments[i].id == id && segments[i].journeyId == journeyId &&
      segments[i].stamp.version == version
  }

  ghost predicate PackingAtVersion(packing: seq<PackingItem>, journeyId: string, id: string, version: int) {
    exists i :: 0 <= i < |packing| && packing[i].id == id && packing[i].journeyId == journeyId &&
      packing[i].stamp.version == version
  }

  /** Journey and item are there, or the identifier of a new row is not. */
  ghost predicate Addressed(db: JourneyData, request: Request) {
    match request
    case PostJourney(id, _) => !HasJourney(db.journeys, id)
    case PutJourney(id, _, _, _) => HasJourney(db.journeys, id)
    case DropJourney(id) => HasJourney(db.journeys, id)
    case PostSegment(journeyId, id, _) => HasJourney(db.journeys, journeyId) && !HasSegment(db.segments, id)
    case PutSegment(journeyId, id, _, _) => HasJourney(db.journeys, journeyId) && HasRow(db.segments, journeyId, id)
    case DropSegment(journeyId, id) => HasJourney(db.journeys, journeyId) && HasRow(db.segments, journeyId, id)
    case Reorder(journeyId, id, _, _) => HasJourney(db.journeys, journeyId) && HasRow(db.segments, journeyId, id)
    case PostPacking(journeyId, id, _) => HasJourney(db.journeys, journeyId) && !HasPacking(db.packing, id)
    case PutPacking(journeyId, id, _, _) => HasJourney(db.journeys, journeyId) && HasItem(db.packing, journeyId, id)
    case PutProgress(journeyId, id, _, _) => HasJourney(db.journeys, journeyId) && HasItem(db.packing, journeyId, id)
    case DropPacking(journeyId, id) => HasJourney(db.journeys, journeyId) && HasItem(db.packing, journeyId, id)
  }

  /** Real days of the years 1 to 9999, the second not before the first. */
  ghost predicate Orderly(start: Option<string>, end: Option<string>) {
    && (start.Some? ==> CalendarText(start.value)) && (end.Some? ==> CalendarText(end.value))
    && (start.Some? && end.Some? ==> DayNumber(start.value) <= DayNumber(end.value))
  }

  ghost predicate JourneyInRange(body: JourneyBody) {
    1 <= |body.name| <= 200 && Orderly(body.startDate, body.endDate)
  }

  ghost predicate SegmentInRange(body: SegmentBody) {
    && |body.notes| <= 5_000 && Orderly(body.startDate, body.endDate)
    && match body.details
       case Stay(place) => |place| <= 200 && Trim(place) != ""
       case Move(origin, destination, transport) =>
         |origin| <= 200 && Trim(origin) != "" && |destination| <= 200 && Trim(destination) != "" && |transport| <= 100
  }

  ghost predicate PackingInRange(body: PackingBody) {
    1 <= |body.caption| <= 200 && 1 <= body.quantity <= 99
  }

  lemma OrderlyExactly(start: Option<string>, end: Option<string>)
    ensures ServerDates(start, end) <==> Orderly(start, end)
  {
    hide CalendarText, Before, DayNumber;
    if start.Some? && end.Some? && CalendarText(start.value) && CalendarText(end.value) {
      BeforeIsEarlier(end.value, start.value);
    }
  }

  lemma JourneyRange(body: JourneyBody)
    ensures AcceptsJourney(body) <==> JourneyInRange(body)
  {
    hide ServerDates, Orderly;
    OrderlyExactly(body.startDate, body.endDate);
  }

  lemma SegmentRange(body: SegmentBody)
    ensures AcceptsSegment(body) <==> SegmentInRange(body)
  {
    hide ServerDates, Orderly, Trim;
    OrderlyExactly(body.startDate, body.endDate);
  }

  /** The values of the request are in range; a progress or a position also has to suit the stored rows. */
  ghost predicate InRange(db: JourneyData, request: Request) {
    match request
    case PostJourney(_, body) => JourneyInRange(body)
    case PutJourney(_, body, _, expected) => JourneyInRange(body) && expected >= 1
    case PostSegment(_, _, body) => SegmentInRange(body)
    case PutSegment(_, _, body, expected) => SegmentInRange(body) && expected >= 1
    case Reorder(journeyId, _, expected, position) =>
      expected >= 1 && 0 <= position < |Owned(db.segments, journeyId)|
    case PostPacking(_, _, body) => PackingInRange(body)
    case PutPacking(_, _, body, expected) => PackingInRange(body) && expected >= 1
    case PutProgress(journeyId, id, packed, expected) =>
      && expected >= 1 && 0 <= packed <= 99
      && forall i :: 0 <= i < |db.packing| && db.packing[i].id == id && db.packing[i].journeyId == journeyId ==>
           packed <= db.packing[i].quantity
    case _ => true
  }

  /** Identifiers are unique in each table, as its primary key demands, and routes are ranked. */
  ghost predicate Keyed(db: JourneyData) {
    DistinctJourneys(db.journeys) && Ranked(db.segments) && DistinctPacking(db.packing)
  }

  lemma {:induction false} FindJourneyExactly(journeys: seq<Journey>, id: string)
    requires DistinctJourneys(journeys)
    ensures FindJourney(journeys, id).Some? <==> HasJourney(journeys, id)
    ensures forall i :: 0 <= i < |journeys| && journeys[i].id == id ==> FindJourney(journeys, id) == Some(journeys[i])
  {
    forall i | 0 <= i < |journeys| && journeys[i].id == id ensures FindJourney(journeys, id) == Some(journeys[i]) {
      JourneyAt(journeys, i);
    }
    if !HasJourney(journeys, id) {
      NoJourney(journeys, id);
    }
  }

  lemma SegmentFound(segments: seq<Segment>, journeyId: string, id: string)
    requires DistinctSegments(segments)
    ensures FindSegment(segments, journeyId, id).Some? <==> HasRow(segments, journeyId, id)
    ensures forall i :: 0 <= i < |segments| && segments[i].id == id && segments[i].journeyId == journeyId ==>
        FindSegment(segments, journeyId, id) == Some(segments[i])
  {
    FindSegmentExactly(segments, journeyId, id);
    forall i | 0 <= i < |segments| && segments[i].id == id && segments[i].journeyId == journeyId
      ensures FindSegment(segments, journeyId, id) == Some(segments[i])
    {
      SegmentAt(segments, i);
    }
  }

  lemma PackingFound(packing: seq<PackingItem>, journeyId: string, id: string)
    requires DistinctPacking(packing)
    ensures FindPacking(packing, journeyId, id).Some? <==> HasItem(packing, journeyId, id)
    ensures forall i :: 0 <= i < |packing| && packing[i].id == id && packing[i].journeyId == journeyId ==>
        FindPacking(packing, journeyId, id) == Some(packing[i])
  {
    FindPackingExactly(packing, journeyId, id);
    forall i | 0 <= i < |packing| && packing[i].id == id && packing[i].journeyId == journeyId
      ensures FindPacking(packing, journeyId, id) == Some(packing[i])
    {
      PackingAt(packing, i);
    }
  }

  /** A request is served exactly when its rows are there, its values in range and its version current; and then the
      version it expected was that of the very row it addresses. */
  lemma ServedExactly(db: JourneyData, request: Request, now: string)
    requires Keyed(db)
    ensures Serve(db, request, now).Ok? <==> Addressed(db, request) && InRange(db, request) && Current(db, request)
  {
    hide HasJourney, HasSegment, HasPacking, AcceptsJourney, AcceptsSegment, JourneyInRange, SegmentInRange, TouchRow,
        Owned, Route, Reordered, RewriteSegment, RewritePacking, WriteProgress, UpdateRow, DistinctSegments, DistinctJourneys,
        DistinctPacking, DistinctPositions, Dense, FindJourney, FindSegment, FindPacking, MoveTo, Renumber;
    match request {
      case PostJourney(_, body) => JourneyRange(body);
      case PutJourney(id, body, _, _) =>
        JourneyRange(body);
        FindJourneyExactly(db.journeys, id);
        HasJourneyWitness(db.journeys, id);
      case PostSegment(_, _, body) => SegmentRange(body);
      case PutSegment(journeyId, id, body, _) =>
        SegmentRange(body);
        SegmentFound(db.segments, journeyId, id);
      case DropSegment(journeyId, id) => SegmentFound(db.segments, journeyId, id);
      case Reorder(journeyId, id, _, _) =>
        SegmentFound(db.segments, journeyId, id);
        OrderLength(db.segments, journeyId);
        InRoute(db.segments, journeyId, id);
      case PutPacking(journeyId, id, _, _) => PackingFound(db.packing, journeyId, id);
      case PutProgress(journeyId, id, _, _) => PackingFound(db.packing, journeyId, id);
      case DropPacking(journeyId, id) => PackingFound(db.packing, journeyId, id);
      case _ =>
    }
  }

  lemma HasJourneyWitness(journeys: seq<Journey>, id: string)
    ensures HasJourney(journeys, id) <==> exists i :: 0 <= i < |journeys| && journeys[i].id == id
  {
  }

  // ---- what a request writes ---

  lemma JourneyUpdateWrites(db: JourneyData, id: string, body: JourneyBody, status: Status, expected: int, now: string,
      k: nat)
    requires DistinctJourneys(db.journeys) && k < |db.journeys| && db.journeys[k].id == id
    requires Serve(db, PutJourney(id, body, status, expected), now).Ok?
    ensures var next := Serve(db, PutJourney(id, body, status, expected), now).value;
            var row := next.journeys[k];
            && OnlyRow(db.journeys, next.journeys, k) && next.segments == db.segments && next.packing == db.packing
            && db.journeys[k].stamp.version == expected && Versioned(db.journeys[k].stamp, row.stamp, now)
            && row.id == id && row.name == Trim(body.name) && row.startDate == body.startDate
            && row.endDate == body.endDate && row.status == status
  {
    hide Trim, AcceptsJourney;
    JourneyAt(db.journeys, k);
  }

  lemma SegmentUpdateWrites(db: JourneyData, journeyId: string, id: string, body: SegmentBody, expected: int,
      now: string, k: nat)
    requires DistinctSegments(db.segments) && k < |db.segments| && db.segments[k].id == id &&
        db.segments[k].journeyId == journeyId
    requires Serve(db, PutSegment(journeyId, id, body, expected), now).Ok?
    ensures var next := Serve(db, PutSegment(journeyId, id, body, expected), now).value;
            var row := next.segments[k];
            && OnlyRow(db.segments, next.segments, k) && Touched(db.journeys, next.journeys, journeyId, now)
            && next.packing == db.packing
            && db.segments[k].stamp.version == expected && Versioned(db.segments[k].stamp, row.stamp, now)
            && row.id == id && row.journeyId == journeyId && row.position == db.segments[k].position
            && row.startDate == body.startDate && row.endDate == body.endDate && row.notes == Trim(body.notes)
            && row.details == TrimDetails(body.details)
  {
    hide Trim, TrimDetails, AcceptsSegment, TouchRow, HasJourney;
    SegmentAt(db.segments, k);
    TouchRowTouches(db.journeys, journeyId, now);
  }

  lemma PackingUpdateWrites(db: JourneyData, journeyId: string, id: string, body: PackingBody, expected: int,
      now: string, k: nat)
    requires DistinctPacking(db.packing) && k < |db.packing| && db.packing[k].id == id &&
        db.packing[k].journeyId == journeyId
    requires Serve(db, PutPacking(journeyId, id, body, expected), now).Ok?
    ensures var next := Serve(db, PutPacking(journeyId, id, body, expected), now).value;
            var prior, row := db.packing[k], next.packing[k];
            && OnlyRow(db.packing, next.packing, k) && Touched(db.journeys, next.journeys, journeyId, now)
            && next.segments == db.segments && prior.stamp.version == expected && Versioned(prior.stamp, row.stamp, now)
            && row.id == id && row.journeyId == journeyId && row.caption == Trim(body.caption)
            && row.category == body.category && row.quantity == body.quantity && row.essential == body.essential
            && row.packed == (if prior.packed <= body.quantity then prior.packed else body.quantity)
  {
    hide Trim, AcceptsPacking, TouchRow, HasJourney;
    PackingAt(db.packing, k);
    TouchRowTouches(db.journeys, journeyId, now);
  }

  lemma ProgressWrites(db: JourneyData, journeyId: string, id: string, packed: int, expected: int, now: string, k: nat)
    requires DistinctPacking(db.packing) && k < |db.packing| && db.packing[k].id == id &&
        db.packing[k].journeyId == journeyId
    requires Serve(db, PutProgress(journeyId, id, packed, expected), now).Ok?
    ensures var next := Serve(db, PutProgress(journeyId, id, packed, expected), now).value;
            var prior, row := db.packing[k], next.packing[k];
            && OnlyRow(db.packing, next.packing, k) && Touched(db.journeys, next.journeys, journeyId, now)
            && next.segments == db.segments && prior.stamp.version == expected && Versioned(prior.stamp, row.stamp, now)
            && row.packed == packed && row.(packed := prior.packed, stamp := prior.stamp) == prior
  {
    hide TouchRow, HasJourney;
    PackingAt(db.packing, k);
    TouchRowTouches(db.journeys, journeyId, now);
  }

  /** A reorder puts the moved segment at the asked position and shifts those in between by one towards the gap; it
      puts one version on the moved segment only, and the new time on every segment of the route. */
  lemma ReorderWrites(db: JourneyData, journeyId: string, id: string, expected: int, position: int, now: string, i: nat,
      k: nat)
    requires Ranked(db.segments) && i < |db.segments| && k < |db.segments|
    requires db.segments[k].id == id && db.segments[k].journeyId == journeyId
    requires Serve(db, Reorder(journeyId, id, expected, position), now).Ok?
    ensures var next := Serve(db, Reorder(journeyId, id, expected, position), now).value;
            && |next.segments| == |db.segments| && Touched(db.journeys, next.journeys, journeyId, now)
            && next.packing == db.packing
            && var prior, row := db.segments[i], next.segments[i];
               && (prior.journeyId != journeyId ==> row == prior)
               && (prior.journeyId == journeyId ==>
                     && row.position == PlaceAfter(prior.position, db.segments[k].position, position)
                     && row.(position := prior.position, stamp := prior.stamp) == prior
                     && row.stamp.createdAt == prior.stamp.createdAt && row.stamp.updatedAt == now
                     && row.stamp.version == prior.stamp.version + if i == k then 1 else 0)
  {
    hide TouchRow, HasJourney, Route, MoveTo, DistinctPositions, Dense, FindSegment, Owned;
    TouchRowTouches(db.journeys, journeyId, now);
    MovedLists(db.segments, journeyId, id, position);
    ListsOwner(MoveTo(IdsOf(Route(db.segments, journeyId)), id, position), db.segments, journeyId, i);
    if db.segments[i].journeyId == journeyId {
      ShiftedPlace(db.segments, journeyId, position, i, k);
    }
  }

  /** Where a segment ends up when the one at `from` moves to `to`. */
  function PlaceAfter(p: int, from: int, to: int): int {
    if p == from then to
    else if from < p <= to then p - 1
    else if to <= p < from then p + 1
    else p
  }

  lemma ShiftedPlace(segments: seq<Segment>, journeyId: string, position: nat, i: nat, k: nat)
    requires Ranked(segments) && i < |segments| && k < |segments|
    requires segments[i].journeyId == segments[k].journeyId == journeyId
    requires position < |IdsOf(Route(segments, journeyId))|
    ensures var order := IdsOf(Route(segments, journeyId));
            && segments[k].id in order && segments[i].id in MoveTo(order, segments[k].id, position)
            && IndexOf(MoveTo(order, segments[k].id, position), segments[i].id) ==
                 PlaceAfter(segments[i].position, segments[k].position, position)
  {
    hide Route, MoveTo, DistinctSegments, DistinctPositions, Dense, Owned, Ranked;
    var order := IdsOf(Route(segments, journeyId));
    RankedOrder(segments, journeyId);
    RouteIndex(segments, journeyId, i);
    RouteIndex(segments, journeyId, k);
    ShiftedIndex(order, segments[i].position, segments[k].position, position);
  }

  lemma ShiftedIndex(order: seq<string>, p: nat, from: nat, to: nat)
    requires Distinct(order) && p < |order| && from < |order| && to < |order|
    ensures order[p] in MoveTo(order, order[from], to)
    ensures IndexOf(MoveTo(order, order[from], to), order[p]) == PlaceAfter(p, from, to)
  {
    hide MoveTo;
    MovedOne(order, from, to);
    MoveToDistinct(order, order[from], to);
    var after, rest, q := MoveTo(order, order[from], to), order[..from] + order[from + 1..], PlaceAfter(p, from, to);
    assert p != from ==> rest[if p < from then p else p - 1] == order[p];
    assert q != to ==> after[q] == (after[..to] + after[to + 1..])[if q < to then q else q - 1];
    IndexUnique(after, q);
  }

  lemma ListsOwner(order: seq<string>, segments: seq<Segment>, journeyId: string, i: nat)
    requires Lists(order, segments, journeyId) && i < |segments|
    ensures segments[i].id in order <==> segments[i].journeyId == journeyId
  {
  }

  /** New rows start at version one, planned or unpacked, behind the last segment of their journey. */
  lemma CreationWrites(db: JourneyData, request: Request, now: string)
    requires request.PostJourney? || request.PostSegment? || request.PostPacking?
    requires Ranked(db.segments) && Serve(db, request, now).Ok?
    ensures var next := Serve(db, request, now).value;
            match request
            case PostJourney(id, body) =>
              && next.segments == db.segments && next.packing == db.packing
              && next.journeys == db.journeys + [Journey(id, Trim(body.name), body.startDate, body.endDate, Planning,
                   Stamp(1, now, now))]
            case PostSegment(journeyId, id, body) =>
              && Touched(db.journeys, next.journeys, journeyId, now) && next.packing == db.packing
              && next.segments == db.segments + [Segment(id, journeyId, |Owned(db.segments, journeyId)|, body.startDate,
                   body.endDate, Trim(body.notes), TrimDetails(body.details), Stamp(1, now, now))]
            case PostPacking(journeyId, id, body) =>
              && Touched(db.journeys, next.journeys, journeyId, now) && next.segments == db.segments
              && next.packing == db.packing + [PackingItem(id, journeyId, Trim(body.caption), body.category,
                   body.quantity, 0, body.essential, Stamp(1, now, now))]
            case _ => true
  {
    hide Trim, TrimDetails, AcceptsJourney, AcceptsSegment, AcceptsPacking, HasJourney, HasSegment, HasPacking, Ranked,
        Owned, MaxPosition, TouchRow;
    if !request.PostJourney? {
      TouchRowTouches(db.journeys, request.journeyId, now);
    }
    if request.PostSegment? {
      NextPosition(db.segments, request.journeyId);
    }
  }

  /** Dropping a segment takes its row and moves the later ones of the route up; no segment gets a new version. */
  lemma DropWrites(db: JourneyData, id: string, now: string, k: nat)
    requires Ranked(db.segments) && k < |db.segments| && db.segments[k].id == id
    requires HasJourney(db.journeys, db.segments[k].journeyId)
    ensures var gone := db.segments[k];
            var outcome := Serve(db, Request.DropSegment(gone.journeyId, id), now);
            var rest := db.segments[..k] + db.segments[k + 1..];
            && outcome.Ok? && |outcome.value.segments| == |rest|
            && (forall i :: 0 <= i < |rest| ==> outcome.value.segments[i] == ClosedUp(rest[i], gone))
            && Touched(db.journeys, outcome.value.journeys, gone.journeyId, now)
            && outcome.value.packing == db.packing
  {
    hide Route, Owned, Dense, DistinctPositions, HasJourney, TouchRow;
    var gone := db.segments[k];
    FoundAt(db.segments, k);
    WithoutRow(db.segments, (s: Segment) => s.id != id, k);
    FilterSame(db.segments, (s: Segment) => s.id != id, (s: Segment) => s.id != id);
    TouchRowTouches(db.journeys, gone.journeyId, now);
    var rest := db.segments[..k] + db.segments[k + 1..];
    forall i | 0 <= i < |rest|
      ensures Renumber(rest, IdsOf(Route(rest, gone.journeyId)))[i] == ClosedUp(rest[i], gone)
    {
      ClosedPlace(db.segments, k, i);
    }
  }

  /** Dropping a journey takes its own rows and no others; dropping an item takes that item. */
  lemma DropAllWrites(db: JourneyData, request: Request, now: string)
    requires (request.DropJourney? || request.DropPacking?) && Serve(db, request, now).Ok?
    ensures var next := Serve(db, request, now).value;
            match request
            case DropJourney(id) =>
              && (forall j :: j in next.journeys <==> j in db.journeys && j.id != id)
              && (forall s :: s in next.segments <==> s in db.segments && s.journeyId != id)
              && (forall p :: p in next.packing <==> p in db.packing && p.journeyId != id)
            case DropPacking(journeyId, id) =>
              && (forall p :: p in next.packing <==> p in db.packing && p.id != id)
              && Touched(db.journeys, next.journeys, journeyId, now) && next.segments == db.segments
            case _ => true
  {
    hide HasJourney, FindPacking, TouchRow;
    var id := if request.DropJourney? then request.journeyId else request.itemId;
    TouchRowTouches(db.journeys, request.journeyId, now);
    forall j ensures j in Filter(db.journeys, (j: Journey) => j.id != id) <==> j in db.journeys && j.id != id {
      FilterMember(db.journeys, (j: Journey) => j.id != id, j);
    }
    forall s ensures s in Filter(db.segments, (s: Segment) => s.journeyId != id) <==>
        s in db.segments && s.journeyId != id {
      FilterMember(db.segments, (s: Segment) => s.journeyId != id, s);
    }
    forall p ensures p in Filter(db.packing, (p: PackingItem) => p.journeyId != id) <==>
        p in db.packing && p.journeyId != id {
      FilterMember(db.packing, (p: PackingItem) => p.journeyId != id, p);
    }
    forall p ensures p in Filter(db.packing, (p: PackingItem) => p.id != id) <==> p in db.packing && p.id != id {
      FilterMember(db.packing, (p: PackingItem) => p.id != id, p);
    }
    FilterSame(db.journeys, (j: Journey) => j.id != id, (j: Journey) => j.id != id);
    FilterSame(db.segments, (s: Segment) => s.journeyId != id, (s: Segment) => s.journeyId != id);
    FilterSame(db.packing, (p: PackingItem) => p.journeyId != id, (p: PackingItem) => p.journeyId != id);
    FilterSame(db.packing, (p: PackingItem) => p.id != id, (p: PackingItem) => p.id != id);
  }

  // ---- no lost update ---

  /** The version of the row a versioned request addresses. */
  function VersionOf(db: JourneyData, request: Request): Option<int> {
    match request
    case PutJourney(id, _, _, _) =>
      if FindJourney(db.journeys, id).Some? then Some(FindJourney(db.journeys, id).value.stamp.version) else None
    case PutSegment(_, id, _, _) => SegmentVersion(db.segments, id)
    case Reorder(_, id, _, _) => SegmentVersion(db.segments, id)
    case PutPacking(_, id, _, _) => PackingVersion(db.packing, id)
    case PutProgress(_, id, _, _) => PackingVersion(db.packing, id)
    case _ => None
  }

  function SegmentVersion(segments: seq<Segment>, id: string): Option<int> {
    if SegmentById(segments, id).Some? then Some(SegmentById(segments, id).value.stamp.version) else None
  }

  function PackingVersion(packing: seq<PackingItem>, id: string): Option<int> {
    if PackingById(packing, id).Some? then Some(PackingById(packing, id).value.stamp.version) else None
  }

  predicate VersionedRequest(request: Request) {
    request.PutJourney? || request.PutSegment? || request.Reorder? || request.PutPacking? || request.PutProgress?
  }

  /** Both requests write to the same row. */
  predicate SameRow(a: Request, b: Request) {
    || (a.PutJourney? && b.PutJourney? && a.journeyId == b.journeyId)
    || ((a.PutSegment? || a.Reorder?) && (b.PutSegment? || b.Reorder?) && a.itemId == b.itemId)
    || ((a.PutPacking? || a.PutProgress?) && (b.PutPacking? || b.PutProgress?) && a.itemId == b.itemId)
  }

  // Each row of the next table is new, or was there with no higher version.

  ghost predicate JourneyBefore(before: seq<Journey>, row: Journey) {
    exists j :: 0 <= j < |before| && before[j].id == row.id && before[j].stamp.version <= row.stamp.version
  }

  ghost predicate JourneysGrow(before: seq<Journey>, after: seq<Journey>) {
    forall i :: 0 <= i < |after| ==>
      (forall j :: 0 <= j < |before| ==> before[j].id != after[i].id) || JourneyBefore(before, after[i])
  }

  ghost predicate SegmentBefore(before: seq<Segment>, row: Segment) {
    exists j :: 0 <= j < |before| && before[j].id == row.id && before[j].stamp.version <= row.stamp.version
  }

  ghost predicate SegmentsGrow(before: seq<Segment>, after: seq<Segment>) {
    forall i :: 0 <= i < |after| ==>
      (forall j :: 0 <= j < |before| ==> before[j].id != after[i].id) || SegmentBefore(before, after[i])
  }

  ghost predicate PackingItemBefore(before: seq<PackingItem>, row: PackingItem) {
    exists j :: 0 <= j < |before| && before[j].id == row.id && before[j].stamp.version <= row.stamp.version
  }

  ghost predicate PackingGrows(before: seq<PackingItem>, after: seq<PackingItem>) {
    forall i :: 0 <= i < |after| ==>
      (forall j :: 0 <= j < |before| ==> before[j].id != after[i].id) || PackingItemBefore(before, after[i])
  }

  /** A table after one request: rows rewritten in place, one appended under a new identifier, or some taken out. */
  ghost predicate JourneysStep(before: seq<Journey>, after: seq<Journey>) {
    || (|after| == |before| && forall i :: 0 <= i < |before| ==>
          after[i].id == before[i].id && before[i].stamp.version <= after[i].stamp.version)
    || (exists row :: after == before + [row] && !HasJourney(before, row.id))
    || (exists keep :: after == Filter(before, keep))
  }

  lemma JourneysStepKeeps(before: seq<Journey>, after: seq<Journey>)
    requires DistinctJourneys(before) && JourneysStep(before, after)
    ensures DistinctJourneys(after) && JourneysGrow(before, after)
  {
    if row :| after == before + [row] && !HasJourney(before, row.id) {
      forall i | 0 <= i < |before| ensures before[i].id != row.id {
      }
    } else if keep :| after == Filter(before, keep) {
      forall i, j | 0 <= i < j < |after| ensures after[i].id != after[j].id {
        var a, b := FilterOrder(before, keep, i, j);
      }
      forall i | 0 <= i < |after|
        ensures JourneyBefore(before, after[i])
      {
        var a := FilterIndex(before, keep, i);
      }
    }
  }

  ghost predicate PackingStep(before: seq<PackingItem>, after: seq<PackingItem>) {
    || (|after| == |before| && forall i :: 0 <= i < |before| ==>
          after[i].id == before[i].id && before[i].stamp.version <= after[i].stamp.version)
    || (exists row :: after == before + [row] && !HasPacking(before, row.id))
    || (exists keep :: after == Filter(before, keep))
  }

  lemma PackingStepKeeps(before: seq<PackingItem>, after: seq<PackingItem>)
    requires DistinctPacking(before) && PackingStep(before, after)
    ensures DistinctPacking(after) && PackingGrows(before, after)
  {
    if row :| after == before + [row] && !HasPacking(before, row.id) {
      forall i | 0 <= i < |before| ensures before[i].id != row.id {
      }
    } else if keep :| after == Filter(before, keep) {
      forall i, j | 0 <= i < j < |after| ensures after[i].id != after[j].id {
        var a, b := FilterOrder(before, keep, i, j);
      }
      forall i | 0 <= i < |after|
        ensures PackingItemBefore(before, after[i])
      {
        var a := FilterIndex(before, keep, i);
      }
    }
  }

  ghost predicate SegmentsStep(before: seq<Segment>, after: seq<Segment>) {
    || (|after| == |before| && forall i :: 0 <= i < |before| ==>
          after[i].id == before[i].id && before[i].stamp.version <= after[i].stamp.version)
    || (exists row :: after == before + [row] && !HasSegment(before, row.id))
    || (exists keep :: |after| == |Filter(before, keep)| && forall i :: 0 <= i < |after| ==>
          after[i].id == Filter(before, keep)[i].id && after[i].stamp == Filter(before, keep)[i].stamp)
  }

  lemma SegmentsStepGrows(before: seq<Segment>, after: seq<Segment>)
    requires SegmentsStep(before, after)
    ensures SegmentsGrow(before, after)
  {
    if row :| after == before + [row] && !HasSegment(before, row.id) {
      forall i | 0 <= i < |before| ensures before[i].id != row.id {
      }
    } else if keep :| |after| == |Filter(before, keep)| && forall i :: 0 <= i < |after| ==>
          after[i].id == Filter(before, keep)[i].id && after[i].stamp == Filter(before, keep)[i].stamp {
      forall i | 0 <= i < |after|
        ensures SegmentBefore(before, after[i])
      {
        var a := FilterIndex(before, keep, i);
      }
    }
  }

  lemma ServedJourneys(db: JourneyData, request: Request, now: string)
    requires Serve(db, request, now).Ok?
    ensures JourneysStep(db.journeys, Serve(db, request, now).value.journeys)
  {
    hide Trim, AcceptsJourney, AcceptsSegment, AcceptsPacking, FindJourney, FindSegment, FindPacking, Route, MoveTo,
        Reordered, Renumber, RewriteSegment, RewritePacking, WriteProgress, HasSegment, HasPacking;
    match request {
      case DropJourney(id) =>
        var keep := (j: Journey) => j.id != id;
        FilterSame(db.journeys, keep, (j: Journey) => j.id != id);
        assert Serve(db, request, now).value.journeys == Filter(db.journeys, keep);
      case PostJourney(id, body) =>
        assert Serve(db, request, now).value.journeys == db.journeys +
            [Journey(id, Trim(body.name), body.startDate, body.endDate, Planning, Stamp(1, now, now))];
      case _ =>
    }
  }

  lemma ServedPacking(db: JourneyData, request: Request, now: string)
    requires Serve(db, request, now).Ok?
    ensures PackingStep(db.packing, Serve(db, request, now).value.packing)
  {
    hide Trim, AcceptsJourney, AcceptsSegment, AcceptsPacking, FindJourney, FindSegment, FindPacking, Route, MoveTo,
        Reordered, Renumber, RewriteSegment, UpdateRow, TouchRow, HasSegment, HasJourney;
    match request {
      case DropJourney(id) =>
        var keep := (p: PackingItem) => p.journeyId != id;
        FilterSame(db.packing, keep, (p: PackingItem) => p.journeyId != id);
        assert Serve(db, request, now).value.packing == Filter(db.packing, keep);
      case DropPacking(_, id) =>
        var keep := (p: PackingItem) => p.id != id;
        FilterSame(db.packing, keep, (p: PackingItem) => p.id != id);
        assert Serve(db, request, now).value.packing == Filter(db.packing, keep);
      case PostPacking(journeyId, id, body) =>
        assert Serve(db, request, now).value.packing == db.packing + [NewPacking(journeyId, id, body, now)];
      case _ =>
    }
  }

  lemma ServedSegments(db: JourneyData, request: Request, now: string)
    requires Serve(db, request, now).Ok?
    ensures SegmentsStep(db.segments, Serve(db, request, now).value.segments)
  {
    hide Trim, TrimDetails, AcceptsJourney, AcceptsSegment, AcceptsPacking, FindJourney, FindSegment, FindPacking, Route,
        MoveTo, RewritePacking, WriteProgress, UpdateRow, TouchRow, HasPacking, HasJourney, MaxPosition;
    match request {
      case DropJourney(id) =>
        var keep := (s: Segment) => s.journeyId != id;
        FilterSame(db.segments, keep, (s: Segment) => s.journeyId != id);
        assert Serve(db, request, now).value.segments == Filter(db.segments, keep);
      case DropSegment(journeyId, id) =>
        var keep := (s: Segment) => s.id != id;
        FilterSame(db.segments, keep, (s: Segment) => s.id != id);
        var rest := Filter(db.segments, keep);
        assert Serve(db, request, now).value.segments == Renumber(rest, IdsOf(Route(rest, journeyId)));
      case PostSegment(journeyId, id, body) =>
        assert Serve(db, request, now).value.segments == db.segments +
            [NewSegment(journeyId, id, body, MaxPosition(db.segments, journeyId) + 1, now)];
      case _ =>
    }
  }

  lemma ServedKeyed(db: JourneyData, request: Request, now: string)
    requires Keyed(db) && Serve(db, request, now).Ok?
    ensures var next := Serve(db, request, now).value;
            && Keyed(next) && JourneysGrow(db.journeys, next.journeys) && SegmentsGrow(db.segments, next.segments)
            && PackingGrows(db.packing, next.packing)
  {
    hide Serve, Ranked, DistinctJourneys, DistinctPacking, JourneysStep, SegmentsStep, PackingStep, JourneysGrow,
        SegmentsGrow, PackingGrows;
    var next := Serve(db, request, now).value;
    ServedJourneys(db, request, now);
    ServedSegments(db, request, now);
    ServedPacking(db, request, now);
    JourneysStepKeeps(db.journeys, next.journeys);
    SegmentsStepGrows(db.segments, next.segments);
    PackingStepKeeps(db.packing, next.packing);
    RequestKeepsRanks(db, request, now);
  }

  lemma {:induction false} FindJourneyIndex(journeys: seq<Journey>, id: string) returns (i: nat)
    requires FindJourney(journeys, id).Some?
    ensures i < |journeys| && journeys[i].id == id && FindJourney(journeys, id).value == journeys[i]
  {
    if journeys[0].id == id {
      i := 0;
    } else {
      i := FindJourneyIndex(journeys[1..], id);
      i := i + 1;
    }
  }

  lemma {:induction false} SegmentByIdIndex(segments: seq<Segment>, id: string) returns (i: nat)
    requires SegmentById(segments, id).Some?
    ensures i < |segments| && segments[i].id == id && SegmentById(segments, id).value == segments[i]
  {
    if segments[0].id == id {
      i := 0;
    } else {
      i := SegmentByIdIndex(segments[1..], id);
      i := i + 1;
    }
  }

  lemma {:induction false} PackingByIdIndex(packing: seq<PackingItem>, id: string) returns (i: nat)
    requires PackingById(packing, id).Some?
    ensures i < |packing| && packing[i].id == id && PackingById(packing, id).value == packing[i]
  {
    if packing[0].id == id {
      i := 0;
    } else {
      i := PackingByIdIndex(packing[1..], id);
      i := i + 1;
    }
  }

  lemma JourneyVersionGrows(before: seq<Journey>, after: seq<Journey>, id: string)
    requires DistinctJourneys(before) && JourneysGrow(before, after)
    requires FindJourney(before, id).Some? && FindJourney(after, id).Some?
    ensures FindJourney(before, id).value.stamp.version <= FindJourney(after, id).value.stamp.version
  {
    hide FindJourney;
    var i := FindJourneyIndex(before, id);
    var j := FindJourneyIndex(after, id);
  }

  lemma SegmentVersionGrows(before: seq<Segment>, after: seq<Segment>, id: string)
    requires DistinctSegments(before) && SegmentsGrow(before, after)
    requires SegmentById(before, id).Some? && SegmentById(after, id).Some?
    ensures SegmentById(before, id).value.stamp.version <= SegmentById(after, id).value.stamp.version
  {
    hide SegmentById;
    var i := SegmentByIdIndex(before, id);
    var j := SegmentByIdIndex(after, id);
  }

  lemma PackingVersionGrows(before: seq<PackingItem>, after: seq<PackingItem>, id: string)
    requires DistinctPacking(before) && PackingGrows(before, after)
    requires PackingById(before, id).Some? && PackingById(after, id).Some?
    ensures PackingById(before, id).value.stamp.version <= PackingById(after, id).value.stamp.version
  {
    hide PackingById;
    var i := PackingByIdIndex(before, id);
    var j := PackingByIdIndex(after, id);
  }

  /** As long as a row is there its version never falls. */
  lemma VersionNeverFalls(db: JourneyData, request: Request, now: string, written: Request)
    requires Keyed(db) && Serve(db, request, now).Ok? && VersionedRequest(written)
    requires VersionOf(db, written).Some? && VersionOf(Serve(db, request, now).value, written).Some?
    ensures VersionOf(db, written).value <= VersionOf(Serve(db, request, now).value, written).value
  {
    hide Serve, Ranked, JourneysGrow, SegmentsGrow, PackingGrows, FindJourney, SegmentById, PackingById,
        DistinctJourneys, DistinctPacking, DistinctSegments;
    ServedKeyed(db, request, now);
    RankedDense(db.segments);
    var next := Serve(db, request, now).value;
    if written.PutJourney? {
      JourneyVersionGrows(db.journeys, next.journeys, written.journeyId);
    } else if written.PutSegment? || written.Reorder? {
      SegmentVersionGrows(db.segments, next.segments, written.itemId);
    } else {
      PackingVersionGrows(db.packing, next.packing, written.itemId);
    }
  }

  lemma JourneyMovesOn(db: JourneyData, request: Request, now: string)
    requires Keyed(db) && request.PutJourney? && Serve(db, request, now).Ok? && Keyed(Serve(db, request, now).value)
    ensures VersionOf(db, request) == Some(request.expected)
    ensures VersionOf(Serve(db, request, now).value, request) == Some(request.expected + 1)
  {
    hide Serve, DistinctJourneys, DistinctPacking, Dense, DistinctPositions, FindJourney, SegmentById, PackingById,
        DistinctSegments, AcceptsJourney, AcceptsSegment, AcceptsPacking;
    var next := Serve(db, request, now).value;
    ServedExactly(db, request, now);
    var k :| 0 <= k < |db.journeys| && db.journeys[k].id == request.journeyId &&
      db.journeys[k].stamp.version == request.expected;
    JourneyUpdateWrites(db, request.journeyId, request.journey, request.status, request.expected, now, k);
    JourneyAt(db.journeys, k);
    JourneyAt(next.journeys, k);
  }

  lemma SegmentMovesOn(db: JourneyData, request: Request, now: string)
    requires Keyed(db) && request.PutSegment? && Serve(db, request, now).Ok? && Keyed(Serve(db, request, now).value)
    ensures VersionOf(db, request) == Some(request.expected)
    ensures VersionOf(Serve(db, request, now).value, request) == Some(request.expected + 1)
  {
    hide Serve, DistinctJourneys, DistinctPacking, Dense, DistinctPositions, FindJourney, SegmentById, PackingById,
        DistinctSegments, AcceptsJourney, AcceptsSegment, AcceptsPacking;
    var next := Serve(db, request, now).value;
    ServedExactly(db, request, now);
    var k :| 0 <= k < |db.segments| && db.segments[k].id == request.itemId &&
      db.segments[k].journeyId == request.journeyId && db.segments[k].stamp.version == request.expected;
    SegmentUpdateWrites(db, request.journeyId, request.itemId, request.segment, request.expected, now, k);
    SegmentAt(db.segments, k);
    SegmentAt(next.segments, k);
  }

  lemma ReorderMovesOn(db: JourneyData, request: Request, now: string)
    requires Keyed(db) && request.Reorder? && Serve(db, request, now).Ok? && Keyed(Serve(db, request, now).value)
    ensures VersionOf(db, request) == Some(request.expected)
    ensures VersionOf(Serve(db, request, now).value, request) == Some(request.expected + 1)
  {
    hide Serve, DistinctJourneys, DistinctPacking, Dense, DistinctPositions, FindJourney, SegmentById, PackingById,
        DistinctSegments, AcceptsJourney, AcceptsSegment, AcceptsPacking;
    var next := Serve(db, request, now).value;
    ServedExactly(db, request, now);
    var k :| 0 <= k < |db.segments| && db.segments[k].id == request.itemId &&
      db.segments[k].journeyId == request.journeyId && db.segments[k].stamp.version == request.expected;
    ReorderWrites(db, request.journeyId, request.itemId, request.expected, request.newPosition, now, k, k);
    assert next.segments[k].(position := db.segments[k].position, stamp := db.segments[k].stamp).id == request.itemId;
    SegmentAt(db.segments, k);
    SegmentAt(next.segments, k);
  }

  lemma PackingMovesOn(db: JourneyData, request: Request, now: string)
    requires Keyed(db) && request.PutPacking? && Serve(db, request, now).Ok? && Keyed(Serve(db, request, now).value)
    ensures VersionOf(db, request) == Some(request.expected)
    ensures VersionOf(Serve(db, request, now).value, request) == Some(request.expected + 1)
  {
    hide Serve, DistinctJourneys, DistinctPacking, Dense, DistinctPositions, FindJourney, SegmentById, PackingById,
        DistinctSegments, AcceptsJourney, AcceptsSegment, AcceptsPacking;
    var next := Serve(db, request, now).value;
    ServedExactly(db, request, now);
    var k :| 0 <= k < |db.packing| && db.packing[k].id == request.itemId &&
      db.packing[k].journeyId == request.journeyId && db.packing[k].stamp.version == request.expected;
    PackingUpdateWrites(db, request.journeyId, request.itemId, request.item, request.expected, now, k);
    PackingAt(db.packing, k);
    PackingAt(next.packing, k);
  }

  lemma ProgressMovesOn(db: JourneyData, request: Request, now: string)
    requires Keyed(db) && request.PutProgress? && Serve(db, request, now).Ok? && Keyed(Serve(db, request, now).value)
    ensures VersionOf(db, request) == Some(request.expected)
    ensures VersionOf(Serve(db, request, now).value, request) == Some(request.expected + 1)
  {
    hide Serve, DistinctJourneys, DistinctPacking, Dense, DistinctPositions, FindJourney, SegmentById, PackingById,
        DistinctSegments, AcceptsJourney, AcceptsSegment, AcceptsPacking;
    var next := Serve(db, request, now).value;
    ServedExactly(db, request, now);
    var k :| 0 <= k < |db.packing| && db.packing[k].id == request.itemId &&
      db.packing[k].journeyId == request.journeyId && db.packing[k].stamp.version == request.expected;
    ProgressWrites(db, request.journeyId, request.itemId, request.packed, request.expected, now, k);
    assert next.packing[k].(packed := db.packing[k].packed, stamp := db.packing[k].stamp).id == request.itemId;
    PackingAt(db.packing, k);
    PackingAt(next.packing, k);
  }

  /** A versioned request that is served found its version and leaves the next one. */
  lemma VersionMovesOn(db: JourneyData, request: Request, now: string)
    requires Keyed(db) && VersionedRequest(request) && Serve(db, request, now).Ok?
    ensures VersionOf(db, request) == Some(request.expected)
    ensures VersionOf(Serve(db, request, now).value, request) == Some(request.expected + 1)
  {
    hide Serve, Keyed, VersionOf;
    ServedKeyed(db, request, now);
    if request.PutJourney? {
      JourneyMovesOn(db, request, now);
    } else if request.PutSegment? {
      SegmentMovesOn(db, request, now);
    } else if request.Reorder? {
      ReorderMovesOn(db, request, now);
    } else if request.PutPacking? {
      PackingMovesOn(db, request, now);
    } else {
      ProgressMovesOn(db, request, now);
    }
  }

  /** One request of some writer, at its time; it may also be lost on its way. */
  datatype Sent = Sent(request: Request, now: string, lost: bool)

  ghost predicate Succeeds(db: JourneyData, sent: Sent) {
    !sent.lost && Serve(db, sent.request, sent.now).Ok?
  }

  ghost function AfterAll(db: JourneyData, sents: seq<Sent>, n: nat): JourneyData
    requires n <= |sents|
  {
    if n == 0 then db
    else
      var before := AfterAll(db, sents, n - 1);
      if Succeeds(before, sents[n - 1]) then Serve(before, sents[n - 1].request, sents[n - 1].now).value else before
  }

  lemma {:induction false} AllKeyed(db: JourneyData, sents: seq<Sent>, n: nat)
    requires Keyed(db) && n <= |sents|
    ensures Keyed(AfterAll(db, sents, n))
  {
    hide Keyed, Serve;
    if n > 0 {
      AllKeyed(db, sents, n - 1);
      var before := AfterAll(db, sents, n - 1);
      if Succeeds(before, sents[n - 1]) {
        ServedKeyed(before, sents[n - 1].request, sents[n - 1].now);
      }
    }
  }

  lemma {:induction false} VersionRises(db: JourneyData, sents: seq<Sent>, written: Request, i: nat, j: nat)
    requires Keyed(db) && i <= j <= |sents| && VersionedRequest(written)
    requires forall n :: i <= n <= j ==> VersionOf(AfterAll(db, sents, n), written).Some?
    ensures VersionOf(AfterAll(db, sents, i), written).value <= VersionOf(AfterAll(db, sents, j), written).value
    decreases j
  {
    hide Keyed, Serve, VersionOf;
    if i < j {
      VersionRises(db, sents, written, i, j - 1);
      AllKeyed(db, sents, j - 1);
      assert VersionOf(AfterAll(db, sents, j - 1), written).Some?;
      assert VersionOf(AfterAll(db, sents, j), written).Some?;
      if Succeeds(AfterAll(db, sents, j - 1), sents[j - 1]) {
        VersionNeverFalls(AfterAll(db, sents, j - 1), sents[j - 1].request, sents[j - 1].now, written);
      }
    }
  }

  lemma SameRowVersion(db: JourneyData, a: Request, b: Request)
    requires SameRow(a, b)
    ensures VersionOf(db, a) == VersionOf(db, b)
  {
  }

  /** No lost update: among the requests of any number of writers, two that succeed on one row, which is there all the
      time in between, never expected the same version; the later one had seen the outcome of the earlier. */
  lemma NoLostUpdate(db: JourneyData, sents: seq<Sent>, i: nat, j: nat)
    requires Keyed(db) && i < j < |sents|
    requires VersionedRequest(sents[i].request) && VersionedRequest(sents[j].request)
    requires SameRow(sents[i].request, sents[j].request)
    requires Succeeds(AfterAll(db, sents, i), sents[i]) && Succeeds(AfterAll(db, sents, j), sents[j])
    requires forall n :: i < n <= j ==> VersionOf(AfterAll(db, sents, n), sents[i].request).Some?
    ensures sents[i].request.expected < sents[j].request.expected
  {
    hide Keyed, Serve, VersionOf;
    AllKeyed(db, sents, i);
    AllKeyed(db, sents, j);
    VersionMovesOn(AfterAll(db, sents, i), sents[i].request, sents[i].now);
    VersionMovesOn(AfterAll(db, sents, j), sents[j].request, sents[j].now);
    VersionRises(db, sents, sents[i].request, i + 1, j);
    SameRowVersion(AfterAll(db, sents, j), sents[i].request, sents[j].request);
  }
}
