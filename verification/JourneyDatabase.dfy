/** The server's journey tables. A table is a sequence of rows; only ORDER BY position gives rows an order.
    Each request is one transaction, and inside it every row write is checked against the UNIQUE constraint
    on (journey, position) at once. */
module JourneyDatabase {
  import opened Basics
  import opened JourneyDomain
  import opened JourneyService

  const SHIFT := 100_000

  datatype JourneyBody = JourneyBody(name: string, startDate: Option<string>, endDate: Option<string>)

  datatype SegmentBody = SegmentBody(startDate: Option<string>, endDate: Option<string>, notes: string,
      details: Details)

  datatype PackingBody = PackingBody(caption: string, category: Category, quantity: int, essential: bool)

  datatype Request =
    | PostJourney(id: string, journey: JourneyBody)
    | PutJourney(journeyId: string, journey: JourneyBody, status: Status, expected: int)
    | DropJourney(journeyId: string)
    | PostSegment(journeyId: string, id: string, segment: SegmentBody)
    | PutSegment(journeyId: string, itemId: string, segment: SegmentBody, expected: int)
    | DropSegment(journeyId: string, itemId: string)
    | Reorder(journeyId: string, itemId: string, expected: int, newPosition: int)
    | PostPacking(journeyId: string, id: string, item: PackingBody)
    | PutPacking(journeyId: string, itemId: string, item: PackingBody, expected: int)
    | PutProgress(journeyId: string, itemId: string, packed: int, expected: int)
    | DropPacking(journeyId: string, itemId: string)

  datatype HttpError = Unprocessable | NotFound | VersionConflict | ConstraintError | InvalidRequest | NetworkError

  // ---- request validation ---

  function DaysIn(year: int, month: int): int {
    if month == 2 then if year % 4 == 0 && (year % 100 != 0 || year % 400 == 0) then 29 else 28
    else if month == 4 || month == 6 || month == 9 || month == 11 then 30
    else 31
  }

  function Number(s: string): nat {
    if s == "" then 0
    else Number(s[..|s| - 1]) * 10 + if IsDigit(s[|s| - 1]) then s[|s| - 1] as int - '0' as int else 0
  }

  /** A date of the server's calendar, years 1 to 9999. */
  predicate CalendarText(s: string) {
    && LocalDate(s)
    && 1 <= Number(s[..4])
    && 1 <= Number(s[5..7]) <= 12
    && 1 <= Number(s[8..10]) <= DaysIn(Number(s[..4]), Number(s[5..7]))
  }

  predicate ServerDates(start: Option<string>, end: Option<string>) {
    && (start.Some? ==> CalendarText(start.value)) && (end.Some? ==> CalendarText(end.value))
    && (start.Some? && end.Some? ==> !Before(end.value, start.value))
  }

  predicate AcceptsJourney(body: JourneyBody) {
    1 <= |body.name| <= 200 && ServerDates(body.startDate, body.endDate)
  }

  predicate AcceptsSegment(body: SegmentBody) {
    && |body.notes| <= 5000 && ServerDates(body.startDate, body.endDate)
    && match body.details
       case Stay(place) => |place| <= 200 && NonEmpty(place)
       case Move(origin, destination, transport) =>
         |origin| <= 200 && |destination| <= 200 && |transport| <= 100 && NonEmpty(origin) && NonEmpty(destination)
  }

  predicate AcceptsPacking(body: PackingBody) {
    1 <= |body.caption| <= 200 && 1 <= body.quantity <= 99
  }

  // ---- row functions ---

  function Bump(stamp: Stamp, now: string): Stamp {
    stamp.(version := stamp.version + 1, updatedAt := now)
  }

  /** _touch_journey. */
  function TouchRow(journeys: seq<Journey>, journeyId: string, now: string): seq<Journey> {
    seq(|journeys|, i requires 0 <= i < |journeys| =>
      if journeys[i].id == journeyId then journeys[i].(stamp := Bump(journeys[i].stamp, now)) else journeys[i])
  }

  function FindJourney(journeys: seq<Journey>, id: string): Option<Journey> {
    if journeys == [] then None else if journeys[0].id == id then Some(journeys[0]) else FindJourney(journeys[1..], id)
  }

  function UpdateRow(journeys: seq<Journey>, journeyId: string, body: JourneyBody, status: Status,
      now: string): seq<Journey> {
    seq(|journeys|, i requires 0 <= i < |journeys| =>
      if journeys[i].id == journeyId then
        journeys[i].(name := Trim(body.name), startDate := body.startDate, endDate := body.endDate, status := status,
                     stamp := Bump(journeys[i].stamp, now))
      else journeys[i])
  }

  /** coalesce(max(position), -1). */
  function MaxPosition(segments: seq<Segment>, journeyId: string): (m: int)
    ensures forall i :: 0 <= i < |segments| && segments[i].journeyId == journeyId ==> segments[i].position <= m
    ensures m == -1 || exists i :: 0 <= i < |segments| && segments[i].journeyId == journeyId && segments[i].position == m
  {
    if segments == [] then -1
    else
      var rest := MaxPosition(segments[..|segments| - 1], journeyId);
      var last := segments[|segments| - 1];
      if last.journeyId == journeyId && last.position > rest then last.position
      else rest
  }

  function NewSegment(journeyId: string, id: string, body: SegmentBody, position: int, now: string): Segment {
    Segment(id, journeyId, position, body.startDate, body.endDate, Trim(body.notes), TrimDetails(body.details),
        Stamp(1, now, now))
  }

  function RewriteSegment(segments: seq<Segment>, id: string, body: SegmentBody, now: string): seq<Segment> {
    seq(|segments|, i requires 0 <= i < |segments| =>
      if segments[i].id == id then
        segments[i].(startDate := body.startDate, endDate := body.endDate, notes := Trim(body.notes),
            details := TrimDetails(body.details),
                     stamp := Bump(segments[i].stamp, now))
      else segments[i])
  }

  /** ids.remove(id); ids.insert(position, id). */
  function MoveTo(order: seq<string>, id: string, position: nat): seq<string>
    requires id in order && position < |order|
  {
    var rest := order[..IndexOf(order, id)] + order[IndexOf(order, id) + 1..];
    rest[..position] + [id] + rest[position..]
  }

  /** What the reorder writes: positions from the new order, the time on every row, a version on the moved one. */
  function Reordered(segments: seq<Segment>, order: seq<string>, moved: string, now: string): seq<Segment> {
    seq(|segments|, i requires 0 <= i < |segments| =>
      if segments[i].id in order then
        segments[i].(position := IndexOf(order, segments[i].id),
                     stamp := segments[i].stamp.(updatedAt := now,
                       version := segments[i].stamp.version + if segments[i].id == moved then 1 else 0))
      else segments[i])
  }

  function NewPacking(journeyId: string, id: string, body: PackingBody, now: string): PackingItem {
    PackingItem(id, journeyId, Trim(body.caption), body.category, body.quantity, 0, body.essential, Stamp(1, now, now))
  }

  function RewritePacking(packing: seq<PackingItem>, id: string, body: PackingBody, now: string): seq<PackingItem> {
    seq(|packing|, i requires 0 <= i < |packing| =>
      if packing[i].id == id then
        packing[i].(caption := Trim(body.caption), category := body.category, quantity := body.quantity,
                    packed := Min(packing[i].packed, body.quantity), essential := body.essential,
                        stamp := Bump(packing[i].stamp, now))
      else packing[i])
  }

  function WriteProgress(packing: seq<PackingItem>, id: string, packed: int, now: string): seq<PackingItem> {
    seq(|packing|, i requires 0 <= i < |packing| =>
      if packing[i].id == id then packing[i].(packed := packed, stamp := Bump(packing[i].stamp, now)) else packing[i])
  }

  // ---- the transactions ---

  function ServeJourney(db: JourneyData, request: Request, now: string): Result<JourneyData, HttpError>
    requires request.PostJourney? || request.PutJourney? || request.DropJourney?
  {
    match request
    case PostJourney(id, body) =>
      if !AcceptsJourney(body) then Err(Unprocessable)
      else if HasJourney(db.journeys, id) then Err(ConstraintError)
      else Ok(db.(journeys := db.journeys + [Journey(id, Trim(body.name), body.startDate, body.endDate, Planning,
          Stamp(1, now, now))]))
    case PutJourney(journeyId, body, status, expected) => (
      if !AcceptsJourney(body) || expected < 1 then Err(Unprocessable)
      else
        match FindJourney(db.journeys, journeyId)
        case None => Err(NotFound)
        case Some(row) =>
          if row.stamp.version != expected then Err(VersionConflict)
          else Ok(db.(journeys := UpdateRow(db.journeys, journeyId, body, status, now))))
    case DropJourney(journeyId) =>
      if !HasJourney(db.journeys, journeyId) then Err(NotFound)
      else Ok(JourneyData(
        Filter(db.journeys, (j: Journey) => j.id != journeyId),
        Filter(db.segments, (s: Segment) => s.journeyId != journeyId),
        Filter(db.packing, (p: PackingItem) => p.journeyId != journeyId)))
  }

  function ServeSegment(db: JourneyData, request: Request, now: string): Result<JourneyData, HttpError>
    requires request.PostSegment? || request.PutSegment? || request.DropSegment? || request.Reorder?
  {
    var touched := TouchRow(db.journeys, request.journeyId, now);
    match request
    case PostSegment(journeyId, id, body) =>
      if !AcceptsSegment(body) then Err(Unprocessable)
      else if !HasJourney(db.journeys, journeyId) then Err(NotFound)
      else if HasSegment(db.segments, id) then Err(ConstraintError)
      else Ok(db.(segments := db.segments + [NewSegment(journeyId, id, body, MaxPosition(db.segments, journeyId) + 1,
          now)], journeys := touched))
    case PutSegment(journeyId, itemId, body, expected) => (
      if !AcceptsSegment(body) || expected < 1 then Err(Unprocessable)
      else if !HasJourney(db.journeys, journeyId) then Err(NotFound)
      else
        match FindSegment(db.segments, journeyId, itemId)
        case None => Err(NotFound)
        case Some(row) =>
          if row.stamp.version != expected then Err(VersionConflict)
          else Ok(db.(segments := RewriteSegment(db.segments, itemId, body, now), journeys := touched)))
    case DropSegment(journeyId, itemId) => (
      if !HasJourney(db.journeys, journeyId) || FindSegment(db.segments, journeyId, itemId).None? then Err(NotFound)
      else
        var remaining := Filter(db.segments, (s: Segment) => s.id != itemId);
        Ok(db.(segments := Renumber(remaining, IdsOf(Route(remaining, journeyId))), journeys := touched)))
    case Reorder(journeyId, itemId, expected, newPosition) =>
      if expected < 1 || newPosition < 0 then Err(Unprocessable)
      else if !HasJourney(db.journeys, journeyId) then Err(NotFound)
      else
        match FindSegment(db.segments, journeyId, itemId)
        case None => Err(NotFound)
        case Some(row) =>
          var order := IdsOf(Route(db.segments, journeyId));
          if row.stamp.version != expected then Err(VersionConflict)
          else if newPosition >= |order| || itemId !in order then Err(Unprocessable)
          else Ok(db.(segments := Reordered(db.segments, MoveTo(order, itemId, newPosition), itemId, now),
              journeys := touched))
  }

  function ServePacking(db: JourneyData, request: Request, now: string): Result<JourneyData, HttpError>
    requires request.PostPacking? || request.PutPacking? || request.PutProgress? || request.DropPacking?
  {
    var touched := TouchRow(db.journeys, request.journeyId, now);
    match request
    case PostPacking(journeyId, id, body) =>
      if !AcceptsPacking(body) then Err(Unprocessable)
      else if !HasJourney(db.journeys, journeyId) then Err(NotFound)
      else if HasPacking(db.packing, id) then Err(ConstraintError)
      else Ok(db.(packing := db.packing + [NewPacking(journeyId, id, body, now)], journeys := touched))
    case PutPacking(journeyId, itemId, body, expected) => (
      if !AcceptsPacking(body) || expected < 1 then Err(Unprocessable)
      else if !HasJourney(db.journeys, journeyId) then Err(NotFound)
      else
        match FindPacking(db.packing, journeyId, itemId)
        case None => Err(NotFound)
        case Some(row) =>
          if row.stamp.version != expected then Err(VersionConflict)
          else Ok(db.(packing := RewritePacking(db.packing, itemId, body, now), journeys := touched)))
    case PutProgress(journeyId, itemId, packed, expected) => (
      if expected < 1 || packed < 0 || packed > 99 then Err(Unprocessable)
      else if !HasJourney(db.journeys, journeyId) then Err(NotFound)
      else
        match FindPacking(db.packing, journeyId, itemId)
        case None => Err(NotFound)
        case Some(row) =>
          if packed > row.quantity then Err(Unprocessable)
          else if row.stamp.version != expected then Err(VersionConflict)
          else Ok(db.(packing := WriteProgress(db.packing, itemId, packed, now), journeys := touched)))
    case DropPacking(journeyId, itemId) =>
      if !HasJourney(db.journeys, journeyId) || FindPacking(db.packing, journeyId, itemId).None? then Err(NotFound)
      else Ok(db.(packing := Filter(db.packing, (p: PackingItem) => p.id != itemId), journeys := touched))
  }

  /** One request; an error leaves the tables as they were. */
  function Serve(db: JourneyData, request: Request, now: string): Result<JourneyData, HttpError> {
    if request.PostJourney? || request.PutJourney? || request.DropJourney? then ServeJourney(db, request, now)
    else if request.PostSegment? || request.PutSegment? || request.DropSegment? || request.Reorder? then
        ServeSegment(db, request, now)
    else ServePacking(db, request, now)
  }
}
