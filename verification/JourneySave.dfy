/** The web adapter's save: it turns two whole states into requests. For every single edit of the service the
    requests bring the server to the edited state. */
module JourneySave {
  import opened Basics
  import opened JourneyDomain
  import opened JourneyService
  import opened JourneyEdits
  import opened JourneyDatabase
  import opened JourneyTables
  import opened JourneyRuns

  // ---- the diff ---

  function JourneyBodyOf(j: Journey): JourneyBody {
    JourneyBody(j.name, j.startDate, j.endDate)
  }

  function SegmentBodyOf(s: Segment): SegmentBody {
    SegmentBody(s.startDate, s.endDate, s.notes, s.details)
  }

  function PackingBodyOf(p: PackingItem): PackingBody {
    PackingBody(p.caption, p.category, p.quantity, p.essential)
  }

  predicate JourneyChanged(a: Journey, b: Journey) {
    a.name != b.name || a.startDate != b.startDate || a.endDate != b.endDate || a.status != b.status
  }

  function SegmentById(segments: seq<Segment>, id: string): Option<Segment> {
    if segments == [] then None else if segments[0].id == id then Some(segments[0]) else SegmentById(segments[1..], id)
  }

  function PackingById(packing: seq<PackingItem>, id: string): Option<PackingItem> {
    if packing == [] then None else if packing[0].id == id then Some(packing[0]) else PackingById(packing[1..], id)
  }

  function Flatten(parts: seq<seq<Request>>): seq<Request> {
    if parts == [] then [] else parts[0] + Flatten(parts[1..])
  }

  function JourneyDrops(previous: JourneyData, next: JourneyData): seq<seq<Request>> {
    seq(|previous.journeys|, i requires 0 <= i < |previous.journeys| =>
      if HasJourney(next.journeys, previous.journeys[i].id) then [] else [DropJourney(previous.journeys[i].id)])
  }

  function JourneyWrite(previous: JourneyData, j: Journey): seq<Request> {
    match FindJourney(previous.journeys, j.id)
    case None => [PostJourney(j.id, JourneyBodyOf(j))]
    case Some(prior) => if JourneyChanged(prior, j) then
        [PutJourney(j.id, JourneyBodyOf(j), j.status, prior.stamp.version)] else []
  }

  function JourneyWrites(previous: JourneyData, next: JourneyData): seq<seq<Request>> {
    seq(|next.journeys|, i requires 0 <= i < |next.journeys| => JourneyWrite(previous, next.journeys[i]))
  }

  /** Segments of a deleted journey went with it and are not deleted again. */
  function SegmentDrops(previous: JourneyData, next: JourneyData): seq<seq<Request>> {
    seq(|previous.segments|, i requires 0 <= i < |previous.segments| =>
      var s := previous.segments[i];
      if HasJourney(next.journeys, s.journeyId) && !HasSegment(next.segments, s.id) then
          [Request.DropSegment(s.journeyId, s.id)] else [])
  }

  function SegmentWrite(previous: JourneyData, s: Segment): seq<Request> {
    match SegmentById(previous.segments, s.id)
    case None => [PostSegment(s.journeyId, s.id, SegmentBodyOf(s))]
    case Some(prior) =>
      if SegmentBodyOf(prior) != SegmentBodyOf(s) then
          [PutSegment(s.journeyId, s.id, SegmentBodyOf(s), prior.stamp.version)] else []
  }

  function SegmentWrites(previous: JourneyData, next: JourneyData): seq<seq<Request>> {
    seq(|next.segments|, i requires 0 <= i < |next.segments| => SegmentWrite(previous, next.segments[i]))
  }

  /** The first segment that is not where it was, looking from index k on. */
  function Moved(previous: JourneyData, before: seq<Segment>, after: seq<Segment>, k: nat): Option<nat>
    requires k <= |after|
    decreases |after| - k
  {
    if k == |after| then None
    else if (k >= |before| || before[k].id != after[k].id) && SegmentById(previous.segments, after[k].id).Some? then
        Some(k)
    else Moved(previous, before, after, k + 1)
  }

  function JourneyReorder(previous: JourneyData, next: JourneyData, journeyId: string): seq<Request> {
    var before, after := Route(previous.segments, journeyId), Route(next.segments, journeyId);
    match Moved(previous, before, after, 0)
    case None => []
    case Some(k) =>
      MovedBound(previous, before, after, 0);
      match SegmentById(previous.segments, after[k].id)
      case None => []
      case Some(prior) => [Reorder(journeyId, after[k].id, prior.stamp.version, IndexOf(IdsOf(after), IdsOf(after)[k]))]
  }

  lemma {:induction false} MovedBound(previous: JourneyData, before: seq<Segment>, after: seq<Segment>, k: nat)
    requires k <= |after|
    ensures Moved(previous, before, after, k).Some? ==> k <= Moved(previous, before, after, k).value < |after|
    decreases |after| - k
  {
    if k < |after| {
      MovedBound(previous, before, after, k + 1);
    }
  }

  function Reorders(previous: JourneyData, next: JourneyData): seq<seq<Request>> {
    seq(|next.journeys|, i requires 0 <= i < |next.journeys| => JourneyReorder(previous, next, next.journeys[i].id))
  }

  function PackingDrops(previous: JourneyData, next: JourneyData): seq<seq<Request>> {
    seq(|previous.packing|, i requires 0 <= i < |previous.packing| =>
      var p := previous.packing[i];
      if HasJourney(next.journeys, p.journeyId) && !HasPacking(next.packing, p.id) then
          [Request.DropPacking(p.journeyId, p.id)] else [])
  }

  function PackingWrite(previous: JourneyData, p: PackingItem): seq<Request> {
    match PackingById(previous.packing, p.id)
    case None => [PostPacking(p.journeyId, p.id, PackingBodyOf(p))]
    case Some(prior) =>
      if PackingBodyOf(prior) != PackingBodyOf(p) then
          [PutPacking(p.journeyId, p.id, PackingBodyOf(p), prior.stamp.version)]
      else if prior.packed != p.packed then [PutProgress(p.journeyId, p.id, p.packed, prior.stamp.version)]
      else []
  }

  function PackingWrites(previous: JourneyData, next: JourneyData): seq<seq<Request>> {
    seq(|next.packing|, i requires 0 <= i < |next.packing| => PackingWrite(previous, next.packing[i]))
  }

  function JourneyRequests(previous: JourneyData, next: JourneyData): seq<Request> {
    Flatten(JourneyDrops(previous, next)) + Flatten(JourneyWrites(previous, next))
  }

  function SegmentRequests(previous: JourneyData, next: JourneyData): seq<Request> {
    Flatten(SegmentDrops(previous, next)) + Flatten(SegmentWrites(previous, next)) + Flatten(Reorders(previous, next))
  }

  function PackingRequests(previous: JourneyData, next: JourneyData): seq<Request> {
    Flatten(PackingDrops(previous, next)) + Flatten(PackingWrites(previous, next))
  }

  /** Everything save sends, in order; every expected version is the one loaded before. */
  function SaveRequests(previous: JourneyData, next: JourneyData): seq<Request> {
    JourneyRequests(previous, next) + SegmentRequests(previous, next) + PackingRequests(previous, next)
  }

  // ---- what it is compared with ---

  const NO_STAMP := Stamp(1, "", "")

  ghost predicate SameJourneys(a: seq<Journey>, b: seq<Journey>) {
    |a| == |b| && forall i :: 0 <= i < |a| ==> a[i].(stamp := NO_STAMP) == b[i].(stamp := NO_STAMP)
  }

  ghost predicate SameSegments(a: seq<Segment>, b: seq<Segment>) {
    |a| == |b| && forall i :: 0 <= i < |a| ==> a[i].(stamp := NO_STAMP) == b[i].(stamp := NO_STAMP)
  }

  ghost predicate SamePacking(a: seq<PackingItem>, b: seq<PackingItem>) {
    |a| == |b| && forall i :: 0 <= i < |a| ==> a[i].(stamp := NO_STAMP) == b[i].(stamp := NO_STAMP)
  }

  /** Equal up to record versions and timestamps. */
  ghost predicate SameContent(a: JourneyData, b: JourneyData) {
    SameJourneys(a.journeys, b.journeys) && SameSegments(a.segments, b.segments) && SamePacking(a.packing, b.packing)
  }

  /** Every row is one the server would accept. */
  ghost predicate Acceptable(data: JourneyData) {
    && (forall i :: 0 <= i < |data.journeys| ==> AcceptsJourney(JourneyBodyOf(data.journeys[i])))
    && (forall i :: 0 <= i < |data.segments| ==> AcceptsSegment(SegmentBodyOf(data.segments[i])))
    && (forall i :: 0 <= i < |data.packing| ==> AcceptsPacking(PackingBodyOf(data.packing[i])))
  }

  // ---- flattening ---

  lemma {:induction false} FlattenNone(parts: seq<seq<Request>>)
    requires forall i :: 0 <= i < |parts| ==> parts[i] == []
    ensures Flatten(parts) == []
  {
    if parts != [] {
      FlattenNone(parts[1..]);
    }
  }

  lemma {:induction false} FlattenOne(parts: seq<seq<Request>>, k: nat)
    requires k < |parts| && (forall i :: 0 <= i < |parts| && i != k ==> parts[i] == [])
    ensures Flatten(parts) == parts[k]
  {
    if k == 0 {
      FlattenNone(parts[1..]);
    } else {
      FlattenOne(parts[1..], k - 1);
    }
  }

  // ---- lookups ---

  lemma {:induction false} JourneyAt(journeys: seq<Journey>, k: nat)
    requires DistinctJourneys(journeys) && k < |journeys|
    ensures FindJourney(journeys, journeys[k].id) == Some(journeys[k])
  {
    if k > 0 {
      assert journeys[0].id != journeys[k].id;
      assert DistinctJourneys(journeys[1..]);
      JourneyAt(journeys[1..], k - 1);
    }
  }

  lemma {:induction false} NoJourney(journeys: seq<Journey>, id: string)
    requires !HasJourney(journeys, id)
    ensures FindJourney(journeys, id).None?
  {
    if journeys != [] {
      assert journeys[0].id != id;
      forall i | 0 <= i < |journeys[1..]| ensures journeys[1..][i].id != id {
        assert journeys[i + 1] == journeys[1..][i];
      }
      NoJourney(journeys[1..], id);
    }
  }

  lemma {:induction false} SegmentAt(segments: seq<Segment>, k: nat)
    requires DistinctSegments(segments) && k < |segments|
    ensures SegmentById(segments, segments[k].id) == Some(segments[k])
    ensures FindSegment(segments, segments[k].journeyId, segments[k].id) == Some(segments[k])
  {
    if k > 0 {
      assert segments[0].id != segments[k].id;
      assert DistinctSegments(segments[1..]);
      SegmentAt(segments[1..], k - 1);
    }
  }

  lemma {:induction false} NoSegment(segments: seq<Segment>, id: string)
    requires !HasSegment(segments, id)
    ensures SegmentById(segments, id).None?
  {
    if segments != [] {
      assert segments[0].id != id;
      forall i | 0 <= i < |segments[1..]| ensures segments[1..][i].id != id {
        assert segments[i + 1] == segments[1..][i];
      }
      NoSegment(segments[1..], id);
    }
  }

  lemma {:induction false} PackingAt(packing: seq<PackingItem>, k: nat)
    requires DistinctPacking(packing) && k < |packing|
    ensures PackingById(packing, packing[k].id) == Some(packing[k])
    ensures FindPacking(packing, packing[k].journeyId, packing[k].id) == Some(packing[k])
  {
    if k > 0 {
      assert packing[0].id != packing[k].id;
      assert DistinctPacking(packing[1..]);
      PackingAt(packing[1..], k - 1);
    }
  }

  lemma {:induction false} NoPacking(packing: seq<PackingItem>, id: string)
    requires !HasPacking(packing, id)
    ensures PackingById(packing, id).None?
  {
    if packing != [] {
      assert packing[0].id != id;
      forall i | 0 <= i < |packing[1..]| ensures packing[1..][i].id != id {
        assert packing[i + 1] == packing[1..][i];
      }
      NoPacking(packing[1..], id);
    }
  }

  // ---- quiet phases ---

  /** Each journey is where it was, with the same fields, except perhaps the k-th. */
  ghost predicate JourneysKept(a: seq<Journey>, b: seq<Journey>, k: int) {
    && |a| == |b| && (forall i :: 0 <= i < |a| ==> a[i].id == b[i].id)
    && (forall i :: 0 <= i < |a| && i != k ==> !JourneyChanged(a[i], b[i]))
  }

  ghost predicate SegmentsKept(a: seq<Segment>, b: seq<Segment>, k: int) {
    && |a| == |b| && (forall i :: 0 <= i < |a| ==> a[i].id == b[i].id && a[i].journeyId == b[i].journeyId)
    && (forall i :: 0 <= i < |a| && i != k ==> SegmentBodyOf(a[i]) == SegmentBodyOf(b[i]))
  }

  ghost predicate PackingKept(a: seq<PackingItem>, b: seq<PackingItem>, k: int) {
    && |a| == |b| && (forall i :: 0 <= i < |a| ==> a[i].id == b[i].id && a[i].journeyId == b[i].journeyId)
    && (forall i :: 0 <= i < |a| && i != k ==> PackingBodyOf(a[i]) == PackingBodyOf(b[i]) && a[i].packed == b[i].packed)
  }

  /** With the same journeys, save sends at most the write of the changed one. */
  lemma JourneyPhase(previous: JourneyData, next: JourneyData, k: int)
    requires DistinctJourneys(previous.journeys) && JourneysKept(previous.journeys, next.journeys, k)
    ensures JourneyRequests(previous, next) == if 0 <= k < |next.journeys| then JourneyWrite(previous, next.journeys[k])
        else []
  {
    hide DistinctJourneys, FindJourney, JourneyWrite;
    forall i | 0 <= i < |previous.journeys| ensures JourneyDrops(previous, next)[i] == [] {
      assert next.journeys[i].id == previous.journeys[i].id;
    }
    FlattenNone(JourneyDrops(previous, next));
    forall i | 0 <= i < |next.journeys| && i != k ensures JourneyWrites(previous, next)[i] == [] {
      UnchangedJourney(previous, next.journeys[i], i);
    }
    if 0 <= k < |next.journeys| {
      FlattenOne(JourneyWrites(previous, next), k);
    } else {
      FlattenNone(JourneyWrites(previous, next));
    }
  }

  lemma UnchangedJourney(previous: JourneyData, j: Journey, i: nat)
    requires DistinctJourneys(previous.journeys) && i < |previous.journeys| && previous.journeys[i].id == j.id
    requires !JourneyChanged(previous.journeys[i], j)
    ensures JourneyWrite(previous, j) == []
  {
    JourneyAt(previous.journeys, i);
  }

  lemma UnchangedSegment(previous: JourneyData, s: Segment, i: nat)
    requires DistinctSegments(previous.segments) && i < |previous.segments| && previous.segments[i].id == s.id
    requires SegmentBodyOf(previous.segments[i]) == SegmentBodyOf(s)
    ensures SegmentWrite(previous, s) == []
  {
    SegmentAt(previous.segments, i);
  }

  lemma UnchangedPacking(previous: JourneyData, p: PackingItem, i: nat)
    requires DistinctPacking(previous.packing) && i < |previous.packing| && previous.packing[i].id == p.id
    requires PackingBodyOf(previous.packing[i]) == PackingBodyOf(p) && previous.packing[i].packed == p.packed
    ensures PackingWrite(previous, p) == []
  {
    PackingAt(previous.packing, i);
  }

  lemma {:induction false} NothingMoved(previous: JourneyData, before: seq<Segment>, after: seq<Segment>, k: nat)
    requires IdsOf(before) == IdsOf(after) && k <= |after|
    ensures Moved(previous, before, after, k).None?
    decreases |after| - k
  {
    if k < |after| {
      assert IdsOf(before)[k] == before[k].id && IdsOf(after)[k] == after[k].id;
      NothingMoved(previous, before, after, k + 1);
    }
  }

  ghost predicate SameRoutes(previous: JourneyData, next: JourneyData) {
    forall i :: 0 <= i < |next.journeys| ==>
      IdsOf(Route(previous.segments, next.journeys[i].id)) == IdsOf(Route(next.segments, next.journeys[i].id))
  }

  lemma NoReorders(previous: JourneyData, next: JourneyData)
    requires SameRoutes(previous, next)
    ensures Flatten(Reorders(previous, next)) == []
  {
    hide Route, Moved;
    forall i | 0 <= i < |next.journeys| ensures Reorders(previous, next)[i] == [] {
      var id := next.journeys[i].id;
      NothingMoved(previous, Route(previous.segments, id), Route(next.segments, id), 0);
    }
    FlattenNone(Reorders(previous, next));
  }

  /** With the same segments in the same routes, save sends at most the write of the changed one. */
  lemma SegmentPhase(previous: JourneyData, next: JourneyData, k: int)
    requires DistinctSegments(previous.segments) && SegmentsKept(previous.segments, next.segments, k) &&
        SameRoutes(previous, next)
    ensures SegmentRequests(previous, next) == if 0 <= k < |next.segments| then SegmentWrite(previous, next.segments[k])
        else []
  {
    hide DistinctSegments, SegmentById, SegmentWrite, SameRoutes, Reorders, HasJourney;
    NoReorders(previous, next);
    forall i | 0 <= i < |previous.segments| ensures SegmentDrops(previous, next)[i] == [] {
      assert next.segments[i].id == previous.segments[i].id;
    }
    FlattenNone(SegmentDrops(previous, next));
    forall i | 0 <= i < |next.segments| && i != k ensures SegmentWrites(previous, next)[i] == [] {
      UnchangedSegment(previous, next.segments[i], i);
    }
    if 0 <= k < |next.segments| {
      FlattenOne(SegmentWrites(previous, next), k);
    } else {
      FlattenNone(SegmentWrites(previous, next));
    }
  }

  lemma PackingPhase(previous: JourneyData, next: JourneyData, k: int)
    requires DistinctPacking(previous.packing) && PackingKept(previous.packing, next.packing, k)
    ensures PackingRequests(previous, next) == if 0 <= k < |next.packing| then PackingWrite(previous, next.packing[k])
        else []
  {
    hide DistinctPacking, PackingById, PackingWrite, HasJourney;
    forall i | 0 <= i < |previous.packing| ensures PackingDrops(previous, next)[i] == [] {
      assert next.packing[i].id == previous.packing[i].id;
    }
    FlattenNone(PackingDrops(previous, next));
    forall i | 0 <= i < |next.packing| && i != k ensures PackingWrites(previous, next)[i] == [] {
      UnchangedPacking(previous, next.packing[i], i);
    }
    if 0 <= k < |next.packing| {
      FlattenOne(PackingWrites(previous, next), k);
    } else {
      FlattenNone(PackingWrites(previous, next));
    }
  }

  lemma SameSegmentsSameRoutes(previous: JourneyData, next: JourneyData)
    requires next.segments == previous.segments
    ensures SameRoutes(previous, next)
  {
    hide Route;
  }

  lemma QuietSegments(previous: JourneyData, next: JourneyData)
    requires DistinctSegments(previous.segments) && next.segments == previous.segments
    ensures SegmentRequests(previous, next) == []
  {
    hide DistinctSegments, SegmentRequests;
    SameSegmentsSameRoutes(previous, next);
    SegmentPhase(previous, next, -1);
  }

  lemma QuietPacking(previous: JourneyData, next: JourneyData)
    requires DistinctPacking(previous.packing) && next.packing == previous.packing
    ensures PackingRequests(previous, next) == []
  {
    hide DistinctPacking, PackingRequests;
    PackingPhase(previous, next, -1);
  }

  /** A service edit of segments or packing only touches a journey's timestamp, which is not compared. */
  lemma QuietJourneys(previous: JourneyData, next: JourneyData, journeyId: string, now: string)
    requires DistinctJourneys(previous.journeys)
    requires next.journeys == Touch(previous.journeys, journeyId, now) || next.journeys == previous.journeys
    ensures JourneyRequests(previous, next) == []
  {
    hide DistinctJourneys, JourneyRequests;
    JourneyPhase(previous, next, -1);
  }

  // ---- running ---

  lemma RunNone(db: JourneyData, now: string)
    ensures ServeAll(db, [], now) == Ok(db)
  {
  }

  lemma RunOne(db: JourneyData, request: Request, now: string)
    ensures ServeAll(db, [request], now) == Serve(db, request, now)
  {
    hide Serve;
    match Serve(db, request, now) {
      case Err(_) =>
      case Ok(next) => RunNone(next, now);
    }
  }

  lemma RunTwo(db: JourneyData, first: Request, second: Request, now: string)
    ensures ServeAll(db, [first, second], now) ==
              match Serve(db, first, now) case Err(error) => Err(error) case Ok(next) => Serve(next, second, now)
  {
    hide Serve;
    match Serve(db, first, now) {
      case Err(_) =>
      case Ok(next) =>
        RunOne(next, second, now);
        assert [first, second][1..] == [second];
    }
  }
}
