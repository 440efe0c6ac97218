/** Save as the user meets it: the client refuses some bodies, the network loses requests and answers, the storage
    may refuse an oversize reorder. A save succeeds exactly when nothing of that happens to an edit both sides
    accept, and a failed one never leaves anything between the old and the edited state. */
module SaveOutcomes {
  import opened Basics
  import opened JourneyDomain
  import opened JourneyService
  import opened JourneyEdits
  import opened JourneyDatabase
  import opened JourneyTables
  import opened JourneyRuns
  import opened JourneySave
  import opened JourneyRefinement
  import opened RouteRefinement
  import opened SaveRefinement
  import opened CalendarDate
  import opened JourneyClient
  import CommandExecutor

  // ---- what can be saved ---

  /** Every date is one the client's own check knows; answers are checked too, so loaded data is always so. */
  ghost predicate Contracted(data: JourneyData) {
    && (forall i :: 0 <= i < |data.journeys| ==> ContractDates(data.journeys[i].startDate, data.journeys[i].endDate))
    && (forall i :: 0 <= i < |data.segments| ==> ContractDates(data.segments[i].startDate, data.segments[i].endDate))
  }

  /** Both the client's check and the server's accept every row. */
  ghost predicate Storable(next: JourneyData) {
    Acceptable(next) && Contracted(next)
  }

  /** The network loses nothing of these requests, and no reorder of an oversize route meets a taken position. */
  ghost predicate Delivered(requests: seq<Request>, next: JourneyData, fates: Request -> Fate) {
    forall i :: 0 <= i < |requests| ==>
      && !fates(requests[i]).requestLost && !fates(requests[i]).replyLost
      && !Clashes(next, requests[i], fates(requests[i]))
  }

  /** No command of this user carries an identifier that is still to be drawn. */
  ghost predicate Unused(client: Client, s: Session) {
    forall n: nat :: n >= s.drawn ==> OwnKey(client, client.random(n)) !in s.server.receipts
  }

  ghost predicate NeverRepeats(client: Client) {
    forall m: nat, n: nat :: client.random(m) == client.random(n) ==> m == n
  }

  /** The state right after a load. */
  ghost predicate Loaded(client: Client, s: Session, parseable: string -> bool) {
    Hosted(s.server.db, parseable) && Contracted(s.server.db) && s.pending == map[] && Unused(client, s)
  }

  // ---- dates ---

  lemma {:induction false} Flattened(parts: seq<seq<Request>>, r: Request)
    ensures r in Flatten(parts) <==> exists i :: 0 <= i < |parts| && r in parts[i]
  {
    if parts != [] {
      Flattened(parts[1..], r);
      forall i | 0 <= i < |parts| && r in parts[i] ensures r in Flatten(parts) {
        if i > 0 {
          assert parts[1..][i - 1] == parts[i];
        }
      }
    }
  }

  lemma {:induction false} FindJourneyMember(journeys: seq<Journey>, id: string)
    ensures FindJourney(journeys, id).Some? ==> FindJourney(journeys, id).value in journeys
  {
    if journeys != [] {
      FindJourneyMember(journeys[1..], id);
    }
  }

  lemma {:induction false} SegmentByIdMember(segments: seq<Segment>, id: string)
    ensures SegmentById(segments, id).Some? ==> SegmentById(segments, id).value in segments
  {
    if segments != [] {
      SegmentByIdMember(segments[1..], id);
    }
  }

  ghost predicate AllCarried(requests: seq<Request>) {
    forall r :: r in requests ==> CarriedDates(r)
  }

  lemma JourneyDates(db: JourneyData, j: Journey)
    requires Contracted(db)
    ensures AllCarried(JourneyWrite(db, j)) <==> ContractDates(j.startDate, j.endDate)
  {
    hide ValidDate, ContractDates;
    FindJourneyMember(db.journeys, j.id);
    var write := JourneyWrite(db, j);
    if write != [] {
      assert write == [write[0]] && write[0] in write;
    }
  }

  lemma SegmentDates(db: JourneyData, s: Segment)
    requires Contracted(db)
    ensures AllCarried(SegmentWrite(db, s)) <==> ContractDates(s.startDate, s.endDate)
  {
    hide ValidDate, ContractDates;
    SegmentByIdMember(db.segments, s.id);
    var write := SegmentWrite(db, s);
    if write != [] {
      assert write == [write[0]] && write[0] in write;
    } else {
      assert SegmentBodyOf(SegmentById(db.segments, s.id).value) == SegmentBodyOf(s);
    }
  }

  lemma PartsCarried(parts: seq<seq<Request>>)
    ensures AllCarried(Flatten(parts)) <==> forall i :: 0 <= i < |parts| ==> AllCarried(parts[i])
  {
    hide CarriedDates;
    if AllCarried(Flatten(parts)) {
      forall i, r | 0 <= i < |parts| && r in parts[i] ensures CarriedDates(r) {
        Flattened(parts, r);
      }
    }
    if forall i :: 0 <= i < |parts| ==> AllCarried(parts[i]) {
      forall r | r in Flatten(parts) ensures CarriedDates(r) {
        Flattened(parts, r);
      }
    }
  }

  lemma DatelessParts(db: JourneyData, next: JourneyData)
    ensures AllCarried(Flatten(JourneyDrops(db, next))) && AllCarried(Flatten(SegmentDrops(db, next)))
    ensures AllCarried(Flatten(Reorders(db, next))) && AllCarried(PackingRequests(db, next))
  {
    hide Flatten, Route, Moved;
    PartsCarried(JourneyDrops(db, next));
    PartsCarried(SegmentDrops(db, next));
    PartsCarried(Reorders(db, next));
    PartsCarried(PackingDrops(db, next));
    PartsCarried(PackingWrites(db, next));
  }

  lemma AllCarriedPlus(a: seq<Request>, b: seq<Request>)
    ensures AllCarried(a + b) <==> AllCarried(a) && AllCarried(b)
  {
    hide CarriedDates;
    forall r ensures r in a + b <==> r in a || r in b {
    }
  }

  /** All dates sent pass the client's check exactly when all dates of the edited data do. */
  lemma SentDates(db: JourneyData, next: JourneyData)
    requires Contracted(db)
    ensures AllCarried(SaveRequests(db, next)) <==> Contracted(next)
  {
    var jd, jw := Flatten(JourneyDrops(db, next)), Flatten(JourneyWrites(db, next));
    var sd, sw, sr := Flatten(SegmentDrops(db, next)), Flatten(SegmentWrites(db, next)), Flatten(Reorders(db, next));
    hide AllCarried, JourneyDrops, SegmentDrops, Reorders, PackingRequests, Flatten, JourneyWrite, SegmentWrite,
        ContractDates;
    DatelessParts(db, next);
    PartsCarried(JourneyWrites(db, next));
    PartsCarried(SegmentWrites(db, next));
    AllCarriedPlus(jd, jw);
    AllCarriedPlus(sd, sw);
    AllCarriedPlus(sd + sw, sr);
    AllCarriedPlus(JourneyRequests(db, next), SegmentRequests(db, next));
    AllCarriedPlus(JourneyRequests(db, next) + SegmentRequests(db, next), PackingRequests(db, next));
    forall i | 0 <= i < |next.journeys|
      ensures AllCarried(JourneyWrites(db, next)[i]) <==>
          ContractDates(next.journeys[i].startDate, next.journeys[i].endDate)
    {
      JourneyDates(db, next.journeys[i]);
    }
    forall i | 0 <= i < |next.segments|
      ensures AllCarried(SegmentWrites(db, next)[i]) <==>
          ContractDates(next.segments[i].startDate, next.segments[i].endDate)
    {
      SegmentDates(db, next.segments[i]);
    }
  }

  // ---- one request ---

  /** The request takes effect. */
  ghost predicate Reaches(db: JourneyData, request: Request, now: string, fate: Fate) {
    Serve(db, request, now).Ok? && CarriedDates(request) && !fate.requestLost && !Clashes(db, request, fate)
  }

  lemma AttemptOutcome(client: Client, s: Session, request: Request, now: string, fate: Fate)
    requires DistinctJourneys(s.server.db.journeys) || !request.PutJourney?
    requires s.pending == map[] && Unused(client, s)
    ensures var reply := Attempt(client, s, request, now, fate);
            && (reply.problem.None? <==> Reaches(s.server.db, request, now, fate) && !fate.replyLost)
            && reply.session.server.db ==
                 if Reaches(s.server.db, request, now, fate) then Serve(s.server.db, request, now).value
                 else s.server.db
  {
    hide DistinctJourneys, ContractAccepts, CarriedDates, Serve, AnswerUpdate, Unused;
    if Serve(s.server.db, request, now).Ok? {
      ServedContract(s.server.db, request, now);
    }
    if request.PutJourney? {
      NextUnused(client, s);
      FreshUpdateServes(s.server, client.context, request, client.random(s.drawn), fate.changeSetId, now);
    }
  }

  lemma NextUnused(client: Client, s: Session)
    requires Unused(client, s)
    ensures OwnKey(client, client.random(s.drawn)) !in s.server.receipts
  {
  }

  /** Only the identifier drawn for this attempt gets a receipt. */
  lemma AttemptUnused(client: Client, s: Session, request: Request, now: string, fate: Fate)
    requires NeverRepeats(client) && Unused(client, s) && s.pending == map[]
    ensures Unused(client, Attempt(client, s, request, now, fate).session)
    ensures !request.PutJourney? ==> Attempt(client, s, request, now, fate).session.pending == map[]
  {
    hide Serve, ContractAccepts;
    if request.PutJourney? {
      UpdateReceipts(s.server, client.context, request, client.random(s.drawn), fate.changeSetId, now);
      hide AnswerUpdate;
    }
  }

  lemma UpdateReceipts(server: Server, context: CommandExecutor.Context, request: Request, commandId: string,
      changeSetId: string, now: string)
    requires request.PutJourney?
    ensures var own := CommandExecutor.Key(context.workspaceId, context.userId, commandId);
            var after := AnswerUpdate(server, context, request, commandId, changeSetId, now).server;
            forall key :: key in after.receipts ==> key in server.receipts || key == own
  {
    hide AcceptsJourney, JourneyRows, WrittenBack;
  }

  lemma AttemptKeeps(client: Client, s: Session, request: Request, now: string, fate: Fate, parseable: string -> bool)
    requires DistinctJourneys(s.server.db.journeys) || !request.PutJourney?
    requires s.pending == map[] && Unused(client, s)
    requires GoodStamps(s.server.db, parseable) && Trimmed(s.server.db) && Timestamp(now, parseable)
    ensures var db := Attempt(client, s, request, now, fate).session.server.db;
            GoodStamps(db, parseable) && Trimmed(db)
  {
    hide Attempt, GoodStamps, Trimmed, Serve, Unused, DistinctJourneys, Timestamp, CarriedDates, ServeAll;
    AttemptOutcome(client, s, request, now, fate);
    RunOne(s.server.db, request, now);
    if Serve(s.server.db, request, now).Ok? {
      RunKeeps(s.server.db, [request], now, parseable);
    }
  }

  lemma ReorderCounts(db: JourneyData, request: Request, now: string, next: JourneyData, fate: Fate)
    requires Serve(db, request, now).Ok? && SameContent(Serve(db, request, now).value, next)
    ensures Clashes(db, request, fate) <==> Clashes(next, request, fate)
  {
    if request.Reorder? {
      hide Route, MoveTo, TouchRow, HasJourney, FindSegment, Owned, SameJourneys, SamePacking;
      var after := Serve(db, request, now).value;
      OwnedCount(after.segments, db.segments, request.journeyId);
      SameCounts(after.segments, next.segments, request.journeyId);
    }
  }

  lemma SameCounts(a: seq<Segment>, b: seq<Segment>, journeyId: string)
    requires SameSegments(a, b)
    ensures |Owned(a, journeyId)| == |Owned(b, journeyId)|
  {
    hide Owned, SameSegments;
    forall i | 0 <= i < |a| && i < |b| ensures a[i].journeyId == b[i].journeyId {
      SegmentContent(a, b, i);
    }
    SameLengths(a, b);
    OwnedCount(a, b, journeyId);
  }

  lemma SameLengths(a: seq<Segment>, b: seq<Segment>)
    requires SameSegments(a, b)
    ensures |a| == |b|
  {
  }

  // ---- one save ---

  /** What a save that was sent may leave: the tables as they were, or the edited content. */
  ghost predicate OldOrNew(db: JourneyData, next: JourneyData, after: JourneyData) {
    after == db || (SameContent(after, next) && Storable(next))
  }

  /** The reply to a save is right: success exactly for storable, delivered data, and never a state in between. */
  ghost predicate Settles(db: JourneyData, next: JourneyData, fates: Request -> Fate, reply: Reply) {
    && (reply.problem.None? <==> Storable(next) && Delivered(SaveRequests(db, next), next, fates))
    && (reply.problem.None? ==> SameContent(reply.session.server.db, next))
    && OldOrNew(db, next, reply.session.server.db)
  }

  /** What carries over to the next save. */
  ghost predicate Carries(client: Client, s: Session, parseable: string -> bool) {
    GoodStamps(s.server.db, parseable) && Trimmed(s.server.db) && Unused(client, s)
  }

  lemma LoadedCarries(client: Client, s: Session, parseable: string -> bool)
    requires Loaded(client, s, parseable)
    ensures Carries(client, s, parseable)
  {
    hide Hosted, GoodStamps, Trimmed, Unused, Contracted, Accepted;
    HostedParts(s.server.db, parseable);
    AcceptedStamps(s.server.db, parseable);
  }

  lemma NothingSent(client: Client, s: Session, next: JourneyData, time: string, fates: Request -> Fate)
    requires SaveRequests(s.server.db, next) == [] && Contracted(s.server.db)
    requires Brings(ServeAll(s.server.db, [], time), next)
    ensures Settles(s.server.db, next, fates, RunAll(client, s, [], time, fates))
    ensures RunAll(client, s, [], time, fates) == Reply(s, None)
  {
    hide SaveRequests, Contracted, Acceptable, SameContent;
    RunNone(s.server.db, time);
    SentDates(s.server.db, next);
  }

  lemma OneSent(client: Client, s: Session, next: JourneyData, request: Request, time: string, fates: Request -> Fate)
    requires SaveRequests(s.server.db, next) == [request] && Contracted(s.server.db)
    requires DistinctJourneys(s.server.db.journeys) && s.pending == map[] && Unused(client, s)
    requires Brings(ServeAll(s.server.db, [request], time), next)
    ensures Settles(s.server.db, next, fates, RunAll(client, s, [request], time, fates))
    ensures RunAll(client, s, [request], time, fates) == Attempt(client, s, request, time, fates(request))
  {
    hide SaveRequests, Contracted, Acceptable, SameContent, DistinctJourneys, Unused, Attempt, Serve, ServeAll, Clashes,
        CarriedDates;
    var db, fate := s.server.db, fates(request);
    RunOne(db, request, time);
    SentDates(db, next);
    assert AllCarried([request]) <==> CarriedDates(request);
    AttemptOutcome(client, s, request, time, fate);
    RunLast(client, s, request, time, fates);
    if Serve(db, request, time).Ok? {
      ReorderCounts(db, request, time, next, fate);
    }
  }

  lemma RunLast(client: Client, s: Session, request: Request, time: string, fates: Request -> Fate)
    ensures RunAll(client, s, [request], time, fates) == Attempt(client, s, request, time, fates(request))
  {
    hide Attempt;
    assert [request][1..] == [];
  }

  lemma RunPair(client: Client, s: Session, first: Request, second: Request, time: string, fates: Request -> Fate)
    ensures var reply := Attempt(client, s, first, time, fates(first));
            RunAll(client, s, [first, second], time, fates) ==
              if reply.problem.Some? then reply else Attempt(client, reply.session, second, time, fates(second))
  {
    hide Attempt;
    assert [first, second][1..] == [second];
    RunLast(client, Attempt(client, s, first, time, fates(first)).session, second, time, fates);
  }

  /** A deletion that moves others up: the delete already brings the edited content, the reorder adds nothing. */
  lemma TwoSent(client: Client, s: Session, next: JourneyData, journeyId: string, itemId: string, second: Request,
      now: string, time: string, fates: Request -> Fate, parseable: string -> bool)
    requires NeverRepeats(client) && Loaded(client, s, parseable)
    requires HasJourney(s.server.db.journeys, journeyId) && FindSegment(s.server.db.segments, journeyId, itemId).Some?
    requires next == s.server.db.(segments := AfterDrop(s.server.db.segments, journeyId, itemId),
        journeys := Touch(s.server.db.journeys, journeyId, now))
    requires second.Reorder? && SaveRequests(s.server.db, next) == [DropSegmentOf(journeyId, itemId), second]
    requires Brings(ServeAll(s.server.db, [DropSegmentOf(journeyId, itemId), second], time), next)
    ensures Settles(s.server.db, next, fates, RunAll(client, s, SaveRequests(s.server.db, next), time, fates))
    ensures Timestamp(time, parseable) ==>
        Carries(client, RunAll(client, s, SaveRequests(s.server.db, next), time, fates).session, parseable)
  {
    hide SaveRequests, Contracted, Acceptable, Hosted, DistinctJourneys, Unused, Attempt, Serve, ServeAll,
        HasJourney, AfterDrop, Touch, FindSegment, RunAll, Clashes, NeverRepeats, GoodStamps, Trimmed, Timestamp,
        Carries;
    var db, first := s.server.db, DropSegmentOf(journeyId, itemId);
    var half := Dropped(db, journeyId, itemId, time);
    HostedParts(db, parseable);
    DropServes(db, journeyId, itemId, time);
    DropAcceptable(db, next, journeyId, itemId, now);
    DropBringsAlone(db, next, journeyId, itemId, now, time);
    RunTwo(db, first, second, time);
    SentDates(db, next);
    AttemptOutcome(client, s, first, time, fates(first));
    AttemptUnused(client, s, first, time, fates(first));
    RunPair(client, s, first, second, time, fates);
    assert CarriedDates(first) && CarriedDates(second);
    TwoSettled(client, s, next, first, second, half, time, fates);
    if Timestamp(time, parseable) {
      LoadedCarries(client, s, parseable);
      TwoCarried(client, s, first, second, time, fates, parseable);
    }
  }

  function DropSegmentOf(journeyId: string, itemId: string): Request {
    Request.DropSegment(journeyId, itemId)
  }

  lemma TwoSettled(client: Client, s: Session, next: JourneyData, first: Request, second: Request, half: JourneyData,
      time: string, fates: Request -> Fate)
    requires Serve(s.server.db, first, time) == Ok(half) && SameContent(half, next) && first.DropSegment?
    requires second.Reorder? && Serve(half, second, time).Ok? && SameContent(Serve(half, second, time).value, next)
    requires s.pending == map[] && Unused(client, s) && Storable(next) && NeverRepeats(client)
    requires SaveRequests(s.server.db, next) == [first, second]
    ensures Settles(s.server.db, next, fates, RunAll(client, s, [first, second], time, fates))
  {
    hide SaveRequests, Storable, SameContent, DistinctJourneys, Unused, Attempt, Serve, RunAll, NeverRepeats;
    AttemptOutcome(client, s, first, time, fates(first));
    AttemptUnused(client, s, first, time, fates(first));
    RunPair(client, s, first, second, time, fates);
    var reply := Attempt(client, s, first, time, fates(first));
    ReorderCounts(half, second, time, next, fates(second));
    if reply.problem.None? {
      AttemptOutcome(client, reply.session, second, time, fates(second));
    }
    PairDelivered(first, second, next, fates);
  }

  lemma PairDelivered(first: Request, second: Request, next: JourneyData, fates: Request -> Fate)
    requires !first.Reorder?
    ensures Delivered([first, second], next, fates) <==>
              && !fates(first).requestLost && !fates(first).replyLost
              && !fates(second).requestLost && !fates(second).replyLost && !Clashes(next, second, fates(second))
  {
    assert [first, second][0] == first && [first, second][1] == second;
  }

  lemma TwoCarried(client: Client, s: Session, first: Request, second: Request, time: string, fates: Request -> Fate,
      parseable: string -> bool)
    requires !first.PutJourney? && !second.PutJourney? && s.pending == map[] && NeverRepeats(client)
    requires Carries(client, s, parseable) && Timestamp(time, parseable)
    ensures Carries(client, RunAll(client, s, [first, second], time, fates).session, parseable)
  {
    hide Attempt, RunAll, GoodStamps, Trimmed, Unused, Timestamp, NeverRepeats, DistinctJourneys;
    AttemptKeeps(client, s, first, time, fates(first), parseable);
    AttemptUnused(client, s, first, time, fates(first));
    RunPair(client, s, first, second, time, fates);
    var reply := Attempt(client, s, first, time, fates(first));
    if reply.problem.None? {
      AttemptKeeps(client, reply.session, second, time, fates(second), parseable);
      AttemptUnused(client, reply.session, second, time, fates(second));
    }
  }

  // ---- every edit ---

  /** What save leads to from a loaded state. */
  ghost predicate SavesWell(client: Client, s: Session, next: JourneyData, time: string, fates: Request -> Fate,
      parseable: string -> bool) {
    var reply := RunAll(client, s, SaveRequests(s.server.db, next), time, fates);
    Settles(s.server.db, next, fates, reply) &&
        (Timestamp(time, parseable) ==> Carries(client, reply.session, parseable))
  }

  lemma FewSent(client: Client, s: Session, next: JourneyData, time: string, fates: Request -> Fate,
      parseable: string -> bool)
    requires NeverRepeats(client) && Loaded(client, s, parseable) && |SaveRequests(s.server.db, next)| <= 1
    requires Brings(ServeAll(s.server.db, SaveRequests(s.server.db, next), time), next)
    ensures SavesWell(client, s, next, time, fates, parseable)
  {
    hide SaveRequests, Contracted, Hosted, DistinctJourneys, Unused, Attempt, ServeAll, Brings, RunAll, NeverRepeats,
        GoodStamps, Trimmed, Timestamp, Settles;
    var db, requests := s.server.db, SaveRequests(s.server.db, next);
    HostedParts(db, parseable);
    LoadedCarries(client, s, parseable);
    if requests == [] {
      NothingSent(client, s, next, time, fates);
    } else {
      assert requests == [requests[0]];
      OneSent(client, s, next, requests[0], time, fates);
      AttemptUnused(client, s, requests[0], time, fates(requests[0]));
      if Timestamp(time, parseable) {
        AttemptKeeps(client, s, requests[0], time, fates(requests[0]), parseable);
      }
    }
  }

  lemma DeletionSaves(client: Client, s: Session, journeyId: string, itemId: string, id: string, now: string,
      time: string, fates: Request -> Fate, parseable: string -> bool)
    requires NeverRepeats(client) && Loaded(client, s, parseable)
    requires Apply(s.server.db, DeleteSegment(journeyId, itemId), id, now).Ok?
    ensures SavesWell(client, s, Apply(s.server.db, DeleteSegment(journeyId, itemId), id, now).value, time, fates,
                parseable)
  {
    hide Contracted, Hosted, DistinctJourneys, Unused, ServeAll, Brings, RunAll, NeverRepeats, SaveRequests,
        SavesWell, Route, Touch, HasJourney, FindSegment, HasSegment, SegmentById, Ranked, Accepted, Carries, Settles;
    var db := s.server.db;
    var next := Apply(db, DeleteSegment(journeyId, itemId), id, now).value;
    FilterSame(db.segments, (x: Segment) => x.id != itemId, (x: Segment) => x.id != itemId);
    HostedParts(db, parseable);
    DropBrings(db, journeyId, itemId, now, time, parseable);
    var d := DropSends(db, next, journeyId, itemId, now);
    if d.None? {
      FewSent(client, s, next, time, fates, parseable);
    } else {
      var moved := IdsOf(Route(next.segments, journeyId))[d.value];
      var second := Reorder(journeyId, moved, SegmentById(db.segments, moved).value.stamp.version, d.value);
      TwoSent(client, s, next, journeyId, itemId, second, now, time, fates, parseable);
      PairSaves(client, s, next, time, fates, parseable);
    }
  }

  lemma PairSaves(client: Client, s: Session, next: JourneyData, time: string, fates: Request -> Fate,
      parseable: string -> bool)
    requires Settles(s.server.db, next, fates, RunAll(client, s, SaveRequests(s.server.db, next), time, fates))
    requires Timestamp(time, parseable) ==>
        Carries(client, RunAll(client, s, SaveRequests(s.server.db, next), time, fates).session, parseable)
    ensures SavesWell(client, s, next, time, fates, parseable)
  {
    hide Settles, Carries, RunAll, SaveRequests;
  }

  lemma EditSaves(client: Client, s: Session, edit: Edit, id: string, now: string, time: string,
      fates: Request -> Fate, parseable: string -> bool)
    requires NeverRepeats(client) && Loaded(client, s, parseable)
    requires FreshId(s.server.db, id) && Apply(s.server.db, edit, id, now).Ok?
    ensures SavesWell(client, s, Apply(s.server.db, edit, id, now).value, time, fates, parseable)
  {
    hide Hosted, FreshId, SaveRequests, ServeAll, Apply, SavesWell, Unused, NeverRepeats, Contracted;
    if edit.DeleteSegment? {
      DeletionSaves(client, s, edit.journeyId, edit.itemId, id, now, time, fates, parseable);
    } else {
      ServerRefinesEdit(s.server.db, edit, id, now, time, parseable);
      FewSent(client, s, Apply(s.server.db, edit, id, now).value, time, fates, parseable);
    }
  }

  /** For every single edit of loaded data a save succeeds exactly when client and server accept every row, the
      network loses nothing and no oversize reorder is refused; the server then holds the edited data up to
      versions and timestamps. */
  lemma SaveRefinesEdit(client: Client, s: Session, edit: Edit, id: string, now: string, time: string,
      fates: Request -> Fate, parseable: string -> bool)
    requires NeverRepeats(client) && Loaded(client, s, parseable)
    requires FreshId(s.server.db, id) && Apply(s.server.db, edit, id, now).Ok?
    ensures var db := s.server.db;
            var next := Apply(db, edit, id, now).value;
            var requests := SaveRequests(db, next);
            var reply := RunAll(client, s, requests, time, fates);
            && (reply.problem.None? <==> Storable(next) && Delivered(requests, next, fates))
            && (reply.problem.None? ==> SameContent(reply.session.server.db, next))
  {
    hide FreshId, SaveRequests, Apply, Loaded, NeverRepeats, Storable, Delivered, SameContent, RunAll;
    EditSaves(client, s, edit, id, now, time, fates, parseable);
  }

  /** Whatever is lost or refused on the way, a save leaves the old tables or the edited content, never a part. */
  lemma SaveIsWhole(client: Client, s: Session, edit: Edit, id: string, now: string, time: string,
      fates: Request -> Fate, parseable: string -> bool)
    requires NeverRepeats(client) && Loaded(client, s, parseable)
    requires FreshId(s.server.db, id) && Apply(s.server.db, edit, id, now).Ok?
    ensures var next := Apply(s.server.db, edit, id, now).value;
            var after := RunAll(client, s, SaveRequests(s.server.db, next), time, fates).session.server.db;
            after == s.server.db || (SameContent(after, next) && Storable(next))
  {
    hide FreshId, SaveRequests, Apply, Loaded, NeverRepeats, Storable, Delivered, SameContent, RunAll;
    EditSaves(client, s, edit, id, now, time, fates, parseable);
  }

  // ---- any number of saves ---

  lemma ContractedContent(a: JourneyData, b: JourneyData)
    requires SameContent(a, b) && Contracted(b)
    ensures Contracted(a)
  {
    hide ContractDates, SameJourneys, SameSegments, SamePacking;
    ContentLengths(a, b);
    forall i | 0 <= i < |a.journeys|
      ensures ContractDates(a.journeys[i].startDate, a.journeys[i].endDate)
    {
      JourneyContent(a.journeys, b.journeys, i);
    }
    forall i | 0 <= i < |a.segments|
      ensures ContractDates(a.segments[i].startDate, a.segments[i].endDate)
    {
      SegmentContent(a.segments, b.segments, i);
    }
  }

  function Reloaded(s: Session): Session {
    s.(pending := map[])
  }

  /** A reload after any save, successful or not, gives a state from which the next edit can be saved. */
  lemma SavedLoaded(client: Client, s: Session, edit: Edit, id: string, now: string, time: string,
      fates: Request -> Fate, parseable: string -> bool)
    requires NeverRepeats(client) && Loaded(client, s, parseable) && Timestamp(now, parseable) &&
        Timestamp(time, parseable)
    requires FreshId(s.server.db, id) && Apply(s.server.db, edit, id, now).Ok?
    ensures var next := Apply(s.server.db, edit, id, now).value;
            Loaded(client, Reloaded(RunAll(client, s, SaveRequests(s.server.db, next), time, fates).session), parseable)
  {
    hide FreshId, SaveRequests, Apply, NeverRepeats, Acceptable, Contracted, SameContent, RunAll, Accepted, Dense,
        Timestamp, GoodStamps, Trimmed, Unused;
    var next := Apply(s.server.db, edit, id, now).value;
    var after := RunAll(client, s, SaveRequests(s.server.db, next), time, fates).session;
    EditSaves(client, s, edit, id, now, time, fates, parseable);
    ReloadUnused(client, after);
    if after.server.db != s.server.db {
      AcceptableDates(s.server.db, edit, id, now, parseable);
      EditKeeps(s.server.db, edit, id, now, parseable);
      ContentSound(after.server.db, next, parseable);
      ContractedContent(after.server.db, next);
    }
  }

  lemma ReloadUnused(client: Client, s: Session)
    requires Unused(client, s)
    ensures Unused(client, Reloaded(s))
  {
  }

  /** One edit, its save and the reload that follows. */
  datatype Visit = Visit(edit: Edit, id: string, now: string, time: string, fates: Request -> Fate)

  ghost function Commit(client: Client, s: Session, v: Visit): Session {
    match Apply(s.server.db, v.edit, v.id, v.now)
    case Err(_) => s
    case Ok(next) => Reloaded(RunAll(client, s, SaveRequests(s.server.db, next), v.time, v.fates).session)
  }

  ghost function CommitAll(client: Client, s: Session, visits: seq<Visit>): Session
    decreases |visits|
  {
    if visits == [] then s else CommitAll(client, Commit(client, s, visits[0]), visits[1..])
  }

  ghost predicate Orderly(client: Client, s: Session, visits: seq<Visit>, parseable: string -> bool)
    decreases |visits|
  {
    visits == [] ||
      (&& FreshId(s.server.db, visits[0].id) && Timestamp(visits[0].now, parseable) &&
          Timestamp(visits[0].time, parseable)
       && Orderly(client, Commit(client, s, visits[0]), visits[1..], parseable))
  }

  /** Every visit leaves the tables alone or brings its own edited content. */
  ghost predicate Tracks(client: Client, s: Session, visits: seq<Visit>)
    decreases |visits|
  {
    visits == [] ||
      (&& (match Apply(s.server.db, visits[0].edit, visits[0].id, visits[0].now)
           case Err(_) => Commit(client, s, visits[0]).server.db == s.server.db
           case Ok(next) => OldOrNew(s.server.db, next, Commit(client, s, visits[0]).server.db))
       && Tracks(client, Commit(client, s, visits[0]), visits[1..]))
  }

  /** Through any number of edits, saves, failures and reloads every save starts from loaded data and either
      brings its edit whole or changes nothing. */
  lemma {:induction false} EverySaveIsWhole(client: Client, s: Session, visits: seq<Visit>, parseable: string -> bool)
    requires NeverRepeats(client) && Loaded(client, s, parseable) && Orderly(client, s, visits, parseable)
    ensures Loaded(client, CommitAll(client, s, visits), parseable) && Tracks(client, s, visits)
    decreases |visits|
  {
    hide FreshId, Timestamp, Apply, SaveRequests, RunAll, NeverRepeats, Loaded, SameContent, Storable;
    if visits != [] {
      var v := visits[0];
      if Apply(s.server.db, v.edit, v.id, v.now).Ok? {
        SavedLoaded(client, s, v.edit, v.id, v.now, v.time, v.fates, parseable);
        SaveIsWhole(client, s, v.edit, v.id, v.now, v.time, v.fates, parseable);
      }
      EverySaveIsWhole(client, Commit(client, s, v), visits[1..], parseable);
    }
  }

  // ---- where a save fails ---

  /** A new journey that starts before the year 100 is in order for the service and for the server, but the client
      refuses to send it. */
  lemma FirstCenturyRefused(client: Client, s: Session, input: JourneyInput, id: string, now: string, time: string,
      fates: Request -> Fate, parseable: string -> bool)
    requires Loaded(client, s, parseable) && FreshId(s.server.db, id) && ValidateJourney(input) == []
    requires AcceptsJourney(JourneyBody(Trim(input.name), Dated(input.startDate), Dated(input.endDate)))
    requires input.startDate != "" && Number(input.startDate[..4]) < 100
    ensures var next := Apply(s.server.db, CreateJourney(input), id, now).value;
            && Acceptable(next) && !Storable(next)
            && ServeAll(s.server.db, SaveRequests(s.server.db, next), time).Ok?
            && RunAll(client, s, SaveRequests(s.server.db, next), time, fates) == Reply(s, Some(InvalidRequest))
  {
    hide Loaded, Hosted, FreshId, Trim, SaveRequests, ServeAll, RunAll, Brings, Acceptable, DistinctJourneys,
        DistinctSegments, DistinctPacking, Number, HasJourney, ValidateJourney;
    var db := s.server.db;
    var j := Journey(id, Trim(input.name), Dated(input.startDate), Dated(input.endDate), Planning, Stamp(1, now, now));
    var next := Apply(db, CreateJourney(input), id, now).value;
    LoadedHosted(client, s, parseable);
    HostedParts(db, parseable);
    FreshParts(db, id);
    CreateSends(db, j);
    CreatedAcceptable(db, j);
    CreateBrings(db, input, id, now, time, parseable);
    FirstCentury(input.startDate);
    RunLast(client, s, PostJourney(id, JourneyBodyOf(j)), time, fates);
    CreatedServed(db, next, time);
    assert next.journeys[|db.journeys|] == j;
  }

  lemma CreatedServed(db: JourneyData, next: JourneyData, time: string)
    requires Brings(ServeAll(db, SaveRequests(db, next), time), next) && Acceptable(next)
    ensures ServeAll(db, SaveRequests(db, next), time).Ok?
  {
  }

  lemma LoadedHosted(client: Client, s: Session, parseable: string -> bool)
    requires Loaded(client, s, parseable)
    ensures Hosted(s.server.db, parseable) && Contracted(s.server.db) && s.pending == map[] && Unused(client, s)
  {
  }

  lemma FirstCentury(start: string)
    requires CalendarText(start) && Number(start[..4]) < 100
    ensures !ContractDates(Some(start), None)
  {
    RefusedServerDates(start);
  }

  /** Such an input exists. */
  lemma YearFifty()
    ensures var input := JourneyInput("x", "0050-01-01", "");
            && ValidateJourney(input) == [] && input.startDate != "" && Number(input.startDate[..4]) < 100
            && AcceptsJourney(JourneyBody(Trim(input.name), Dated(input.startDate), Dated(input.endDate)))
  {
    var start := "0050-01-01";
    assert start[..4] == "0050" && start[5..7] == "01" && start[8..10] == "01";
    assert "0050"[..3] == "005" && "005"[..2] == "00" && "00"[..1] == "0" && "01"[..1] == "0" && "0"[..0] == "";
    assert Number("") == 0;
    assert Number("0") == 0;
    assert Number("00") == 0 && Number("005") == 5 && Number("01") == 1;
  }

  /** When the reorder after a deletion is refused, the save reports an error although the deletion is complete. */
  lemma RefusedAfterDeletion(client: Client, s: Session, journeyId: string, itemId: string, id: string, now: string,
      time: string, fates: Request -> Fate, parseable: string -> bool)
    requires NeverRepeats(client) && Loaded(client, s, parseable)
    requires Apply(s.server.db, DeleteSegment(journeyId, itemId), id, now).Ok?
    requires var next := Apply(s.server.db, DeleteSegment(journeyId, itemId), id, now).value;
             var requests := SaveRequests(s.server.db, next);
             && |requests| == 2 && fates(requests[1]).clash && |Owned(next.segments, journeyId)| > SHIFT
             && forall i :: 0 <= i < 2 ==> !fates(requests[i]).requestLost && !fates(requests[i]).replyLost
    ensures var next := Apply(s.server.db, DeleteSegment(journeyId, itemId), id, now).value;
            var reply := RunAll(client, s, SaveRequests(s.server.db, next), time, fates);
            reply.problem == Some(ConstraintError) && SameContent(reply.session.server.db, next)
  {
    hide Contracted, Hosted, DistinctJourneys, Unused, ServeAll, Serve, RunAll, NeverRepeats, SaveRequests, Route,
        Touch, HasJourney, FindSegment, HasSegment, SegmentById, Ranked, Accepted, Acceptable, SameContent, Attempt,
            Owned;
    var db := s.server.db;
    var next := Apply(db, DeleteSegment(journeyId, itemId), id, now).value;
    FilterSame(db.segments, (x: Segment) => x.id != itemId, (x: Segment) => x.id != itemId);
    HostedParts(db, parseable);
    DropBrings(db, journeyId, itemId, now, time, parseable);
    var d := DropSends(db, next, journeyId, itemId, now);
    var first, second := SaveRequests(db, next)[0], SaveRequests(db, next)[1];
    var half := Dropped(db, journeyId, itemId, time);
    DropServes(db, journeyId, itemId, time);
    DropAcceptable(db, next, journeyId, itemId, now);
    DropBringsAlone(db, next, journeyId, itemId, now, time);
    assert SaveRequests(db, next) == [first, second];
    RunTwo(db, first, second, time);
    AttemptOutcome(client, s, first, time, fates(first));
    RunPair(client, s, first, second, time, fates);
    ReorderCounts(half, second, time, next, fates(second));
    RefusedReorder(client, Attempt(client, s, first, time, fates(first)).session, second, time, fates(second));
  }

  lemma RefusedReorder(client: Client, s: Session, request: Request, now: string, fate: Fate)
    requires request.Reorder? && Serve(s.server.db, request, now).Ok? && Clashes(s.server.db, request, fate)
    requires !fate.requestLost && !fate.replyLost
    ensures Attempt(client, s, request, now, fate) == Reply(s, Some(ConstraintError))
  {
    hide Serve;
    ServedContract(s.server.db, request, now);
  }
}
