/** For every single edit of the service, the requests save sends succeed exactly when the edited data is
    acceptable, and then leave the server equal to it up to versions and timestamps. */
module JourneyRefinement {
  import opened Basics
  import opened JourneyDomain
  import opened JourneyService
  import opened JourneyEdits
  import opened JourneyDatabase
  import opened JourneyTables
  import opened JourneyRuns
  import opened JourneySave

  // ---- what the server's tables are like ---

  ghost predicate TrimmedJourney(j: Journey) {
    j.name == Trim(j.name)
  }

  ghost predicate TrimmedSegment(s: Segment) {
    s.notes == Trim(s.notes) && s.details == TrimDetails(s.details)
  }

  ghost predicate TrimmedPacking(p: PackingItem) {
    p.caption == Trim(p.caption)
  }

  ghost predicate Trimmed(data: JourneyData) {
    && (forall i :: 0 <= i < |data.journeys| ==> TrimmedJourney(data.journeys[i]))
    && (forall i :: 0 <= i < |data.segments| ==> TrimmedSegment(data.segments[i]))
    && (forall i :: 0 <= i < |data.packing| ==> TrimmedPacking(data.packing[i]))
  }

  /** Tables the server keeps and the client has loaded: accepted, dense, acceptable and trimmed. */
  ghost predicate Hosted(db: JourneyData, parseable: string -> bool) {
    Sound(db, parseable) && Acceptable(db) && Trimmed(db)
  }

  /** The outcome of running the requests is right for the edited data. */
  ghost predicate Brings(outcome: Result<JourneyData, HttpError>, next: JourneyData) {
    (outcome.Ok? <==> Acceptable(next)) && (outcome.Ok? ==> SameContent(outcome.value, next))
  }

  lemma AcceptedSound(db: JourneyData, parseable: string -> bool)
    requires Sound(db, parseable)
    ensures DistinctJourneys(db.journeys) && DistinctSegments(db.segments) && DistinctPacking(db.packing)
    ensures DistinctPositions(db.segments) && Dense(db.segments) && Ranked(db.segments)
    ensures forall i :: 0 <= i < |db.segments| ==> HasJourney(db.journeys, db.segments[i].journeyId)
    ensures forall i :: 0 <= i < |db.packing| ==> HasJourney(db.journeys, db.packing[i].journeyId)
  {
    hide ValidJourney, ValidSegment, ValidPacking, HasJourney, DistinctJourneys, DistinctSegments, DistinctPacking,
        DistinctPositions, Dense;
  }

  lemma VersionsPositive(db: JourneyData, parseable: string -> bool)
    requires Accepted(db, parseable)
    ensures forall i :: 0 <= i < |db.journeys| ==> db.journeys[i].stamp.version >= 1
    ensures forall i :: 0 <= i < |db.segments| ==> db.segments[i].stamp.version >= 1
    ensures forall i :: 0 <= i < |db.packing| ==> db.packing[i].stamp.version >= 1 && 0 <= db.packing[i].packed <= db.packing[i].quantity <= 99
  {
    hide NonEmpty, NullableDate, DatesInOrder, Timestamp, HasJourney, ValidDetails, DistinctJourneys, DistinctSegments,
        DistinctPacking, DistinctPositions;
  }

  lemma SelfContent(db: JourneyData)
    ensures SameContent(db, db)
  {
  }

  lemma TouchedContent(journeys: seq<Journey>, journeyId: string, now: string, time: string)
    ensures SameJourneys(TouchRow(journeys, journeyId, time), Touch(journeys, journeyId, now))
    ensures SameJourneys(journeys, Touch(journeys, journeyId, now))
  {
  }

  ghost predicate AcceptedJourneys(journeys: seq<Journey>) {
    forall i :: 0 <= i < |journeys| ==> AcceptsJourney(JourneyBodyOf(journeys[i]))
  }

  lemma TouchedAcceptable(db: JourneyData, next: JourneyData, journeyId: string, now: string)
    requires Acceptable(db) && next.journeys == Touch(db.journeys, journeyId, now)
    ensures AcceptedJourneys(next.journeys)
  {
    hide AcceptsSegment, AcceptsPacking;
    forall i | 0 <= i < |next.journeys| ensures AcceptsJourney(JourneyBodyOf(next.journeys[i])) {
      assert AcceptsJourney(JourneyBodyOf(db.journeys[i]));
    }
  }

  // ---- journeys ---

  lemma CreateSends(db: JourneyData, j: Journey)
    requires DistinctJourneys(db.journeys) && DistinctSegments(db.segments) && DistinctPacking(db.packing) &&
        !HasJourney(db.journeys, j.id)
    ensures SaveRequests(db, db.(journeys := db.journeys + [j])) == [PostJourney(j.id, JourneyBodyOf(j))]
  {
    hide DistinctJourneys, DistinctSegments, DistinctPacking, FindJourney, SegmentRequests, PackingRequests,
        JourneyWrite;
    var next := db.(journeys := db.journeys + [j]);
    QuietSegments(db, next);
    QuietPacking(db, next);
    forall i | 0 <= i < |db.journeys| ensures JourneyDrops(db, next)[i] == [] && JourneyWrites(db, next)[i] == [] {
      assert next.journeys[i].id == db.journeys[i].id;
      UnchangedJourney(db, next.journeys[i], i);
    }
    FlattenNone(JourneyDrops(db, next));
    FlattenOne(JourneyWrites(db, next), |db.journeys|);
    CreatedWrite(db, j);
  }

  lemma CreatedWrite(db: JourneyData, j: Journey)
    requires !HasJourney(db.journeys, j.id)
    ensures JourneyWrite(db, j) == [PostJourney(j.id, JourneyBodyOf(j))]
  {
    NoJourney(db.journeys, j.id);
  }

  lemma BringsOne(db: JourneyData, next: JourneyData, request: Request, time: string)
    requires SaveRequests(db, next) == [request] && Brings(Serve(db, request, time), next)
    ensures Brings(ServeAll(db, SaveRequests(db, next), time), next) && |SaveRequests(db, next)| <= 1
  {
    hide SaveRequests, ServeAll, Serve, Brings;
    RunOne(db, request, time);
  }

  lemma BringsNothing(db: JourneyData, next: JourneyData, time: string)
    requires SaveRequests(db, next) == [] && Acceptable(next) && SameContent(db, next)
    ensures Brings(ServeAll(db, SaveRequests(db, next), time), next) && |SaveRequests(db, next)| <= 1
  {
    hide SaveRequests, ServeAll, Acceptable, SameContent;
    RunNone(db, time);
  }

  lemma SameJourneyAppend(a: seq<Journey>, x: Journey, y: Journey)
    requires x.(stamp := NO_STAMP) == y.(stamp := NO_STAMP)
    ensures SameJourneys(a + [x], a + [y])
  {
  }

  lemma CreateServes(db: JourneyData, j: Journey, time: string)
    requires Acceptable(db) && !HasJourney(db.journeys, j.id) && j.name == Trim(j.name) && j.status == Planning
    ensures Brings(Serve(db, PostJourney(j.id, JourneyBodyOf(j)), time), db.(journeys := db.journeys + [j]))
  {
    hide Acceptable, HasJourney, Trim, AcceptsJourney, SameJourneys;
    var stored := Journey(j.id, Trim(j.name), j.startDate, j.endDate, Planning, Stamp(1, time, time));
    SameJourneyAppend(db.journeys, stored, j);
    CreatedAcceptable(db, j);
  }

  lemma HostedParts(db: JourneyData, parseable: string -> bool)
    requires Hosted(db, parseable)
    ensures Acceptable(db) && Trimmed(db) && Sound(db, parseable) && Accepted(db, parseable)
    ensures DistinctJourneys(db.journeys) && DistinctSegments(db.segments) && DistinctPacking(db.packing) &&
        Ranked(db.segments)
  {
    hide Acceptable, Trimmed, Accepted, Dense, Ranked, DistinctJourneys, DistinctSegments, DistinctPacking;
    AcceptedSound(db, parseable);
  }

  lemma CreateBrings(db: JourneyData, input: JourneyInput, id: string, now: string, time: string,
      parseable: string -> bool)
    requires Hosted(db, parseable) && FreshId(db, id) && ValidateJourney(input) == []
    ensures var next := Apply(db, CreateJourney(input), id, now).value; Brings(ServeAll(db, SaveRequests(db, next), time), next) && |SaveRequests(db, next)| <= 1
  {
    hide Hosted, Acceptable, Trimmed, Sound, Accepted, DistinctJourneys, DistinctSegments, DistinctPacking, Ranked,
        HasJourney, FreshId, Trim,
      SaveRequests, ServeAll, Serve, Brings;
    var next := Apply(db, CreateJourney(input), id, now).value;
    var j := Journey(id, Trim(input.name), Dated(input.startDate), Dated(input.endDate), Planning, Stamp(1, now, now));
    HostedParts(db, parseable);
    FreshParts(db, id);
    TrimTwice(input.name);
    CreateSends(db, j);
    CreateServes(db, j, time);
    BringsOne(db, next, PostJourney(j.id, JourneyBodyOf(j)), time);
  }

  lemma FreshParts(db: JourneyData, id: string)
    requires FreshId(db, id)
    ensures !HasJourney(db.journeys, id) && !HasSegment(db.segments, id) && !HasPacking(db.packing, id)
  {
  }

  lemma CreatedAcceptable(db: JourneyData, j: Journey)
    requires Acceptable(db)
    ensures Acceptable(db.(journeys := db.journeys + [j])) <==> AcceptsJourney(JourneyBodyOf(j))
  {
    hide AcceptsJourney, AcceptsSegment, AcceptsPacking;
    var next := db.(journeys := db.journeys + [j]);
    assert next.journeys[|db.journeys|] == j;
  }

  /** Changing one journey's own fields sends one versioned update, or nothing when nothing changed. */
  lemma ChangedJourneySends(db: JourneyData, next: JourneyData, k: nat)
    requires DistinctJourneys(db.journeys) && DistinctSegments(db.segments) && DistinctPacking(db.packing)
    requires k < |db.journeys| && JourneysKept(db.journeys, next.journeys, k) && next.segments == db.segments &&
        next.packing == db.packing
    ensures var j := next.journeys[k];
            SaveRequests(db, next) ==
              if JourneyChanged(db.journeys[k], j) then
                  [PutJourney(j.id, JourneyBodyOf(j), j.status, db.journeys[k].stamp.version)] else []
  {
    hide DistinctJourneys, DistinctSegments, DistinctPacking, FindJourney, SegmentRequests, PackingRequests,
        JourneyRequests;
    QuietSegments(db, next);
    QuietPacking(db, next);
    JourneyPhase(db, next, k);
    JourneyAt(db.journeys, k);
  }

  lemma UpdatedRows(journeys: seq<Journey>, next: seq<Journey>, k: nat, time: string)
    requires DistinctJourneys(journeys) && k < |journeys| && |next| == |journeys|
    requires next[k].(stamp := NO_STAMP) == journeys[k].(stamp := NO_STAMP, name := next[k].name,
        startDate := next[k].startDate,
                                                       endDate := next[k].endDate, status := next[k].status)
    requires next[k].name == Trim(next[k].name)
    requires forall i :: 0 <= i < |journeys| && i != k ==>
        next[i].(stamp := NO_STAMP) == journeys[i].(stamp := NO_STAMP)
    ensures SameJourneys(UpdateRow(journeys, journeys[k].id, JourneyBodyOf(next[k]), next[k].status, time), next)
  {
    hide Trim;
  }

  /** Only the k-th journey differs, and only in the fields an update carries. */
  ghost predicate ChangedAt(db: JourneyData, next: JourneyData, k: nat) {
    && k < |db.journeys| && |next.journeys| == |db.journeys| && next.segments == db.segments &&
        next.packing == db.packing
    && next.journeys[k].(stamp := NO_STAMP) == db.journeys[k].(stamp := NO_STAMP, name := next.journeys[k].name,
         startDate := next.journeys[k].startDate, endDate := next.journeys[k].endDate,
             status := next.journeys[k].status)
    && next.journeys[k].name == Trim(next.journeys[k].name)
    && (forall i :: 0 <= i < |db.journeys| && i != k ==>
        next.journeys[i].(stamp := NO_STAMP) == db.journeys[i].(stamp := NO_STAMP))
  }

  lemma ChangedKept(db: JourneyData, next: JourneyData, k: nat)
    requires ChangedAt(db, next, k)
    ensures JourneysKept(db.journeys, next.journeys, k)
  {
    hide Trim;
    forall i | 0 <= i < |db.journeys| ensures next.journeys[i].id == db.journeys[i].id &&
        (i != k ==> !JourneyChanged(db.journeys[i], next.journeys[i])) {
      assert next.journeys[i].(stamp := NO_STAMP).id == db.journeys[i].(stamp := NO_STAMP).id;
    }
  }

  lemma ChangedServes(db: JourneyData, next: JourneyData, k: nat, time: string)
    requires ChangedAt(db, next, k) && Acceptable(db) && DistinctJourneys(db.journeys) &&
        db.journeys[k].stamp.version >= 1
    ensures var j := next.journeys[k];
            Brings(Serve(db, PutJourney(j.id, JourneyBodyOf(j), j.status, db.journeys[k].stamp.version), time), next)
  {
    JourneyAt(db.journeys, k);
    ChangedKept(db, next, k);
    ChangedAcceptable(db, next, k);
    UpdatedRows(db.journeys, next.journeys, k, time);
    hide Acceptable, DistinctJourneys, Trim, AcceptsJourney, UpdateRow, FindJourney, SameJourneys;
  }

  lemma UnchangedContent(db: JourneyData, next: JourneyData, k: nat)
    requires ChangedAt(db, next, k) && !JourneyChanged(db.journeys[k], next.journeys[k])
    ensures SameContent(db, next) && JourneyBodyOf(next.journeys[k]) == JourneyBodyOf(db.journeys[k])
  {
    hide Trim;
  }

  lemma ChangedJourneyBrings(db: JourneyData, next: JourneyData, k: nat, time: string, parseable: string -> bool)
    requires Hosted(db, parseable) && ChangedAt(db, next, k)
    ensures Brings(ServeAll(db, SaveRequests(db, next), time), next) && |SaveRequests(db, next)| <= 1
  {
    hide Hosted, Acceptable, Trimmed, Sound, Accepted, DistinctJourneys, DistinctSegments, DistinctPacking, Ranked,
        SaveRequests, ServeAll, Serve, Brings, Trim,
      SameContent;
    HostedParts(db, parseable);
    VersionsPositive(db, parseable);
    ChangedKept(db, next, k);
    ChangedJourneySends(db, next, k);
    if JourneyChanged(db.journeys[k], next.journeys[k]) {
      ChangedServes(db, next, k, time);
      BringsOne(db, next, PutJourney(next.journeys[k].id, JourneyBodyOf(next.journeys[k]), next.journeys[k].status,
          db.journeys[k].stamp.version), time);
    } else {
      UnchangedContent(db, next, k);
      UnchangedAcceptable(db, next, k);
      BringsNothing(db, next, time);
    }
  }

  lemma UnchangedAcceptable(db: JourneyData, next: JourneyData, k: nat)
    requires Acceptable(db) && ChangedAt(db, next, k) &&
        JourneyBodyOf(next.journeys[k]) == JourneyBodyOf(db.journeys[k])
    ensures Acceptable(next)
  {
    hide Trim, AcceptsJourney, AcceptsSegment, AcceptsPacking;
    ChangedAcceptable(db, next, k);
  }

  lemma ChangedAcceptable(db: JourneyData, next: JourneyData, k: nat)
    requires Acceptable(db) && k < |db.journeys| && |next.journeys| == |db.journeys|
    requires next.segments == db.segments && next.packing == db.packing
    requires forall i :: 0 <= i < |db.journeys| && i != k ==>
        next.journeys[i].(stamp := NO_STAMP) == db.journeys[i].(stamp := NO_STAMP)
    ensures Acceptable(next) <==> AcceptsJourney(JourneyBodyOf(next.journeys[k]))
  {
    hide AcceptsJourney, AcceptsSegment, AcceptsPacking;
    forall i | 0 <= i < |db.journeys| && i != k ensures JourneyBodyOf(next.journeys[i]) ==
        JourneyBodyOf(db.journeys[i]) {
      assert next.journeys[i].(stamp := NO_STAMP).name == db.journeys[i].(stamp := NO_STAMP).name;
      assert next.journeys[i].(stamp := NO_STAMP).startDate == db.journeys[i].(stamp := NO_STAMP).startDate;
      assert next.journeys[i].(stamp := NO_STAMP).endDate == db.journeys[i].(stamp := NO_STAMP).endDate;
    }
  }

  lemma UpdateBrings(db: JourneyData, journeyId: string, input: JourneyInput, id: string, now: string, time: string,
      parseable: string -> bool)
    requires Hosted(db, parseable) && HasJourney(db.journeys, journeyId) && ValidateJourney(input) == []
    ensures var next := Apply(db, UpdateJourney(journeyId, input), id,
        now).value; Brings(ServeAll(db, SaveRequests(db, next), time), next) && |SaveRequests(db, next)| <= 1
  {
    hide Hosted, Brings, SaveRequests, ServeAll, Trim, ValidateJourney, DistinctJourneys;
    var next := Apply(db, UpdateJourney(journeyId, input), id, now).value;
    var k := JourneyRow(db.journeys, journeyId);
    HostedParts(db, parseable);
    OnlyJourney(db.journeys, k);
    TrimTwice(input.name);
    ChangedJourneyBrings(db, next, k, time, parseable);
  }

  lemma OnlyJourney(journeys: seq<Journey>, k: nat)
    requires DistinctJourneys(journeys) && k < |journeys|
    ensures forall i :: 0 <= i < |journeys| && i != k ==> journeys[i].id != journeys[k].id
  {
  }

  lemma JourneyRow(journeys: seq<Journey>, journeyId: string) returns (k: nat)
    requires HasJourney(journeys, journeyId)
    ensures k < |journeys| && journeys[k].id == journeyId
  {
    k :| 0 <= k < |journeys| && journeys[k].id == journeyId;
  }

  lemma SetStatusBrings(db: JourneyData, journeyId: string, status: Status, id: string, now: string, time: string,
      parseable: string -> bool)
    requires Hosted(db, parseable) && HasJourney(db.journeys, journeyId)
    ensures var next := Apply(db, SetStatus(journeyId, status), id,
        now).value; Brings(ServeAll(db, SaveRequests(db, next), time), next) && |SaveRequests(db, next)| <= 1
  {
    hide Hosted, Brings, SaveRequests, ServeAll, Trim, DistinctJourneys;
    var next := Apply(db, SetStatus(journeyId, status), id, now).value;
    var k := JourneyRow(db.journeys, journeyId);
    HostedParts(db, parseable);
    OnlyJourney(db.journeys, k);
    assert TrimmedJourney(db.journeys[k]);
    ChangedJourneyBrings(db, next, k, time, parseable);
  }

  lemma DeleteJourneySends(db: JourneyData, journeyId: string, id: string, now: string, parseable: string -> bool)
    requires Sound(db, parseable) && HasJourney(db.journeys, journeyId)
    ensures var next := Apply(db, DeleteJourney(journeyId), id, now).value; SaveRequests(db, next) == [DropJourney(journeyId)]
  {
    var next := Apply(db, DeleteJourney(journeyId), id, now).value;
    AcceptedSound(db, parseable);
    hide Sound, Ranked, Accepted, Dense, DistinctPositions;
    DeleteJourneyPhase(db, next, journeyId);
    DeleteSegmentPhase(db, next, journeyId);
    DeletePackingPhase(db, next, journeyId);
  }

  lemma Gone(journeys: seq<Journey>, gone: string)
    ensures !HasJourney(Filter(journeys, (j: Journey) => j.id != gone), gone)
  {
    var keep := (j: Journey) => j.id != gone;
    forall i | 0 <= i < |Filter(journeys, keep)| ensures Filter(journeys, keep)[i].id != gone {
      var a := FilterIndex(journeys, keep, i);
    }
  }

  lemma DeleteJourneyPhase(db: JourneyData, next: JourneyData, journeyId: string)
    requires DistinctJourneys(db.journeys) && HasJourney(db.journeys, journeyId)
    requires next.journeys == Filter(db.journeys, (j: Journey) => j.id != journeyId)
    ensures JourneyRequests(db, next) == [DropJourney(journeyId)]
  {
    hide JourneyWrite;
    var keep := (j: Journey) => j.id != journeyId;
    var k :| 0 <= k < |db.journeys| && db.journeys[k].id == journeyId;
    Gone(db.journeys, journeyId);
    forall i | 0 <= i < |db.journeys| && i != k ensures JourneyDrops(db, next)[i] == [] {
      assert HasJourney(db.journeys, db.journeys[i].id);
      KeptJourney(db.journeys, journeyId, db.journeys[i].id);
    }
    FlattenOne(JourneyDrops(db, next), k);
    forall i | 0 <= i < |next.journeys| ensures JourneyWrites(db, next)[i] == [] {
      var a := FilterIndex(db.journeys, keep, i);
      UnchangedJourney(db, next.journeys[i], a);
    }
    FlattenNone(JourneyWrites(db, next));
  }

  lemma DeleteSegmentPhase(db: JourneyData, next: JourneyData, journeyId: string)
    requires DistinctSegments(db.segments)
    requires next.journeys == Filter(db.journeys, (j: Journey) => j.id != journeyId)
    requires next.segments == Filter(db.segments, (s: Segment) => s.journeyId != journeyId)
    ensures SegmentRequests(db, next) == []
  {
    hide DistinctSegments, SegmentWrite, Reorders, Route;
    var keepJ, keepS := (j: Journey) => j.id != journeyId, (s: Segment) => s.journeyId != journeyId;
    Gone(db.journeys, journeyId);
    forall i | 0 <= i < |db.segments| ensures SegmentDrops(db, next)[i] == [] {
      FilterMember(db.segments, keepS, db.segments[i]);
      if db.segments[i].journeyId != journeyId {
        var x :| 0 <= x < |next.segments| && next.segments[x] == db.segments[i];
        assert HasSegment(next.segments, db.segments[i].id);
      }
    }
    FlattenNone(SegmentDrops(db, next));
    forall i | 0 <= i < |next.segments| ensures SegmentWrites(db, next)[i] == [] {
      var a := FilterIndex(db.segments, keepS, i);
      UnchangedSegment(db, next.segments[i], a);
    }
    FlattenNone(SegmentWrites(db, next));
    forall i | 0 <= i < |next.journeys|
      ensures IdsOf(Route(db.segments, next.journeys[i].id)) == IdsOf(Route(next.segments, next.journeys[i].id))
    {
      var a := FilterIndex(db.journeys, keepJ, i);
      RouteElsewhere(db.segments, journeyId, next.journeys[i].id);
    }
    NoReorders(db, next);
  }

  lemma RouteElsewhere(segments: seq<Segment>, gone: string, journeyId: string)
    requires journeyId != gone
    ensures Route(Filter(segments, (s: Segment) => s.journeyId != gone), journeyId) == Route(segments, journeyId)
  {
    OwnedElsewhere(segments, gone, journeyId);
  }

  lemma DeletePackingPhase(db: JourneyData, next: JourneyData, journeyId: string)
    requires DistinctPacking(db.packing)
    requires next.journeys == Filter(db.journeys, (j: Journey) => j.id != journeyId)
    requires next.packing == Filter(db.packing, (p: PackingItem) => p.journeyId != journeyId)
    ensures PackingRequests(db, next) == []
  {
    hide DistinctPacking, PackingWrite;
    var keep := (p: PackingItem) => p.journeyId != journeyId;
    Gone(db.journeys, journeyId);
    forall i | 0 <= i < |db.packing| ensures PackingDrops(db, next)[i] == [] {
      FilterMember(db.packing, keep, db.packing[i]);
      if db.packing[i].journeyId != journeyId {
        var x :| 0 <= x < |next.packing| && next.packing[x] == db.packing[i];
        assert HasPacking(next.packing, db.packing[i].id);
      }
    }
    FlattenNone(PackingDrops(db, next));
    forall i | 0 <= i < |next.packing| ensures PackingWrites(db, next)[i] == [] {
      var a := FilterIndex(db.packing, keep, i);
      UnchangedPacking(db, next.packing[i], a);
    }
    FlattenNone(PackingWrites(db, next));
  }

  lemma FilteredAcceptable(db: JourneyData, next: JourneyData)
    requires Acceptable(db)
    requires forall i :: 0 <= i < |next.journeys| ==> next.journeys[i] in db.journeys
    requires forall i :: 0 <= i < |next.segments| ==> next.segments[i] in db.segments
    requires forall i :: 0 <= i < |next.packing| ==> next.packing[i] in db.packing
    ensures Acceptable(next)
  {
    hide AcceptsJourney, AcceptsSegment, AcceptsPacking;
  }

  lemma DeleteJourneyServes(db: JourneyData, journeyId: string, id: string, now: string, time: string)
    requires Acceptable(db) && HasJourney(db.journeys, journeyId)
    ensures Brings(Serve(db, DropJourney(journeyId), time), Apply(db, DeleteJourney(journeyId), id, now).value)
  {
    hide Acceptable, HasJourney, SameContent;
    var next := Apply(db, DeleteJourney(journeyId), id, now).value;
    forall i | 0 <= i < |next.journeys| ensures next.journeys[i] in db.journeys {
      var a := FilterIndex(db.journeys, (j: Journey) => j.id != journeyId, i);
    }
    forall i | 0 <= i < |next.segments| ensures next.segments[i] in db.segments {
      var a := FilterIndex(db.segments, (s: Segment) => s.journeyId != journeyId, i);
    }
    forall i | 0 <= i < |next.packing| ensures next.packing[i] in db.packing {
      var a := FilterIndex(db.packing, (p: PackingItem) => p.journeyId != journeyId, i);
    }
    FilteredAcceptable(db, next);
    SelfContent(next);
  }

  lemma DeleteJourneyBrings(db: JourneyData, journeyId: string, id: string, now: string, time: string,
      parseable: string -> bool)
    requires Hosted(db, parseable) && HasJourney(db.journeys, journeyId)
    ensures var next := Apply(db, DeleteJourney(journeyId), id, now).value; Brings(ServeAll(db, SaveRequests(db, next), time), next) && |SaveRequests(db, next)| <= 1
  {
    hide Sound, Acceptable, Trimmed, SaveRequests, ServeAll, HasJourney, Serve, Brings;
    DeleteJourneySends(db, journeyId, id, now, parseable);
    DeleteJourneyServes(db, journeyId, id, now, time);
    BringsOne(db, Apply(db, DeleteJourney(journeyId), id, now).value, DropJourney(journeyId), time);
  }
}
