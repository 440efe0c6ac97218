/** Save refines the service: packing edits, the theorem for every edit, and what the next save starts from. */
module SaveRefinement {
  import opened Basics
  import opened JourneyDomain
  import opened JourneyService
  import opened JourneyEdits
  import opened JourneyDatabase
  import opened JourneyRuns
  import opened JourneySave
  import opened JourneyRefinement
  import opened RouteRefinement

  // ---- packing ---

  lemma AppendPackingSends(db: JourneyData, next: JourneyData, p: PackingItem, journeyId: string, now: string)
    requires DistinctJourneys(db.journeys) && DistinctSegments(db.segments) && DistinctPacking(db.packing) &&
        !HasPacking(db.packing, p.id)
    requires next == db.(packing := db.packing + [p], journeys := Touch(db.journeys, journeyId, now))
    ensures SaveRequests(db, next) == [PostPacking(p.journeyId, p.id, PackingBodyOf(p))]
  {
    hide DistinctJourneys, DistinctSegments, DistinctPacking, PackingById, JourneyRequests, SegmentRequests,
        PackingWrite, HasJourney, Touch;
    QuietJourneys(db, next, journeyId, now);
    QuietSegments(db, next);
    forall i | 0 <= i < |db.packing| ensures PackingDrops(db, next)[i] == [] && PackingWrites(db, next)[i] == [] {
      assert next.packing[i] == db.packing[i];
      assert HasPacking(next.packing, db.packing[i].id);
      UnchangedPacking(db, next.packing[i], i);
    }
    FlattenNone(PackingDrops(db, next));
    FlattenOne(PackingWrites(db, next), |db.packing|);
    AppendedPackingWrite(db, p);
  }

  lemma AppendedPackingWrite(db: JourneyData, p: PackingItem)
    requires !HasPacking(db.packing, p.id)
    ensures PackingWrite(db, p) == [PostPacking(p.journeyId, p.id, PackingBodyOf(p))]
  {
    NoPacking(db.packing, p.id);
  }

  lemma SamePackingAppend(a: seq<PackingItem>, x: PackingItem, y: PackingItem)
    requires x.(stamp := NO_STAMP) == y.(stamp := NO_STAMP)
    ensures SamePacking(a + [x], a + [y])
  {
  }

  lemma PackingAcceptable(db: JourneyData, next: JourneyData, k: nat)
    requires Acceptable(db) && k < |next.packing| && next.segments == db.segments && AcceptedJourneys(next.journeys)
    requires forall i :: 0 <= i < |next.packing| && i != k ==> next.packing[i] in db.packing
    ensures Acceptable(next) <==> AcceptsPacking(PackingBodyOf(next.packing[k]))
  {
    hide AcceptsJourney, AcceptsSegment, AcceptsPacking;
  }

  lemma PackingsAcceptable(db: JourneyData, next: JourneyData)
    requires Acceptable(db) && next.segments == db.segments && AcceptedJourneys(next.journeys)
    requires forall i :: 0 <= i < |next.packing| ==> HasPackingBody(db.packing, next.packing[i])
    ensures Acceptable(next)
  {
    hide AcceptsJourney, AcceptsSegment, AcceptsPacking;
    forall i | 0 <= i < |next.packing| ensures AcceptsPacking(PackingBodyOf(next.packing[i])) {
      assert HasPackingBody(db.packing, next.packing[i]);
      var j :| 0 <= j < |db.packing| && PackingBodyOf(next.packing[i]) == PackingBodyOf(db.packing[j]);
    }
  }

  ghost predicate HasPackingBody(packing: seq<PackingItem>, p: PackingItem) {
    exists j :: 0 <= j < |packing| && PackingBodyOf(p) == PackingBodyOf(packing[j])
  }

  lemma AppendPackingServes(db: JourneyData, next: JourneyData, p: PackingItem, now: string, time: string)
    requires Acceptable(db) && HasJourney(db.journeys, p.journeyId) && !HasPacking(db.packing, p.id) &&
        TrimmedPacking(p) && p.packed == 0
    requires next == db.(packing := db.packing + [p], journeys := Touch(db.journeys, p.journeyId, now))
    ensures Brings(Serve(db, PostPacking(p.journeyId, p.id, PackingBodyOf(p)), time), next)
  {
    hide Acceptable, HasJourney, HasPacking, Trim, AcceptsPacking, SameSegments, SameJourneys, SamePacking, TouchRow,
        Touch;
    SamePackingAppend(db.packing, NewPacking(p.journeyId, p.id, PackingBodyOf(p), time), p);
    TouchedContent(db.journeys, p.journeyId, now, time);
    SameSegmentsSelf(db.segments);
    TouchedAcceptable(db, next, p.journeyId, now);
    forall i | 0 <= i < |next.packing| && i != |db.packing| ensures next.packing[i] in db.packing {
      assert next.packing[i] == db.packing[i];
    }
    PackingAcceptable(db, next, |db.packing|);
  }

  lemma NewPackingBrings(db: JourneyData, journeyId: string, input: PackingInput, id: string, now: string, time: string,
      parseable: string -> bool)
    requires Hosted(db, parseable) && FreshId(db, id) && HasJourney(db.journeys, journeyId) &&
        ValidatePacking(input) == []
    ensures var p := PackingFrom(input, journeyId, None, id, now);
            var next := db.(packing := db.packing + [p], journeys := Touch(db.journeys, journeyId, now));
            Brings(ServeAll(db, SaveRequests(db, next), time), next) && |SaveRequests(db, next)| <= 1
  {
    hide Hosted, Acceptable, Trimmed, Sound, Accepted, DistinctJourneys, DistinctSegments, DistinctPacking, Ranked,
        HasJourney, HasPacking, FreshId, Trim, Touch,
      SaveRequests, ServeAll, Serve, Brings;
    var p := PackingFrom(input, journeyId, None, id, now);
    var next := db.(packing := db.packing + [p], journeys := Touch(db.journeys, journeyId, now));
    HostedParts(db, parseable);
    FreshParts(db, id);
    TrimTwice(input.caption);
    AppendPackingSends(db, next, p, journeyId, now);
    AppendPackingServes(db, next, p, now, time);
    BringsOne(db, next, PostPacking(p.journeyId, p.id, PackingBodyOf(p)), time);
  }

  /** One packing item rewritten in place: a definition update, a progress update, or nothing. */
  lemma ReplacePackingSends(db: JourneyData, next: JourneyData, p: PackingItem, k: nat, journeyId: string, now: string)
    requires DistinctJourneys(db.journeys) && DistinctSegments(db.segments) && DistinctPacking(db.packing)
    requires k < |db.packing| && p.id == db.packing[k].id && p.journeyId == db.packing[k].journeyId
    requires next == db.(packing := db.packing[k := p], journeys := Touch(db.journeys, journeyId, now))
    ensures var before, version := db.packing[k], db.packing[k].stamp.version;
            SaveRequests(db, next) ==
              if PackingBodyOf(before) != PackingBodyOf(p) then
                  [PutPacking(p.journeyId, p.id, PackingBodyOf(p), version)]
              else if before.packed != p.packed then [PutProgress(p.journeyId, p.id, p.packed, version)]
              else []
  {
    hide DistinctJourneys, DistinctSegments, DistinctPacking, PackingById, JourneyRequests, SegmentRequests,
        PackingRequests, Touch;
    QuietJourneys(db, next, journeyId, now);
    QuietSegments(db, next);
    PackingPhase(db, next, k);
    PackingAt(db.packing, k);
  }

  lemma RewrittenItems(packing: seq<PackingItem>, p: PackingItem, k: nat, time: string)
    requires DistinctPacking(packing) && k < |packing| && TrimmedPacking(p)
    requires p.id == packing[k].id && p.journeyId == packing[k].journeyId
    ensures p.packed == Min(packing[k].packed, p.quantity) ==>
        SamePacking(RewritePacking(packing, p.id, PackingBodyOf(p), time), packing[k := p])
    ensures PackingBodyOf(p) == PackingBodyOf(packing[k]) ==>
        SamePacking(WriteProgress(packing, p.id, p.packed, time), packing[k := p])
  {
    hide Trim;
  }

  lemma ReplacePackingAcceptable(db: JourneyData, next: JourneyData, p: PackingItem, k: nat, journeyId: string,
      now: string)
    requires Acceptable(db) && k < |db.packing| &&
        next == db.(packing := db.packing[k := p], journeys := Touch(db.journeys, journeyId, now))
    ensures Acceptable(next) <==> AcceptsPacking(PackingBodyOf(p))
  {
    hide AcceptsJourney, AcceptsSegment, AcceptsPacking, Acceptable, Touch;
    TouchedAcceptable(db, next, journeyId, now);
    forall i | 0 <= i < |next.packing| && i != k ensures next.packing[i] in db.packing {
      assert next.packing[i] == db.packing[i];
    }
    PackingAcceptable(db, next, k);
  }

  /** The k-th item is rewritten to p as a service edit would: same identity, text trimmed, quantities in range. */
  ghost predicate RewrittenAt(db: JourneyData, next: JourneyData, p: PackingItem, k: nat, now: string) {
    && k < |db.packing| && p.id == db.packing[k].id && p.journeyId == db.packing[k].journeyId && TrimmedPacking(p)
    && 0 <= p.packed <= p.quantity <= 99
    && HasJourney(db.journeys, p.journeyId)
    && next == db.(packing := db.packing[k := p], journeys := Touch(db.journeys, p.journeyId, now))
    && (PackingBodyOf(p) != PackingBodyOf(db.packing[k]) ==> p.packed == Min(db.packing[k].packed, p.quantity))
  }

  lemma DefinitionServes(db: JourneyData, next: JourneyData, p: PackingItem, k: nat, now: string, time: string)
    requires Acceptable(db) && DistinctPacking(db.packing) && RewrittenAt(db, next, p, k, now) &&
        db.packing[k].stamp.version >= 1
    requires PackingBodyOf(p) != PackingBodyOf(db.packing[k])
    ensures Brings(Serve(db, PutPacking(p.journeyId, p.id, PackingBodyOf(p), db.packing[k].stamp.version), time), next)
  {
    hide Acceptable, DistinctPacking, HasJourney, Trim, AcceptsPacking, SameSegments, SameJourneys, SamePacking,
        TouchRow,
        Touch, RewritePacking, WriteProgress,
      FindPacking, TrimmedPacking;
    PackingAt(db.packing, k);
    RewrittenItems(db.packing, p, k, time);
    TouchedContent(db.journeys, p.journeyId, now, time);
    SameSegmentsSelf(db.segments);
    ReplacePackingAcceptable(db, next, p, k, p.journeyId, now);
  }

  lemma StoredPacking(db: JourneyData, k: nat)
    requires Acceptable(db) && k < |db.packing|
    ensures AcceptsPacking(PackingBodyOf(db.packing[k]))
  {
    hide AcceptsJourney, AcceptsSegment, AcceptsPacking;
  }

  lemma ProgressServes(db: JourneyData, next: JourneyData, p: PackingItem, k: nat, now: string, time: string)
    requires Acceptable(db) && DistinctPacking(db.packing) && RewrittenAt(db, next, p, k, now) &&
        db.packing[k].stamp.version >= 1
    requires PackingBodyOf(p) == PackingBodyOf(db.packing[k])
    ensures Brings(Serve(db, PutProgress(p.journeyId, p.id, p.packed, db.packing[k].stamp.version), time), next)
    ensures p.packed == db.packing[k].packed ==> Acceptable(next) && SameContent(db, next)
  {
    hide Acceptable, DistinctPacking, HasJourney, Trim, AcceptsPacking, SameSegments, SameJourneys, TouchRow, Touch,
        RewritePacking, WriteProgress,
      FindPacking, TrimmedPacking;
    PackingAt(db.packing, k);
    RewrittenItems(db.packing, p, k, time);
    TouchedContent(db.journeys, p.journeyId, now, time);
    SameSegmentsSelf(db.segments);
    ReplacePackingAcceptable(db, next, p, k, p.journeyId, now);
    StoredPacking(db, k);
  }

  lemma RewrittenBrings(db: JourneyData, next: JourneyData, p: PackingItem, k: nat, now: string, time: string,
      parseable: string -> bool)
    requires Hosted(db, parseable) && RewrittenAt(db, next, p, k, now)
    ensures Brings(ServeAll(db, SaveRequests(db, next), time), next) && |SaveRequests(db, next)| <= 1
  {
    hide Hosted, Acceptable, Trimmed, Sound, Accepted, DistinctJourneys, DistinctSegments, DistinctPacking, Ranked,
        HasJourney, Trim, Touch, SaveRequests, ServeAll, Serve,
      Brings, SameContent, TrimmedPacking;
    HostedParts(db, parseable);
    VersionsPositive(db, parseable);
    ReplacePackingSends(db, next, p, k, p.journeyId, now);
    if PackingBodyOf(db.packing[k]) != PackingBodyOf(p) {
      DefinitionServes(db, next, p, k, now, time);
      BringsOne(db, next, PutPacking(p.journeyId, p.id, PackingBodyOf(p), db.packing[k].stamp.version), time);
    } else {
      ProgressServes(db, next, p, k, now, time);
      if db.packing[k].packed != p.packed {
        BringsOne(db, next, PutProgress(p.journeyId, p.id, p.packed, db.packing[k].stamp.version), time);
      } else {
        BringsNothing(db, next, time);
      }
    }
  }

  lemma ReplaceAt(packing: seq<PackingItem>, p: PackingItem, k: nat)
    requires DistinctPacking(packing) && k < |packing| && p.id == packing[k].id
    ensures ReplacePacking(packing, p) == packing[k := p]
  {
  }

  lemma PackAt(packing: seq<PackingItem>, k: nat, packed: int)
    requires DistinctPacking(packing) && k < |packing|
    ensures Pack(packing, packing[k].id, packed) ==
        packing[k := packing[k].(packed := Max(0, Min(packing[k].quantity, packed)))]
  {
  }

  lemma DeletePackingSends(db: JourneyData, next: JourneyData, journeyId: string, itemId: string, now: string)
    requires DistinctJourneys(db.journeys) && DistinctSegments(db.segments) && DistinctPacking(db.packing)
    requires FindPacking(db.packing, journeyId, itemId).Some? && HasJourney(db.journeys, journeyId)
    requires next == db.(packing := Filter(db.packing, (p: PackingItem) => p.id != itemId),
        journeys := Touch(db.journeys, journeyId, now))
    ensures SaveRequests(db, next) == [Request.DropPacking(journeyId, itemId)]
  {
    hide DistinctJourneys, DistinctSegments, PackingById, JourneyRequests, SegmentRequests, PackingWrite, HasJourney,
        Touch;
    var keep := (p: PackingItem) => p.id != itemId;
    var k := FoundPacking(db.packing, journeyId, itemId);
    QuietJourneys(db, next, journeyId, now);
    QuietSegments(db, next);
    TouchHas(db.journeys, journeyId, now);
    assert !HasPacking(next.packing, itemId) by {
      forall i | 0 <= i < |next.packing| ensures next.packing[i].id != itemId {
        var a := FilterIndex(db.packing, keep, i);
      }
    }
    forall i | 0 <= i < |db.packing| && i != k ensures PackingDrops(db, next)[i] == [] {
      FilterMember(db.packing, keep, db.packing[i]);
      var x :| 0 <= x < |next.packing| && next.packing[x] == db.packing[i];
      assert HasPacking(next.packing, db.packing[i].id);
    }
    FlattenOne(PackingDrops(db, next), k);
    forall i | 0 <= i < |next.packing| ensures PackingWrites(db, next)[i] == [] {
      var a := FilterIndex(db.packing, keep, i);
      UnchangedPacking(db, next.packing[i], a);
    }
    FlattenNone(PackingWrites(db, next));
  }

  lemma DeletePackingServes(db: JourneyData, next: JourneyData, journeyId: string, itemId: string, now: string,
      time: string)
    requires Acceptable(db) && FindPacking(db.packing, journeyId, itemId).Some? && HasJourney(db.journeys, journeyId)
    requires next == db.(packing := Filter(db.packing, (p: PackingItem) => p.id != itemId),
        journeys := Touch(db.journeys, journeyId, now))
    ensures Brings(Serve(db, Request.DropPacking(journeyId, itemId), time), next)
  {
    hide Acceptable, HasJourney, FindPacking, SameSegments, SameJourneys, SamePacking, TouchRow, Touch;
    FilterSame(db.packing, (p: PackingItem) => p.id != itemId, (p: PackingItem) => p.id != itemId);
    TouchedContent(db.journeys, journeyId, now, time);
    SameSegmentsSelf(db.segments);
    SamePackingSelf(next.packing);
    TouchedAcceptable(db, next, journeyId, now);
    forall i | 0 <= i < |next.packing| ensures HasPackingBody(db.packing, next.packing[i]) {
      var a := FilterIndex(db.packing, (p: PackingItem) => p.id != itemId, i);
    }
    PackingsAcceptable(db, next);
  }

  lemma DeletePackingBrings(db: JourneyData, journeyId: string, itemId: string, now: string, time: string,
      parseable: string -> bool)
    requires Hosted(db, parseable) && FindPacking(db.packing, journeyId, itemId).Some? &&
        HasJourney(db.journeys, journeyId)
    ensures var next := db.(packing := Filter(db.packing, (p: PackingItem) => p.id != itemId),
        journeys := Touch(db.journeys, journeyId, now));
            Brings(ServeAll(db, SaveRequests(db, next), time), next) && |SaveRequests(db, next)| <= 1
  {
    hide Hosted, Acceptable, Trimmed, Sound, Accepted, DistinctJourneys, DistinctSegments, DistinctPacking, Ranked,
        HasJourney, Touch, SaveRequests, ServeAll, Serve, Brings,
      FindPacking;
    var next := db.(packing := Filter(db.packing, (p: PackingItem) => p.id != itemId),
        journeys := Touch(db.journeys, journeyId, now));
    HostedParts(db, parseable);
    DeletePackingSends(db, next, journeyId, itemId, now);
    DeletePackingServes(db, next, journeyId, itemId, now, time);
    BringsOne(db, next, Request.DropPacking(journeyId, itemId), time);
  }

  lemma PackingEditBrings(db: JourneyData, edit: Edit, id: string, now: string, time: string, parseable: string -> bool)
    requires Hosted(db, parseable) && FreshId(db, id) && (edit.SavePacking? || edit.SetPacked? || edit.DeletePacking?)
    requires Apply(db, edit, id, now).Ok?
    ensures Brings(ServeAll(db, SaveRequests(db, Apply(db, edit, id, now).value), time),
        Apply(db, edit, id, now).value) && |SaveRequests(db, Apply(db, edit, id, now).value)| <= 1
  {
    hide Hosted, Acceptable, Trimmed, Sound, Accepted, DistinctJourneys, DistinctSegments, DistinctPacking, Ranked,
        HasJourney, FreshId, Touch, SaveRequests, ServeAll, Brings,
      FindPacking, ReplacePacking, Pack, Trim, TrimmedPacking;
    var next := Apply(db, edit, id, now).value;
    HostedParts(db, parseable);
    VersionsPositive(db, parseable);
    match edit {
      case SavePacking(journeyId, input, packingId) =>
        var existing := if Given(packingId) then FindPacking(db.packing, journeyId, packingId.value) else None;
        if existing.None? {
          NewPackingBrings(db, journeyId, input, id, now, time, parseable);
        } else {
          SavedPackingBrings(db, journeyId, input, packingId.value, id, now, time, parseable);
        }
      case SetPacked(journeyId, itemId, packed) =>
        var k := FoundPacking(db.packing, journeyId, itemId);
        var p := db.packing[k].(packed := Max(0, Min(db.packing[k].quantity, packed)));
        PackAt(db.packing, k, packed);
        StillTrimmed(db, k, p);
        RewrittenBrings(db, next, p, k, now, time, parseable);
      case DeletePacking(journeyId, itemId) => DeletePackingBrings(db, journeyId, itemId, now, time, parseable);
    }
  }

  lemma StillTrimmed(db: JourneyData, k: nat, p: PackingItem)
    requires Trimmed(db) && k < |db.packing| && p.caption == db.packing[k].caption
    ensures TrimmedPacking(p)
  {
    assert TrimmedPacking(db.packing[k]);
  }

  lemma SavedPackingBrings(db: JourneyData, journeyId: string, input: PackingInput, packingId: string, id: string,
      now: string, time: string, parseable: string -> bool)
    requires Hosted(db, parseable) && HasJourney(db.journeys, journeyId) && ValidatePacking(input) == []
    requires FindPacking(db.packing, journeyId, packingId).Some?
    ensures var p := PackingFrom(input, journeyId, FindPacking(db.packing, journeyId, packingId), id, now);
            var next := db.(packing := ReplacePacking(db.packing, p), journeys := Touch(db.journeys, journeyId, now));
            Brings(ServeAll(db, SaveRequests(db, next), time), next) && |SaveRequests(db, next)| <= 1
  {
    hide Hosted, Acceptable, Trimmed, Sound, Accepted, DistinctJourneys, DistinctSegments, DistinctPacking, Ranked,
        HasJourney, Touch, SaveRequests, ServeAll, Brings,
      FindPacking, ReplacePacking, Trim;
    HostedParts(db, parseable);
    VersionsPositive(db, parseable);
    var k := FoundPacking(db.packing, journeyId, packingId);
    var p := PackingFrom(input, journeyId, FindPacking(db.packing, journeyId, packingId), id, now);
    ReplaceAt(db.packing, p, k);
    TrimTwice(input.caption);
    RewrittenBrings(db, db.(packing := db.packing[k := p], journeys := Touch(db.journeys, journeyId, now)), p, k, now,
        time, parseable);
  }

  // ---- every edit ---

  lemma JourneyEditBrings(db: JourneyData, edit: Edit, id: string, now: string, time: string, parseable: string -> bool)
    requires Hosted(db, parseable) && FreshId(db, id)
    requires edit.CreateJourney? || edit.UpdateJourney? || edit.SetStatus? || edit.DeleteJourney?
    requires Apply(db, edit, id, now).Ok?
    ensures Brings(ServeAll(db, SaveRequests(db, Apply(db, edit, id, now).value), time),
        Apply(db, edit, id, now).value) && |SaveRequests(db, Apply(db, edit, id, now).value)| <= 1
  {
    hide Hosted, FreshId, HasJourney, SaveRequests, ServeAll, Brings, Rename, Restate, ValidateJourney;
    match edit {
      case CreateJourney(input) => CreateBrings(db, input, id, now, time, parseable);
      case UpdateJourney(journeyId, input) => UpdateBrings(db, journeyId, input, id, now, time, parseable);
      case SetStatus(journeyId, status) => SetStatusBrings(db, journeyId, status, id, now, time, parseable);
      case DeleteJourney(journeyId) => DeleteJourneyBrings(db, journeyId, id, now, time, parseable);
    }
  }

  lemma SegmentEditBrings(db: JourneyData, edit: Edit, id: string, now: string, time: string, parseable: string -> bool)
    requires Hosted(db, parseable) && FreshId(db, id) && (edit.SaveSegment? || edit.DeleteSegment? || edit.MoveSegment?)
    requires Apply(db, edit, id, now).Ok?
    ensures Brings(ServeAll(db, SaveRequests(db, Apply(db, edit, id, now).value), time), Apply(db, edit, id, now).value)
    ensures !edit.DeleteSegment? ==> |SaveRequests(db, Apply(db, edit, id, now).value)| <= 1
  {
    hide Hosted, FreshId, HasJourney, SaveRequests, ServeAll, Brings, Touch, Renumber, Route, ReplaceSegment,
        FindSegment,
        Swapped, SegmentFrom, ValidateSegment;
    match edit {
      case SaveSegment(journeyId, input, segmentId) =>
        var existing := if Given(segmentId) then FindSegment(db.segments, journeyId, segmentId.value) else None;
        FoundSame(db.segments, journeyId, segmentId);
        if existing.None? {
          NewSegmentBrings(db, journeyId, input, id, now, time, parseable);
        } else {
          RewrittenSegmentBrings(db, journeyId, input, existing.value, id, now, time, parseable);
        }
      case DeleteSegment(journeyId, itemId) =>
        FilterSame(db.segments, (s: Segment) => s.id != itemId, (s: Segment) => s.id != itemId);
        DropBrings(db, journeyId, itemId, now, time, parseable);
      case MoveSegment(journeyId, itemId, direction) =>
        if Swapped(IdsOf(Route(db.segments, journeyId)), itemId, direction).None? {
          NothingBrings(db, time, parseable);
        } else {
          MoveBrings(db, journeyId, itemId, direction, now, time, parseable);
        }
    }
  }

  /** For every single edit of loaded data, the requests save sends all succeed exactly when the edited data is
      acceptable, and then the server holds the edited data up to versions and timestamps. */
  lemma ServerRefinesEdit(db: JourneyData, edit: Edit, id: string, now: string, time: string, parseable: string -> bool)
    requires Hosted(db, parseable) && FreshId(db, id) && Apply(db, edit, id, now).Ok?
    ensures var next := Apply(db, edit, id, now).value;
            var outcome := ServeAll(db, SaveRequests(db, next), time);
            (outcome.Ok? <==> Acceptable(next)) && (outcome.Ok? ==> SameContent(outcome.value, next))
    ensures !edit.DeleteSegment? ==> |SaveRequests(db, Apply(db, edit, id, now).value)| <= 1
  {
    hide Hosted, FreshId, SaveRequests, ServeAll, Apply;
    if edit.CreateJourney? || edit.UpdateJourney? || edit.SetStatus? || edit.DeleteJourney? {
      JourneyEditBrings(db, edit, id, now, time, parseable);
    } else if edit.SaveSegment? || edit.DeleteSegment? || edit.MoveSegment? {
      SegmentEditBrings(db, edit, id, now, time, parseable);
    } else {
      PackingEditBrings(db, edit, id, now, time, parseable);
    }
    hide Acceptable, SameContent;
  }

  // ---- what the next save starts from ---

  ghost predicate GoodStamps(data: JourneyData, parseable: string -> bool) {
    && (forall i :: 0 <= i < |data.journeys| ==> ValidStamp(data.journeys[i].stamp, parseable))
    && (forall i :: 0 <= i < |data.segments| ==> ValidStamp(data.segments[i].stamp, parseable))
    && (forall i :: 0 <= i < |data.packing| ==> ValidStamp(data.packing[i].stamp, parseable))
  }

  lemma TouchedRows(journeys: seq<Journey>, journeyId: string, time: string, parseable: string -> bool)
    requires Timestamp(time, parseable) && (forall i :: 0 <= i < |journeys| ==>
        ValidStamp(journeys[i].stamp, parseable) && TrimmedJourney(journeys[i]))
    ensures var t := TouchRow(journeys, journeyId, time);
            forall i :: 0 <= i < |t| ==> ValidStamp(t[i].stamp, parseable) && TrimmedJourney(t[i])
  {
    hide Trim, Timestamp;
  }

  lemma FilteredKept(db: JourneyData, next: JourneyData, parseable: string -> bool)
    requires GoodStamps(db, parseable) && Trimmed(db)
    requires forall i :: 0 <= i < |next.journeys| ==> next.journeys[i] in db.journeys
    requires forall i :: 0 <= i < |next.segments| ==> next.segments[i] in db.segments
    requires forall i :: 0 <= i < |next.packing| ==> next.packing[i] in db.packing
    ensures GoodStamps(next, parseable) && Trimmed(next)
  {
    hide ValidStamp, TrimmedJourney, TrimmedSegment, TrimmedPacking;
  }

  lemma JourneyRequestKeeps(db: JourneyData, request: Request, time: string, parseable: string -> bool)
    requires GoodStamps(db, parseable) && Trimmed(db) && Timestamp(time, parseable)
    requires (request.PostJourney? || request.PutJourney? || request.DropJourney?) && Serve(db, request, time).Ok?
    ensures GoodStamps(Serve(db, request, time).value, parseable) && Trimmed(Serve(db, request, time).value)
  {
    hide Trim, TrimDetails, Timestamp, AcceptsJourney, FindJourney, HasJourney, TrimmedSegment, TrimmedPacking;
    var next := Serve(db, request, time).value;
    match request {
      case PostJourney(_, body) => TrimTwice(body.name);
      case PutJourney(_, body, _, _) => TrimTwice(body.name);
      case DropJourney(journeyId) =>
        forall i | 0 <= i < |next.journeys| ensures next.journeys[i] in db.journeys {
          var a := FilterIndex(db.journeys, (j: Journey) => j.id != journeyId, i);
        }
        forall i | 0 <= i < |next.segments| ensures next.segments[i] in db.segments {
          var a := FilterIndex(db.segments, (s: Segment) => s.journeyId != journeyId, i);
        }
        forall i | 0 <= i < |next.packing| ensures next.packing[i] in db.packing {
          var a := FilterIndex(db.packing, (p: PackingItem) => p.journeyId != journeyId, i);
        }
        FilteredKept(db, next, parseable);
    }
  }

  lemma RenumberKeeps(segments: seq<Segment>, order: seq<string>, moved: string, time: string,
      parseable: string -> bool)
    requires Timestamp(time, parseable) && (forall i :: 0 <= i < |segments| ==>
        ValidStamp(segments[i].stamp, parseable) && TrimmedSegment(segments[i]))
    ensures var t := Renumber(segments, order); forall i :: 0 <= i < |t| ==> ValidStamp(t[i].stamp, parseable) && TrimmedSegment(t[i])
    ensures var t := Reordered(segments, order, moved, time); forall i :: 0 <= i < |t| ==>
        ValidStamp(t[i].stamp, parseable) && TrimmedSegment(t[i])
  {
    hide Trim, TrimDetails, Timestamp;
  }

  lemma SegmentRequestKeeps(db: JourneyData, request: Request, time: string, parseable: string -> bool)
    requires GoodStamps(db, parseable) && Trimmed(db) && Timestamp(time, parseable)
    requires (request.PostSegment? || request.PutSegment? || request.DropSegment? || request.Reorder?) &&
        Serve(db, request, time).Ok?
    ensures GoodStamps(Serve(db, request, time).value, parseable) && Trimmed(Serve(db, request, time).value)
  {
    hide Trim, TrimDetails, Timestamp, AcceptsSegment, FindSegment, HasJourney, HasSegment, TrimmedPacking, Route,
        MoveTo, Reordered, Renumber, TouchRow, MaxPosition;
    TouchedRows(db.journeys, request.journeyId, time, parseable);
    match request {
      case PostSegment(_, _, body) =>
        TrimTwice(body.notes);
        DetailsTrimmedTwice(body.details);
      case PutSegment(_, _, body, _) =>
        TrimTwice(body.notes);
        DetailsTrimmedTwice(body.details);
      case DropSegment(journeyId, itemId) =>
        var remaining := Filter(db.segments, (s: Segment) => s.id != itemId);
        forall i | 0 <= i < |remaining| ensures ValidStamp(remaining[i].stamp, parseable) &&
            TrimmedSegment(remaining[i]) {
          var a := FilterIndex(db.segments, (s: Segment) => s.id != itemId, i);
        }
        RenumberKeeps(remaining, IdsOf(Route(remaining, journeyId)), "", time, parseable);
      case Reorder(journeyId, itemId, _, position) =>
        RenumberKeeps(db.segments, MoveTo(IdsOf(Route(db.segments, journeyId)), itemId, position), itemId, time,
            parseable);
    }
  }

  lemma PackingRequestKeeps(db: JourneyData, request: Request, time: string, parseable: string -> bool)
    requires GoodStamps(db, parseable) && Trimmed(db) && Timestamp(time, parseable)
    requires (request.PostPacking? || request.PutPacking? || request.PutProgress? || request.DropPacking?) &&
        Serve(db, request, time).Ok?
    ensures GoodStamps(Serve(db, request, time).value, parseable) && Trimmed(Serve(db, request, time).value)
  {
    hide Trim, TrimDetails, Timestamp, AcceptsPacking, FindPacking, HasJourney, HasPacking, TrimmedSegment, TouchRow;
    TouchedRows(db.journeys, request.journeyId, time, parseable);
    match request {
      case PostPacking(_, _, body) => TrimTwice(body.caption);
      case PutPacking(_, _, body, _) => TrimTwice(body.caption);
      case PutProgress(_, _, _, _) =>
      case DropPacking(_, itemId) =>
        var next := Serve(db, request, time).value;
        forall i | 0 <= i < |next.packing| ensures next.packing[i] in db.packing {
          var a := FilterIndex(db.packing, (p: PackingItem) => p.id != itemId, i);
        }
    }
  }

  lemma {:induction false} RunKeeps(db: JourneyData, requests: seq<Request>, time: string, parseable: string -> bool)
    requires GoodStamps(db, parseable) && Trimmed(db) && Timestamp(time, parseable) && ServeAll(db, requests, time).Ok?
    ensures GoodStamps(ServeAll(db, requests, time).value, parseable) && Trimmed(ServeAll(db, requests, time).value)
    decreases |requests|
  {
    hide GoodStamps, Trimmed, Timestamp, Serve;
    if requests != [] {
      var request := requests[0];
      if request.PostJourney? || request.PutJourney? || request.DropJourney? {
        JourneyRequestKeeps(db, request, time, parseable);
      } else if request.PostSegment? || request.PutSegment? || request.DropSegment? || request.Reorder? {
        SegmentRequestKeeps(db, request, time, parseable);
      } else {
        PackingRequestKeeps(db, request, time, parseable);
      }
      RunKeeps(Serve(db, request, time).value, requests[1..], time, parseable);
    }
  }

  lemma AcceptedStamps(db: JourneyData, parseable: string -> bool)
    requires Accepted(db, parseable)
    ensures GoodStamps(db, parseable)
  {
    hide NonEmpty, NullableDate, DatesInOrder, ValidDetails, ValidStamp, HasJourney, DistinctJourneys, DistinctSegments,
        DistinctPacking, DistinctPositions;
  }

  lemma JourneyContent(a: seq<Journey>, b: seq<Journey>, i: nat)
    requires SameJourneys(a, b) && i < |a|
    ensures a[i] == b[i].(stamp := a[i].stamp)
  {
    assert a[i].(stamp := NO_STAMP) == b[i].(stamp := NO_STAMP);
    assert a[i] == a[i].(stamp := NO_STAMP).(stamp := a[i].stamp);
  }

  lemma SegmentContent(a: seq<Segment>, b: seq<Segment>, i: nat)
    requires SameSegments(a, b) && i < |a|
    ensures a[i] == b[i].(stamp := a[i].stamp)
  {
    assert a[i].(stamp := NO_STAMP) == b[i].(stamp := NO_STAMP);
    assert a[i] == a[i].(stamp := NO_STAMP).(stamp := a[i].stamp);
  }

  lemma PackingContent(a: seq<PackingItem>, b: seq<PackingItem>, i: nat)
    requires SamePacking(a, b) && i < |a|
    ensures a[i] == b[i].(stamp := a[i].stamp)
  {
    assert a[i].(stamp := NO_STAMP) == b[i].(stamp := NO_STAMP);
    assert a[i] == a[i].(stamp := NO_STAMP).(stamp := a[i].stamp);
  }

  /** Accepted, dense and acceptable depend on content and valid stamps only. */
  lemma ContentSound(a: JourneyData, b: JourneyData, parseable: string -> bool)
    requires SameContent(a, b) && Sound(b, parseable) && Acceptable(b) && GoodStamps(a, parseable)
    ensures Sound(a, parseable) && Acceptable(a)
  {
    ContentJourneys(a.journeys, b.journeys, parseable);
    ContentSegments(a, b, parseable);
    ContentPacking(a, b, parseable);
    AcceptedParts(a, parseable);
    AcceptedParts(b, parseable);
    ContentAcceptable(a, b);
    hide Accepted, Acceptable, GoodJourneys, GoodSegments, GoodPacking, SameJourneys, SameSegments, SamePacking,
        GoodStamps, Dense;
  }

  lemma ContentJourneys(a: seq<Journey>, b: seq<Journey>, parseable: string -> bool)
    requires SameJourneys(a, b) && (forall i :: 0 <= i < |a| ==> ValidStamp(a[i].stamp, parseable))
    ensures GoodJourneys(b, parseable) ==> GoodJourneys(a, parseable)
    ensures SameIds(b, a)
  {
    hide NonEmpty, NullableDate, DatesInOrder, ValidStamp, SameJourneys;
    SameLength(a, b);
    forall i | 0 <= i < |a| ensures a[i] == b[i].(stamp := a[i].stamp) {
      JourneyContent(a, b, i);
    }
  }

  lemma SameLength(a: seq<Journey>, b: seq<Journey>)
    requires SameJourneys(a, b)
    ensures |a| == |b|
  {
  }

  lemma ContentSegments(a: JourneyData, b: JourneyData, parseable: string -> bool)
    requires SameJourneys(a.journeys, b.journeys) && SameSegments(a.segments, b.segments)
    requires forall i :: 0 <= i < |a.segments| ==> ValidStamp(a.segments[i].stamp, parseable)
    ensures GoodSegments(b.segments, b.journeys, parseable) ==> GoodSegments(a.segments, a.journeys, parseable)
    ensures Dense(b.segments) ==> Dense(a.segments)
  {
    hide NonEmpty, NullableDate, DatesInOrder, ValidDetails, ValidStamp, SameJourneys, HasJourney, Owned, SameIds;
    forall i | 0 <= i < |a.segments| ensures a.segments[i] == b.segments[i].(stamp := a.segments[i].stamp) {
      SegmentContent(a.segments, b.segments, i);
    }
    ContentIds(a.journeys, b.journeys);
    forall id ensures HasJourney(a.journeys, id) <==> HasJourney(b.journeys, id) {
      SameIdsHas(b.journeys, a.journeys, id);
    }
    forall journeyId ensures |Owned(a.segments, journeyId)| == |Owned(b.segments, journeyId)| {
      OwnedCount(a.segments, b.segments, journeyId);
    }
  }

  lemma ContentIds(a: seq<Journey>, b: seq<Journey>)
    requires SameJourneys(a, b)
    ensures SameIds(b, a)
  {
    forall i | 0 <= i < |a| ensures a[i].id == b[i].id {
      JourneyContent(a, b, i);
    }
  }

  lemma ContentPacking(a: JourneyData, b: JourneyData, parseable: string -> bool)
    requires SameJourneys(a.journeys, b.journeys) && SamePacking(a.packing, b.packing)
    requires forall i :: 0 <= i < |a.packing| ==> ValidStamp(a.packing[i].stamp, parseable)
    ensures GoodPacking(b.packing, b.journeys, parseable) ==> GoodPacking(a.packing, a.journeys, parseable)
  {
    hide NonEmpty, ValidStamp, SameJourneys, HasJourney, SameIds;
    forall i | 0 <= i < |a.packing| ensures a.packing[i] == b.packing[i].(stamp := a.packing[i].stamp) {
      PackingContent(a.packing, b.packing, i);
    }
    ContentIds(a.journeys, b.journeys);
    forall id ensures HasJourney(a.journeys, id) <==> HasJourney(b.journeys, id) {
      SameIdsHas(b.journeys, a.journeys, id);
    }
  }

  lemma ContentAcceptable(a: JourneyData, b: JourneyData)
    requires SameContent(a, b) && Acceptable(b)
    ensures Acceptable(a)
  {
    hide AcceptsJourney, AcceptsSegment, AcceptsPacking, SameJourneys, SameSegments, SamePacking;
    ContentLengths(a, b);
    forall i | 0 <= i < |a.journeys| ensures JourneyBodyOf(a.journeys[i]) == JourneyBodyOf(b.journeys[i]) {
      JourneyContent(a.journeys, b.journeys, i);
    }
    forall i | 0 <= i < |a.segments| ensures SegmentBodyOf(a.segments[i]) == SegmentBodyOf(b.segments[i]) {
      SegmentContent(a.segments, b.segments, i);
    }
    forall i | 0 <= i < |a.packing| ensures PackingBodyOf(a.packing[i]) == PackingBodyOf(b.packing[i]) {
      PackingContent(a.packing, b.packing, i);
    }
  }

  lemma ContentLengths(a: JourneyData, b: JourneyData)
    requires SameContent(a, b)
    ensures |a.journeys| == |b.journeys| && |a.segments| == |b.segments| && |a.packing| == |b.packing|
  {
  }

  /** Acceptable data carries well-formed dates, so an acceptable edit is an accepted one. */
  lemma AcceptableDates(db: JourneyData, edit: Edit, id: string, now: string, parseable: string -> bool)
    requires Sound(db, parseable) && FreshId(db, id) && Apply(db, edit, id, now).Ok? &&
        Acceptable(Apply(db, edit, id, now).value)
    ensures DatesWellFormed(edit)
  {
    var next := Apply(db, edit, id, now).value;
    hide Sound, FreshId, LocalDate, CalendarText, Before, Trim, NonEmpty, TrimDetails, ValidateSegment, ValidateJourney,
        Touch;
    match edit {
      case CreateJourney(input) =>
        assert AcceptsJourney(JourneyBodyOf(next.journeys[|db.journeys|]));
        StoredDates(input.startDate, input.endDate);
      case UpdateJourney(journeyId, input) =>
        var k :| 0 <= k < |db.journeys| && db.journeys[k].id == journeyId;
        assert AcceptsJourney(JourneyBodyOf(next.journeys[k]));
        StoredDates(input.startDate, input.endDate);
      case SaveSegment(journeyId, input, segmentId) =>
        var existing := if Given(segmentId) then FindSegment(db.segments, journeyId, segmentId.value) else None;
        if existing.Some? {
          var k := FoundSegment(db.segments, journeyId, segmentId.value);
          assert AcceptsSegment(SegmentBodyOf(next.segments[k]));
        } else {
          assert AcceptsSegment(SegmentBodyOf(next.segments[|db.segments|]));
        }
        StoredDates(input.startDate, input.endDate);
      case _ =>
    }
  }

  lemma StoredDates(start: string, end: string)
    ensures ServerDates(Dated(start), Dated(end)) ==> DateInput(start) && DateInput(end)
  {
  }
}
