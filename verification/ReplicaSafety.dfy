/** What every execution of the client keeps, through lost replies, crashes, resets and resumes: no command
    lives in two places, every queued command is covered, capacity holds, and outcomes are never replaced. */
module ReplicaSafety {
  import opened Basics
  import opened CommandProtocol
  import opened Reservations
  import opened ServerState
  import opened ServerRuns
  import opened ApplicationState
  import opened QuarantineStore
  import opened ReplicaClient

  // ---- one application transaction at a time ---

  ghost predicate HeldWithin(app: App, finalized: seq<Finalized>) {
    && |Held(app)| + |finalized| <= MAX_OUTSTANDING
    && Total(Held(app)) + FinalizedTotal(finalized) <= MAX_BYTES
  }

  ghost predicate AppSound(app: App) {
    Disjoint(app) && Fits(app)
  }

  lemma CapacityIsHeld(app: App, finalized: seq<Finalized>)
    requires Disjoint(app)
    ensures WithinCapacity(app, finalized) <==> HeldWithin(app, finalized)
  {
    UsageIsHeld(app);
    hide Held, Total, CapacityUsage;
  }

  lemma AddedOverlay(app: App, overlay: Overlay)
    requires overlay.command.commandId !in Active(app)
    ensures var id := overlay.command.commandId;
            AddAll(app, [overlay]) == Ok(app.(overlays := app.overlays[id := overlay]))
    ensures Held(app.(overlays := app.overlays[overlay.command.commandId := overlay])) ==
              Held(app)[overlay.command.commandId := overlay.reserved]
  {
    assert [overlay][..0] == [];
    assert AddAll(app, [overlay]) == AddOne(app, BatchIds([]), overlay);
  }

  lemma RemovedOverlay(app: App, id: string)
    ensures RemoveAll(app, [id]) == app.(overlays := app.overlays - {id})
    ensures Disjoint(app) && id in app.overlays ==> Held(RemoveAll(app, [id])) == Held(app) - {id}
  {
    assert [id][..0] == [];
    assert RemoveAll(app, [id]) == RemoveAll(app, []).(overlays := RemoveAll(app, []).overlays - {id});
  }

  lemma PersistedResult(app: App, result: TerminalResult)
    ensures PersistAll(app, [result]) == PersistOne(app, result)
  {
    assert [result][..0] == [];
    hide PersistOne;
  }

  lemma MarkedResult(app: App, id: string)
    ensures id in app.results ==> MarkAll(app, [id]) == Ok(app.(results := app.results[id := app.results[id].(completed := true)]))
    ensures id in app.results ==> Held(MarkAll(app, [id]).value) == Held(app)
  {
    assert [id][..0] == [];
    assert MarkAll(app, []) == Ok(app);
  }

  lemma AcknowledgedResult(app: App, id: string)
    requires Disjoint(app)
    ensures AcknowledgeOne(app, id).1 ==> Held(AcknowledgeOne(app, id).0) == Held(app) - {id} && id in Held(app)
  {
  }

  lemma HeldShrinks(held: map<string, nat>, id: string)
    requires id in held
    ensures |held - {id}| == |held| - 1 && Total(held - {id}) <= Total(held)
  {
    TotalRemove(held, id);
    assert held == (held - {id})[id := held[id]];
  }

  lemma ClearedOverlays(app: App)
    requires Disjoint(app)
    ensures |Held(ClearAll(app))| <= |Held(app)| && Total(Held(ClearAll(app))) <= Total(Held(app))
  {
    UsageIsHeld(app);
    UsageIsHeld(ClearAll(app));
    assert ResultReservations(ClearAll(app)) == ResultReservations(app);
    assert OverlayReservations(ClearAll(app)) == map[];
    hide Total, Held, ResultReservations, OverlayReservations;
    TotalEmpty<string>();
  }

  // ---- the queue is covered ---

  ghost predicate Unfinished(app: App, id: string) {
    id in app.results && !app.results[id].completed
  }

  ghost predicate Owned(app: App, id: string) {
    id in app.overlays || Unfinished(app, id)
  }

  /** Every queued command has an overlay or a result the queue entry has yet to be removed for. */
  ghost predicate QueueCovered(queue: seq<Command>, app: App) {
    && (forall i :: 0 <= i < |queue| ==> Owned(app, queue[i].commandId))
    && (forall i, j :: 0 <= i < j < |queue| ==> queue[i].commandId != queue[j].commandId)
  }

  ghost predicate Absent(queue: seq<Command>, id: string) {
    forall i :: 0 <= i < |queue| ==> queue[i].commandId != id
  }

  ghost predicate UploadSound(upload: Upload, queue: seq<Command>, app: App) {
    match upload
    case Resting => true
    case Waiting(command, _) => queue != [] && queue[0] == command
    case Persisting(result) => queue != [] && queue[0].commandId == result.commandId
    case Completing(id) => queue != [] && queue[0].commandId == id && Unfinished(app, id)
    case Marking(id) => Absent(queue, id) && Unfinished(app, id)
  }

  /** What a transaction on the application tables leaves in force; `gone` is the command it lets go of. */
  ghost predicate Carries(app: App, t: App, gone: Option<string>) {
    && AppSound(t)
    && t.session == app.session
    && (forall id :: Owned(app, id) && gone != Some(id) ==> Owned(t, id))
    && (forall id :: Unfinished(app, id) && gone != Some(id) ==> Unfinished(t, id))
  }

  lemma AddCarries(app: App, overlay: Overlay)
    requires AppSound(app) && overlay.command.commandId !in Active(app)
    ensures Carries(app, app.(overlays := app.overlays[overlay.command.commandId := overlay]), None)
  {
    hide ResultBytes;
  }

  lemma RollbackCarries(app: App, id: string)
    requires AppSound(app)
    ensures Carries(app, app.(overlays := app.overlays - {id}), Some(id))
  {
    hide ResultBytes;
  }

  lemma AcknowledgeCarries(app: App, id: string)
    requires AppSound(app)
    ensures Carries(app, AcknowledgeOne(app, id).0, None)
  {
    hide ResultBytes;
  }

  lemma PersistCarries(app: App, result: TerminalResult, t: App)
    requires AppSound(app) && Owned(app, result.commandId) && PersistOne(app, result) == Ok(t)
    ensures Carries(app, t, None) && Unfinished(t, result.commandId) && Held(t) == Held(app)
    ensures t.overlays == app.overlays - {result.commandId}
  {
    hide PersistOne, Held, SameOutcome, Fits;
    PersistOneKeeps(app, result, t);
    PersistedRow(app, result, t);
    forall id | Owned(app, id) ensures Owned(t, id) {
      if id == result.commandId {
        assert Unfinished(t, id);
      }
    }
  }

  /** Only the settled command's own row, overlay and attempts change. */
  lemma PersistedRow(app: App, result: TerminalResult, t: App)
    requires PersistOne(app, result) == Ok(t)
    ensures var id := result.commandId;
            && t.overlays == app.overlays - {id} && t.session == app.session && id in t.results
            && (forall other :: other in app.results ==> other in t.results && t.results[other] == app.results[other])
            && (id !in app.results ==> !t.results[id].completed && t.results[id].result == result)
            && (forall other :: other in t.results && other != id ==> other in app.results)
  {
    hide ResultBytes, CapacityUsage;
  }

  lemma MarkCarries(app: App, id: string)
    requires AppSound(app) && id in app.results
    ensures Carries(app, app.(results := app.results[id := app.results[id].(completed := true)]), Some(id))
  {
    hide ResultBytes;
  }

  lemma SameTables(app: App, t: App)
    requires t.results == app.results && t.overlays == app.overlays
    ensures Held(t) == Held(app) && (AppSound(app) ==> AppSound(t))
  {
    hide ResultBytes;
  }

  lemma CarriedQueue(queue: seq<Command>, app: App, t: App, gone: Option<string>)
    requires QueueCovered(queue, app) && Carries(app, t, gone) && (gone.Some? ==> Absent(queue, gone.value))
    ensures QueueCovered(queue, t)
  {
    hide Owned, Unfinished, AppSound;
  }

  lemma CarriedUpload(upload: Upload, queue: seq<Command>, app: App, t: App, gone: Option<string>)
    requires UploadSound(upload, queue, app) && Carries(app, t, gone)
    requires gone.Some? ==> !Unfinished(app, gone.value)
    ensures UploadSound(upload, queue, t)
  {
    hide AppSound, Absent;
  }

  /** Which phase of the reset file each point of the program works in, and what is already empty there. */
  ghost predicate PcSound(pc: Pc, disk: Disk) {
    match pc
    case Idle => disk.reset.None?
    case Inserting(command) =>
      disk.reset.None? && command.commandId in disk.app.overlays && Absent(disk.queue, command.commandId)
    case Asking(_, _, _) => disk.reset.None?
    case Snapshotted(_) => disk.reset.None?
    case Resetting => disk.reset.Some? && disk.reset.value.Quarantined?
    case Staging(_) => disk.reset.Some? && disk.reset.value.Quarantined?
    case Storing(_) => disk.reset.Some? && disk.reset.value.SessionStaged?
    case Acknowledging => disk.reset.Some? && disk.reset.value.SessionStaged?
    case Clearing => disk.reset.Some? && disk.reset.value.SessionStaged?
    case Uncovering => disk.reset.Some? && disk.reset.value.SessionStaged? && disk.queue == []
    case Closing => disk.reset.Some? && disk.reset.value.SessionStaged? && disk.queue == [] &&
        disk.app.overlays == map[]
    case Challenging => disk.reset.None? || disk.reset.value.Cleared?
    case Observing(_) => disk.reset.None? || disk.reset.value.Cleared?
    case Finalizing(_, _, _) => disk.reset.Some? && disk.reset.value.Cleared?
    case Unlinking => disk.reset.Some? && disk.reset.value.Cleared?
  }

  /** Once the cleared phase is durable there is nothing left to upload and nothing optimistic to show. */
  ghost predicate ResetSound(disk: Disk) {
    disk.reset.Some? && disk.reset.value.Cleared? ==> disk.queue == [] && disk.app.overlays == map[]
  }

  ghost predicate ProcessSound(disk: Disk, mem: Memory) {
    && PcSound(mem.pc, disk)
    && UploadSound(mem.upload, disk.queue, disk.app)
    && (mem.upload != Resting ==> Connected(mem.pc))
    && HeldWithin(disk.app, mem.finalized)
  }

  ghost predicate DiskSound(disk: Disk) {
    && AppSound(disk.app) && QueueCovered(disk.queue, disk.app) && ResetSound(disk) && HeldWithin(disk.app, [])
  }

  ghost predicate Sound(disk: Disk, process: Process) {
    DiskSound(disk) && (process.Up? ==> ProcessSound(disk, process.mem))
  }

  lemma WithoutFinalized(app: App, finalized: seq<Finalized>)
    requires HeldWithin(app, finalized)
    ensures HeldWithin(app, [])
  {
    hide Held, Total;
  }

  /** Putting a sound state back together after a transaction that keeps the reset file and the queue. */
  lemma Resume(disk: Disk, mem: Memory, t: App, gone: Option<string>, next: Memory)
    requires DiskSound(disk) && ProcessSound(disk, mem) && disk.reset.None?
    requires Carries(disk.app, t, gone) && HeldWithin(t, mem.finalized)
    requires gone.Some? ==> Absent(disk.queue, gone.value)
    requires next == mem.(pc := next.pc, upload := next.upload)
    requires PcSound(next.pc, disk.(app := t)) && UploadSound(next.upload, disk.queue, t) &&
        (next.upload != Resting ==> Connected(next.pc))
    ensures DiskSound(disk.(app := t)) && ProcessSound(disk.(app := t), next)
  {
    CarriedQueue(disk.queue, disk.app, t, gone);
    WithoutFinalized(t, mem.finalized);
    hide HeldWithin, QueueCovered, UploadSound, AppSound;
  }

  // ---- application calls ---

  lemma QueueSound(disk: Disk, mem: Memory, command: Command)
    requires DiskSound(disk) && ProcessSound(disk, mem)
    ensures var next := QueueOverlay(disk, mem, command); DiskSound(next.0) && ProcessSound(next.0, next.1)
  {
    if mem.pc.Idle? && Admits(disk.app, mem.finalized, command) {
      var t := disk.app.(overlays := disk.app.overlays[command.commandId := OverlayFor(command)]);
      AddedOverlay(disk.app, OverlayFor(command));
      AdmittedWithin(disk.app, mem.finalized, command);
      AddCarries(disk.app, OverlayFor(command));
      CarriedUpload(mem.upload, disk.queue, disk.app, t, None);
      NotQueued(disk.queue, disk.app, command.commandId);
      hide Held, CapacityUsage, FinalizedTotal, OverlayFor, AddAll, HeldWithin, QueueCovered, UploadSound, Carries,
          AppSound, Absent;
      Resume(disk, mem, t, None, mem.(pc := Inserting(command)));
    }
  }

  lemma NotQueued(queue: seq<Command>, app: App, id: string)
    requires QueueCovered(queue, app) && id !in Active(app)
    ensures Absent(queue, id)
  {
  }

  lemma AdmittedWithin(app: App, finalized: seq<Finalized>, command: Command)
    requires Disjoint(app) && Admits(app, finalized, command)
    ensures HeldWithin(app.(overlays := app.overlays[command.commandId := OverlayFor(command)]), finalized)
  {
    var id, overlay := command.commandId, OverlayFor(command);
    AddedOverlay(app, overlay);
    UsageIsHeld(app);
    assert id !in Held(app);
    TotalInsert(Held(app), id, overlay.reserved);
    hide Total, OverlayFor, CapacityUsage, FinalizedTotal;
    assert |Held(app)[id := overlay.reserved]| == |Held(app)| + 1;
  }

  lemma InsertSound(disk: Disk, mem: Memory)
    requires DiskSound(disk) && ProcessSound(disk, mem) && mem.pc.Inserting?
    ensures var next := disk.(queue := disk.queue + [QueuedForm(mem.pc.command)]);
            DiskSound(next) && ProcessSound(next, mem.(pc := Idle))
  {
    hide HeldWithin, Fits;
  }

  lemma RollbackSound(disk: Disk, mem: Memory)
    requires DiskSound(disk) && ProcessSound(disk, mem) && mem.pc.Inserting?
    ensures var next := disk.(app := RemoveAll(disk.app, [mem.pc.command.commandId]));
            DiskSound(next) && ProcessSound(next, mem.(pc := Idle))
  {
    var id := mem.pc.command.commandId;
    var t := disk.app.(overlays := disk.app.overlays - {id});
    RemovedOverlay(disk.app, id);
    RollbackCarries(disk.app, id);
    assert HeldWithin(t, mem.finalized) by { ShrunkWithin(disk.app, t, id, mem.finalized); }
    assert !Unfinished(disk.app, id);
    CarriedUpload(mem.upload, disk.queue, disk.app, t, Some(id));
    hide Held, FinalizedTotal, RemoveAll, HeldWithin, QueueCovered, UploadSound, Carries, AppSound, Absent, Unfinished;
    Resume(disk, mem, t, Some(id), mem.(pc := Idle));
  }

  lemma ShrunkWithin(app: App, t: App, id: string, finalized: seq<Finalized>)
    requires HeldWithin(app, finalized) && id in Held(app) && Held(t) == Held(app) - {id}
    ensures HeldWithin(t, finalized)
  {
    HeldShrinks(Held(app), id);
    hide Held, Total, FinalizedTotal;
  }

  lemma AcknowledgeSound(disk: Disk, mem: Memory, id: string)
    requires DiskSound(disk) && ProcessSound(disk, mem) && mem.pc.Idle?
    ensures var next := disk.(app := AcknowledgeOne(disk.app, id).0); DiskSound(next) && ProcessSound(next, mem)
  {
    var t := AcknowledgeOne(disk.app, id).0;
    if AcknowledgeOne(disk.app, id).1 {
      AcknowledgedResult(disk.app, id);
      ShrunkWithin(disk.app, t, id, mem.finalized);
    }
    AcknowledgeCarries(disk.app, id);
    CarriedUpload(mem.upload, disk.queue, disk.app, t, None);
    hide Held, FinalizedTotal, HeldWithin, QueueCovered, UploadSound, Carries, AppSound;
    Resume(disk, mem, t, None, mem);
  }

  lemma {:induction false} TotalWithout(items: seq<Finalized>, k: nat)
    requires k < |items|
    ensures FinalizedTotal(items[..k] + items[k + 1..]) <= FinalizedTotal(items)
  {
    var last := |items| - 1;
    if k < last {
      TotalWithout(items[..last], k);
      assert (items[..k] + items[k + 1..])[..last - 1] == items[..last][..k] + items[..last][k + 1..];
    } else {
      assert items[..k] + items[k + 1..] == items[..last];
    }
  }

  lemma DiscardWithin(app: App, finalized: seq<Finalized>, id: string, store: Store)
    requires HeldWithin(app, finalized) && Acknowledge(finalized, id) == Some(store)
    ensures HeldWithin(app, store.finalized)
  {
    hide Held, Total;
    var k := WithoutRemoves(finalized, id);
    TotalWithout(finalized, k);
  }

  lemma DiscardSound(disk: Disk, mem: Memory, id: string, store: Store)
    requires DiskSound(disk) && ProcessSound(disk, mem) && Acknowledge(mem.finalized, id) == Some(store)
    ensures var next := disk.(quarantine := Some(store));
            DiskSound(next) && ProcessSound(next, mem.(finalized := store.finalized))
  {
    hide HeldWithin, AppSound, QueueCovered, UploadSound, Acknowledge;
    DiscardWithin(disk.app, mem.finalized, id, store);
  }

  // ---- uploading ---

  lemma UploadMoves(disk: Disk, mem: Memory, next: Memory)
    requires ProcessSound(disk, mem) && next == mem.(upload := next.upload, needsReset := next.needsReset)
    requires UploadSound(next.upload, disk.queue, disk.app) && (next.upload != Resting ==> Connected(mem.pc))
    ensures ProcessSound(disk, next)
  {
    hide HeldWithin, UploadSound, PcSound;
  }

  lemma CountedFailure(app: App, attempts: map<string, nat>, finalized: seq<Finalized>)
    requires AppSound(app)
    ensures Carries(app, app.(attempts := attempts), None)
    ensures HeldWithin(app, finalized) ==> HeldWithin(app.(attempts := attempts), finalized)
  {
    SameTables(app, app.(attempts := attempts));
    hide Held, AppSound, Total, FinalizedTotal;
  }

  lemma FailureSound(disk: Disk, mem: Memory, command: Command, session: Session)
    requires DiskSound(disk) && ProcessSound(disk, mem) && mem.upload == Waiting(command, session)
    ensures var next := CountFailure(disk, mem, command, session); DiskSound(next.0) && ProcessSound(next.0, next.1)
  {
    var recorded := RecordFailure(disk.app, command.commandId);
    if recorded.Ok? {
      CountedFailure(disk.app, recorded.value.0.attempts, mem.finalized);
      hide CommandDigest, HeldWithin, QueueCovered, AppSound, Carries;
      Resume(disk, mem, recorded.value.0, None, CountFailure(disk, mem, command, session).1);
    }
  }

  lemma JudgedCommand(command: Command, binding: Binding, answer: Answer)
    ensures Judge(command, binding, answer).Terminal? ==>
        Judge(command, binding, answer).result.commandId == command.commandId
  {
  }

  lemma ReplySound(w: World, mem: Memory, attempt: int)
    requires DiskSound(w.disk) && ProcessSound(w.disk, mem) && mem.upload.Waiting?
    ensures Sound(ReceiveReply(w, mem, attempt).disk, ReceiveReply(w, mem, attempt).process)
  {
    hide HandleCommand, Judge, CountFailure;
    var command, session := mem.upload.command, mem.upload.session;
    FailureSound(w.disk, mem, command, session);
    JudgedCommand(command, BindingOf(session), HandleCommand(w.server, w.user, session, command, attempt).1);
    UploadMoves(w.disk, mem, mem.(upload := Resting));
    UploadMoves(w.disk, mem, mem.(needsReset := true, upload := Resting));
    var verdict := Judge(command, BindingOf(session), HandleCommand(w.server, w.user, session, command, attempt).1);
    if verdict.Terminal? {
      assert UploadSound(Persisting(verdict.result), w.disk.queue, w.disk.app);
      UploadMoves(w.disk, mem, mem.(upload := Persisting(verdict.result)));
    }
  }

  lemma PersistSound(disk: Disk, mem: Memory, result: TerminalResult, app: App)
    requires DiskSound(disk) && ProcessSound(disk, mem) && mem.upload == Persisting(result)
    requires PersistAll(disk.app, [result]) == Ok(app)
    ensures var next := disk.(app := app);
            DiskSound(next) && ProcessSound(next, mem.(upload := Completing(result.commandId)))
  {
    hide PersistOne, PersistAll, AppSound, Held, HeldWithin, Carries, Unfinished, Owned, PcSound;
    PersistedResult(disk.app, result);
    assert Owned(disk.app, disk.queue[0].commandId);
    PersistCarries(disk.app, result, app);
    SameHeld(disk.app, app, mem.finalized);
    PersistedPc(disk, mem, app);
    hide QueueCovered;
    Resume(disk, mem, app, None, mem.(upload := Completing(result.commandId)));
  }

  /** The command being inserted is not the one being settled, which is already queued. */
  lemma PersistedPc(disk: Disk, mem: Memory, t: App)
    requires PcSound(mem.pc, disk) && Connected(mem.pc)
    requires disk.queue != [] && t.overlays == disk.app.overlays - {disk.queue[0].commandId}
    ensures PcSound(mem.pc, disk.(app := t)) && disk.reset.None?
  {
  }

  lemma SameHeld(app: App, t: App, finalized: seq<Finalized>)
    requires HeldWithin(app, finalized) && Held(t) == Held(app)
    ensures HeldWithin(t, finalized)
  {
    hide Held;
  }

  lemma CompleteSound(disk: Disk, mem: Memory, id: string)
    requires DiskSound(disk) && ProcessSound(disk, mem) && mem.upload == Completing(id)
    ensures var next := disk.(queue := disk.queue[1..]);
            DiskSound(next) && ProcessSound(next, mem.(upload := Marking(id)))
  {
    hide HeldWithin, AppSound, Owned, Unfinished;
  }

  lemma MarkSound(disk: Disk, mem: Memory, id: string)
    requires DiskSound(disk) && ProcessSound(disk, mem) && mem.upload == Marking(id)
    ensures MarkAll(disk.app, [id]).Ok?
    ensures var next := disk.(app := MarkAll(disk.app, [id]).value);
            DiskSound(next) && ProcessSound(next, mem.(upload := Resting))
  {
    var t := disk.app.(results := disk.app.results[id := disk.app.results[id].(completed := true)]);
    MarkedResult(disk.app, id);
    MarkCarries(disk.app, id);
    SameHeld(disk.app, t, mem.finalized);
    hide MarkAll, Held, HeldWithin, AppSound, QueueCovered, Carries, Absent;
    Resume(disk, mem, t, Some(id), mem.(upload := Resting));
  }

  lemma UploadStepSound(w: World, mem: Memory, step: Step)
    requires w.process == Up(mem) && Sound(w.disk, w.process) && Connected(mem.pc)
    ensures var next := UploadStep(w, mem, step); Sound(next.disk, next.process)
  {
    hide DiskSound, HeldWithin, PersistAll, MarkAll, ReceiveReply, CountFailure, PcSound, UploadSound, ProcessSound;
    match (step, mem.upload) {
      case (Send(attempt), Resting) =>
        if w.disk.queue != [] {
          SendMoves(w.disk, mem);
        }
      case (Reply(attempt), Waiting(_, _)) => ReplySound(w, mem, attempt);
      case (LoseReply, Waiting(command, session)) => FailureSound(w.disk, mem, command, session);
      case (Persist, Persisting(result)) =>
        RestMoves(w.disk, mem);
        if PersistAll(w.disk.app, [result]).Ok? {
          PersistSound(w.disk, mem, result, PersistAll(w.disk.app, [result]).value);
        }
      case (Complete, Completing(id)) => CompleteSound(w.disk, mem, id);
      case (Mark, Marking(id)) => MarkSound(w.disk, mem, id);
      case _ =>
    }
  }

  lemma RestMoves(disk: Disk, mem: Memory)
    requires ProcessSound(disk, mem)
    ensures ProcessSound(disk, mem.(upload := Resting))
  {
    UploadMoves(disk, mem, mem.(upload := Resting));
  }

  lemma SendMoves(disk: Disk, mem: Memory)
    requires ProcessSound(disk, mem) && disk.queue != [] && Connected(mem.pc)
    ensures ProcessSound(disk, mem.(upload := Waiting(disk.queue[0], mem.session)))
  {
    UploadMoves(disk, mem, mem.(upload := Waiting(disk.queue[0], mem.session)));
  }

  // ---- the reset and the open ---

  lemma AskingSound(w: World, mem: Memory)
    requires w.process == Up(mem) && Sound(w.disk, w.process) && mem.pc.Asking?
    ensures var next := AdvanceAsking(w, mem); Sound(next.disk, next.process)
  {
    hide HeldWithin, QueueCovered, AppSound, ResetCapacity, Classify, IntentFor;
  }

  lemma RotationSound(w: World, mem: Memory, token: string)
    requires w.process == Up(mem) && Sound(w.disk, w.process)
    requires mem.pc.Snapshotted? || ((mem.pc.Resetting? || mem.pc.Staging?) && w.disk.reset.Some? &&
        w.disk.reset.value.Quarantined?)
    ensures var next := AdvanceRotation(w, mem, token); Sound(next.disk, next.process)
  {
    hide HeldWithin, QueueCovered, AppSound, CheckedStore, ResetReplica;
  }

  lemma StoredSession(disk: Disk, session: Session, count: int, finalized: seq<Finalized>)
    requires DiskSound(disk) && HeldWithin(disk.app, finalized)
    ensures DiskSound(disk.(app := StoreSession(disk.app, session, count)))
    ensures HeldWithin(StoreSession(disk.app, session, count), finalized)
  {
    var t := StoreSession(disk.app, session, count);
    SameTables(disk.app, t);
    hide Held, AppSound, HeldWithin, QueueCovered;
    SameHeld(disk.app, t, finalized);
    SameHeld(disk.app, t, []);
    SameOwners(disk.queue, disk.app, t);
  }

  lemma SameOwners(queue: seq<Command>, app: App, t: App)
    requires QueueCovered(queue, app) && t.results == app.results && t.overlays == app.overlays
    ensures QueueCovered(queue, t)
  {
    assert forall id :: Owned(app, id) ==> Owned(t, id);
  }

  lemma ClearCarries(app: App)
    requires AppSound(app)
    ensures AppSound(ClearAll(app))
  {
    hide ResultBytes;
  }

  lemma ClearedWithin(app: App, finalized: seq<Finalized>)
    requires Disjoint(app) && HeldWithin(app, finalized)
    ensures HeldWithin(ClearAll(app), finalized)
  {
    ClearedOverlays(app);
    hide Held, Total, FinalizedTotal;
  }

  lemma ClearedSound(disk: Disk, mem: Memory)
    requires DiskSound(disk) && ProcessSound(disk, mem) && mem.pc.Uncovering?
    ensures var next := disk.(app := ClearAll(disk.app)); DiskSound(next) && ProcessSound(next, mem.(pc := Closing))
  {
    ClearCarries(disk.app);
    ClearedWithin(disk.app, mem.finalized);
    WithoutFinalized(ClearAll(disk.app), mem.finalized);
    assert mem.upload == Resting;
    hide HeldWithin, AppSound;
  }

  lemma EmptiedSound(disk: Disk, mem: Memory)
    requires DiskSound(disk) && ProcessSound(disk, mem) && mem.pc.Clearing?
    ensures var next := disk.(queue := []); DiskSound(next) && ProcessSound(next, mem.(pc := Uncovering))
  {
    hide HeldWithin, AppSound;
  }

  lemma StoringSound(disk: Disk, mem: Memory)
    requires DiskSound(disk) && ProcessSound(disk, mem) && mem.pc.Storing?
    ensures var next := disk.(app := StoreSession(disk.app, mem.pc.next, mem.resetCount + 1));
            DiskSound(next) && ProcessSound(next, mem.(session := mem.pc.next, resetCount := mem.resetCount + 1,
                pc := Acknowledging))
  {
    hide HeldWithin, QueueCovered, AppSound;
    StoredSession(disk, mem.pc.next, mem.resetCount + 1, mem.finalized);
  }

  lemma AcknowledgedMoves(disk: Disk, mem: Memory)
    requires ProcessSound(disk, mem) && mem.pc.Acknowledging?
    ensures ProcessSound(disk, mem.(pc := Clearing))
  {
    hide HeldWithin;
  }

  lemma ClosedSound(disk: Disk, mem: Memory)
    requires DiskSound(disk) && ProcessSound(disk, mem) && mem.pc.Closing?
    ensures var file := disk.reset.value;
            var next := disk.(reset := Some(Cleared(file.requestId, file.previous, file.next)));
            DiskSound(next) && ProcessSound(next, mem.(pc := Challenging))
  {
    hide HeldWithin, AppSound;
  }

  lemma ClearingSound(w: World, mem: Memory)
    requires w.process == Up(mem) && Sound(w.disk, w.process)
    requires mem.pc.Storing? || mem.pc.Acknowledging? || mem.pc.Clearing? || mem.pc.Uncovering? || mem.pc.Closing?
    requires w.disk.reset.Some? && w.disk.reset.value.SessionStaged?
    ensures var next := AdvanceClearing(w, mem); Sound(next.disk, next.process)
  {
    hide DiskSound, ProcessSound, CheckedStore, AcknowledgeReset, ClearAll, StoreSession;
    match mem.pc {
      case Storing(_) => StoringSound(w.disk, mem);
      case Acknowledging => AcknowledgedMoves(w.disk, mem);
      case Clearing => EmptiedSound(w.disk, mem);
      case Uncovering => ClearedSound(w.disk, mem);
      case Closing => ClosedSound(w.disk, mem);
    }
  }

  lemma ObservedSound(disk: Disk, mem: Memory, pc: Pc)
    requires DiskSound(disk) && ProcessSound(disk, mem) && mem.pc.Observing?
    requires if disk.reset.None? then pc.Idle? else pc.Finalizing?
    ensures var next := disk.(app := StoreSession(disk.app, mem.session, mem.resetCount));
            DiskSound(next) && ProcessSound(next, mem.(pc := pc, needsReset := false))
  {
    hide HeldWithin, QueueCovered, AppSound;
    StoredSession(disk, mem.session, mem.resetCount, mem.finalized);
    assert mem.upload == Resting;
  }

  lemma ChallengedSound(disk: Disk, mem: Memory, token: string)
    requires ProcessSound(disk, mem) && mem.pc.Challenging?
    ensures ProcessSound(disk, mem.(pc := Observing(token)))
  {
    hide HeldWithin;
  }

  lemma ObservingSound(w: World, mem: Memory, token: string)
    requires w.process == Up(mem) && Sound(w.disk, w.process) && (mem.pc.Challenging? || mem.pc.Observing?)
    ensures var next := AdvanceObserving(w, mem, token); Sound(next.disk, next.process)
  {
    hide DiskSound, ProcessSound, AcknowledgeChallenge, IssueChallenge, ReadBack, StoreSession;
    if mem.pc.Challenging? {
      ChallengedSound(w.disk, mem, token);
    } else if w.disk.reset.None? {
      ObservedSound(w.disk, mem, Idle);
    } else {
      ObservedSound(w.disk, mem, Finalizing(Store([], []), [], None));
      if ReadBack(w.disk.quarantine).Ok? {
        ObservedSound(w.disk, mem, Finalizing(ReadBack(w.disk.quarantine).value, [], None));
      }
    }
  }

  /** With no overlay left, the reset's capacity check is the combined check. */
  lemma ResetCheckCovers(app: App, merged: seq<Finalized>)
    requires Disjoint(app) && app.overlays == map[] && ResetCapacity(app, Store(merged, []))
    ensures HeldWithin(app, merged)
  {
    HeldCount(app);
    assert Held(app) == ResultReservations(app);
    assert PendingTotal([]) == 0;
    hide Held, ResultReservations, Total, FinalizedTotal;
  }

  lemma MergedSound(disk: Disk, mem: Memory, merged: seq<Finalized>)
    requires DiskSound(disk) && ProcessSound(disk, mem) && mem.pc.Finalizing? &&
        ResetCapacity(disk.app, Store(merged, []))
    ensures var next := disk.(quarantine := Some(Store(merged, [])));
            DiskSound(next) && ProcessSound(next, mem.(finalized := merged, pc := Unlinking))
  {
    assert disk.app.overlays == map[] && Disjoint(disk.app);
    ResetCheckCovers(disk.app, merged);
    hide HeldWithin, QueueCovered, AppSound, ResetCapacity, UploadSound;
  }

  lemma ProgramMoves(disk: Disk, mem: Memory, pc: Pc)
    requires ProcessSound(disk, mem) && mem.pc.Finalizing? && pc.Finalizing?
    ensures ProcessSound(disk, mem.(pc := pc))
  {
    hide HeldWithin;
  }

  lemma FinalizingSound(w: World, mem: Memory, collation: string -> real)
    requires w.process == Up(mem) && Sound(w.disk, w.process) && mem.pc.Finalizing?
    ensures var next := AdvanceFinalizing(w, mem, collation); Sound(next.disk, next.process)
  {
    hide DiskSound, ProcessSound, ResetCapacity, SortById, UniqueIds, FinalizedBytes, Finalize, Classify, FinalizedIds;
    if |mem.pc.additions| < |mem.pc.retained.pending| {
      var next := AdvanceFinalizing(w, mem, collation);
      if next.process.Up? {
        ProgramMoves(w.disk, mem, next.process.mem.pc);
      }
    } else {
      var merged := SortById(mem.pc.retained.finalized + mem.pc.additions, collation);
      if ResetCapacity(w.disk.app, Store(merged, [])) {
        MergedSound(w.disk, mem, merged);
      }
    }
  }

  lemma AdvanceSound(w: World, mem: Memory, token: string, collation: string -> real)
    requires w.process == Up(mem) && Sound(w.disk, w.process)
    ensures var next := Advance(w, mem, token, collation); Sound(next.disk, next.process)
  {
    hide HeldWithin, QueueCovered, AppSound, AdvanceAsking, AdvanceRotation, AdvanceClearing, AdvanceObserving,
        AdvanceFinalizing;
    if mem.pc.Asking? {
      AskingSound(w, mem);
    } else if mem.pc.Snapshotted? || mem.pc.Resetting? || mem.pc.Staging? {
      RotationSound(w, mem, token);
    } else if mem.pc.Storing? || mem.pc.Acknowledging? || mem.pc.Clearing? || mem.pc.Uncovering? || mem.pc.Closing? {
      ClearingSound(w, mem);
    } else if mem.pc.Challenging? || mem.pc.Observing? {
      ObservingSound(w, mem, token);
    } else if mem.pc.Finalizing? {
      FinalizingSound(w, mem, collation);
    }
  }

  lemma OpenSound(disk: Disk)
    requires DiskSound(disk)
    ensures Sound(disk, OpenProcess(disk))
  {
    if OpenChecks(disk) && ResumePc(disk).Some? {
      ResumedPc(disk);
      OpenedWithin(disk);
      hide DiskSound, HeldWithin, PcSound, OpenChecks, ResumePc, ReadBack;
    }
  }

  lemma OpenedWithin(disk: Disk)
    requires OpenChecks(disk)
    ensures HeldWithin(disk.app, ReadBack(disk.quarantine).value.finalized)
  {
    hide Active, ReadBack;
    CapacityIsHeld(disk.app, ReadBack(disk.quarantine).value.finalized);
  }

  lemma ResumedPc(disk: Disk)
    requires disk.app.session.Some? && ResumePc(disk).Some?
    ensures PcSound(ResumePc(disk).value, disk)
  {
  }

  // ---- every execution ---

  lemma StepSound(w: World, step: Step, collation: string -> real)
    requires Sound(w.disk, w.process)
    ensures var next := Next(w, step, collation); Sound(next.disk, next.process)
  {
    hide HeldWithin, QueueCovered, AppSound, OpenProcess, Advance, UploadStep, QueueOverlay, BeginSnapshot,
        ServerRuns.Step, Enabled, Handle;
    if step.Open? {
      OpenSound(w.disk);
    } else if w.process.Up? {
      var mem := w.process.mem;
      match step {
        case Queue(command) => QueueSound(w.disk, mem, command);
        case InsertQueued => if mem.pc.Inserting? { InsertSound(w.disk, mem); }
        case InsertFails => if mem.pc.Inserting? { RollbackSound(w.disk, mem); }
        case AcknowledgeResult(id) => if mem.pc.Idle? { AcknowledgeSound(w.disk, mem, id); }
        case AcknowledgeQuarantined(id) =>
          if Acknowledge(mem.finalized, id).Some? {
            DiscardSound(w.disk, mem, id, Acknowledge(mem.finalized, id).value);
          }
        case BeginReset(orphans) => SnapshotSound(w.disk, mem, orphans);
        case Program(token) => AdvanceSound(w, mem, token, collation);
        case _ => if Connected(mem.pc) { UploadStepSound(w, mem, step); }
      }
    }
  }

  lemma SnapshotSound(disk: Disk, mem: Memory, orphans: seq<Command>)
    requires DiskSound(disk) && ProcessSound(disk, mem)
    ensures ProcessSound(disk, BeginSnapshot(disk, mem, orphans))
  {
    hide HeldWithin, QueueCovered, AppSound, ListsOrphans, Snapshotable;
  }

  lemma FreshSound(w: World)
    requires Fresh(w)
    ensures Sound(w.disk, w.process)
  {
    HeldCount(w.disk.app);
    assert Held(w.disk.app) == map[];
    TotalEmpty<string>();
  }

  /** Every reachable world is sound: results and overlays never share a command, every queue entry is
      covered, and results, overlays and finalized quarantine stay within 64 entries and 65,536 bytes. */
  lemma {:induction false} ExecutionSound(worlds: seq<World>, steps: seq<Step>, collation: string -> real, n: nat)
    requires IsExecution(worlds, steps, collation) && Fresh(worlds[0]) && n < |worlds|
    ensures Sound(worlds[n].disk, worlds[n].process)
  {
    hide Next, Sound, Fresh;
    if n == 0 {
      FreshSound(worlds[0]);
    } else {
      ExecutionSound(worlds, steps, collation, n - 1);
      StepSound(worlds[n - 1], steps[n - 1], collation);
    }
  }
}
