/** Nothing is lost: in an execution that queues only commands the quarantine can hold, and begins no reset while an
    upload is half settled, every reset meets its own preconditions, and every command stays in exactly the places the
    client can show it until somebody lets go of it. */
module ReplicaConservation {
  import opened Basics
  import opened CommandProtocol
  import opened Reservations
  import opened ServerState
  import opened ServerRuns
  import opened ApplicationState
  import opened QuarantineStore
  import opened ReplicaClient
  import opened ReplicaSafety
  import opened ReplicaOutcomes
  import opened ReplicaRotation
  import opened ReplicaGoal
  import opened ReplicaReset
  import opened ReplicaRecovery
  import opened ReplicaRetention

  // ---- orderly executions ---

  /** No upload is half settled: every queued command still has its overlay. */
  ghost predicate QueueOverlaid(disk: Disk) {
    forall k :: 0 <= k < |disk.queue| ==> disk.queue[k].commandId in disk.app.overlays
  }

  ghost predicate OrderlyStep(w: World, step: Step) {
    && (step.Queue? ==> Retainable(step.command))
    && (step.BeginReset? ==> QueueOverlaid(w.disk))
  }

  ghost predicate Orderly(worlds: seq<World>, steps: seq<Step>) {
    |worlds| == |steps| + 1 && forall i :: 0 <= i < |steps| ==> OrderlyStep(worlds[i], steps[i])
  }

  // ---- commands the quarantine can hold ---

  /** Every command on the way is one the quarantine file can hold. */
  ghost predicate Holdable(disk: Disk, process: Process) {
    && (forall k :: 0 <= k < |disk.queue| ==> Retainable(disk.queue[k]))
    && (forall id :: id in disk.app.overlays ==> Retainable(disk.app.overlays[id].command))
    && (process.Up? ==>
          match process.mem.pc
          case Inserting(command) => Retainable(command)
          case Asking(_, candidates, _) => AllRetainable(candidates)
          case Snapshotted(candidates) => AllRetainable(candidates)
          case _ => true)
  }

  ghost predicate AllRetainable(candidates: seq<Command>) {
    forall k :: 0 <= k < |candidates| ==> Retainable(candidates[k])
  }

  lemma QueuedRetainable(command: Command)
    requires Retainable(command)
    ensures Retainable(QueuedForm(command))
  {
  }

  lemma OrphansRetainable(disk: Disk, process: Process, orphans: seq<Command>)
    requires Holdable(disk, process) && ListsOrphans(orphans, disk)
    ensures AllRetainable(disk.queue + orphans)
  {
    hide Retainable;
  }

  /** The queue only gains what is being inserted; overlays only gain what is being queued. */
  lemma UploadHoldable(w: World, mem: Memory, step: Step)
    requires w.process == Up(mem) && Holdable(w.disk, w.process) && Connected(mem.pc)
    ensures var next := UploadStep(w, mem, step); Holdable(next.disk, next.process)
  {
    hide Retainable, HandleCommand, Judge, PersistAll, MarkAll, CommandDigest;
    match (step, mem.upload) {
      case (Persist, Persisting(result)) =>
        if PersistAll(w.disk.app, [result]).Ok? {
          PersistedResult(w.disk.app, result);
          hide PersistOne;
          PersistedRow(w.disk.app, result, PersistAll(w.disk.app, [result]).value);
        }
      case (Mark, Marking(id)) =>
        if id in w.disk.app.results {
          MarkedResult(w.disk.app, id);
        } else {
          MissingResultFails(w.disk.app, id);
        }
      case _ =>
    }
  }

  lemma QueueHoldable(disk: Disk, mem: Memory, command: Command)
    requires Holdable(disk, Up(mem)) && Retainable(command)
    ensures var next := QueueOverlay(disk, mem, command); Holdable(next.0, Up(next.1))
  {
    hide Retainable;
    if mem.pc.Idle? && Admits(disk.app, mem.finalized, command) {
      AddedOverlay(disk.app, OverlayFor(command));
    }
  }

  lemma AdvanceTables(w: World, mem: Memory, token: string, collation: string -> real)
    ensures var next := Advance(w, mem, token, collation);
            && (next.disk.queue == w.disk.queue || next.disk.queue == [])
            && (next.disk.app.overlays == w.disk.app.overlays || next.disk.app.overlays == map[])
            && (next.process.Up? && next.process.mem.pc.Inserting? ==> next == w)
  {
    hide ResetReplica, AcknowledgeReset, IssueChallenge, AcknowledgeChallenge, Classify, ReadBack, ResetCapacity,
        CheckedStore, SortById, UniqueIds, FinalizedBytes, Finalize, IntentFor, FinalizedIds;
  }

  lemma AskedCandidates(w: World, mem: Memory)
    requires mem.pc.Asking? && w.process == Up(mem)
    ensures var next := AdvanceAsking(w, mem);
            && next.disk.queue == w.disk.queue && next.disk.app == w.disk.app
            && (next.process.Up? ==>
                  match next.process.mem.pc
                  case Asking(_, candidates, _) => candidates == mem.pc.candidates
                  case Snapshotted(candidates) => candidates == mem.pc.candidates
                  case _ => false)
  {
    hide ResetCapacity, Classify, IntentFor;
  }

  lemma ProgramHoldable(w: World, mem: Memory, token: string, collation: string -> real)
    requires w.process == Up(mem) && Holdable(w.disk, w.process)
    ensures var next := Advance(w, mem, token, collation); Holdable(next.disk, next.process)
  {
    hide Retainable, AdvanceAsking, AdvanceRotation, AdvanceClearing, AdvanceObserving, AdvanceFinalizing;
    if mem.pc.Asking? {
      AskedCandidates(w, mem);
    } else {
      OtherProgram(w, mem, token, collation);
      AdvanceTables(w, mem, token, collation);
    }
    hide Advance;
  }

  lemma StepHoldable(w: World, step: Step, collation: string -> real)
    requires Holdable(w.disk, w.process) && OrderlyStep(w, step)
    ensures var next := Next(w, step, collation); Holdable(next.disk, next.process)
  {
    hide Retainable, Advance, UploadStep, ServerRuns.Step, Enabled, Handle, OpenProcess, Admits, OverlayFor, AddAll,
        Acknowledge, QueueOverlay, ListsOrphans, Snapshotable, ReadBack, RemoveAll;
    if step.Open? {
      OpenedPc(w.disk);
      OpenedInserting(w.disk);
    } else if w.process.Up? {
      var mem := w.process.mem;
      match step {
        case Program(token) => ProgramHoldable(w, mem, token, collation);
        case Queue(command) => QueueHoldable(w.disk, mem, command);
        case InsertQueued => if mem.pc.Inserting? { QueuedRetainable(mem.pc.command); }
        case InsertFails => if mem.pc.Inserting? { RemovedOverlay(w.disk.app, mem.pc.command.commandId); }
        case BeginReset(orphans) =>
          if ListsOrphans(orphans, w.disk) {
            OrphansRetainable(w.disk, w.process, orphans);
          }
        case _ => if Connected(mem.pc) { UploadHoldable(w, mem, step); }
      }
    }
  }

  lemma OpenedInserting(disk: Disk)
    ensures OpenProcess(disk).Up? ==> !OpenProcess(disk).mem.pc.Inserting?
  {
    hide OpenChecks, ReadBack;
  }

  // ---- between resets ---

  ghost function Filed(file: Option<Store>): Store {
    if file.Some? then file.value else Store([], [])
  }

  ghost predicate Clear(app: App, finalized: seq<Finalized>) {
    forall i :: 0 <= i < |finalized| ==> finalized[i].entry.id !in Active(app)
  }

  ghost predicate Unsettled(candidates: seq<Command>, app: App) {
    forall k :: 0 <= k < |candidates| ==> candidates[k].commandId !in app.results
  }

  ghost predicate FileTidy(app: App, file: Store) {
    Intact(Goal(file.finalized, file.pending, "", 0)) && Clear(app, file.finalized) &&
        WithinCapacity(app, file.finalized)
  }

  ghost predicate PcTidy(pc: Pc, disk: Disk) {
    match pc
    case Asking(prior, candidates, _) => prior == Filed(disk.quarantine).finalized && Unsettled(candidates, disk.app)
    case Snapshotted(candidates) => disk.quarantine.Some? && Unsettled(candidates, disk.app)
    case _ => true
  }

  /** While no reset is under way the file is readable, fits, and shares no command with the application tables; only a
      snapshot that has just been written leaves intents in it. */
  ghost predicate Tidy(disk: Disk, process: Process) {
    var file := Filed(disk.quarantine);
    && FileTidy(disk.app, file)
    && (process.Up? ==>
          && process.mem.finalized == file.finalized && PcTidy(process.mem.pc, disk)
          && (file.pending != [] ==> process.mem.pc.Snapshotted?))
  }

  lemma TidySame(disk: Disk, process: Process, t: Disk, next: Process)
    requires Tidy(disk, process) && t == disk.(rows := t.rows) && (next == process || next.Down?)
    ensures Tidy(t, next)
  {
    hide FileTidy;
  }

  lemma ActiveIsHeld(app: App)
    ensures Held(app).Keys == Active(app)
  {
  }

  lemma SoundCapacity(disk: Disk, mem: Memory)
    requires Sound(disk, Up(mem))
    ensures WithinCapacity(disk.app, mem.finalized)
  {
    hide HeldWithin, PcSound, UploadSound, QueueCovered, ResetSound, Fits, Disjoint, WithinCapacity;
    CapacityIsHeld(disk.app, mem.finalized);
  }

  lemma UploadParts(disk: Disk, mem: Memory)
    requires Sound(disk, Up(mem))
    ensures AppSound(disk.app) && QueueCovered(disk.queue, disk.app) && UploadSound(mem.upload, disk.queue, disk.app)
  {
    hide AppSound, QueueCovered, UploadSound, HeldWithin, PcSound, ResetSound;
  }

  lemma MarkedActive(app: App, id: string)
    requires Unfinished(app, id)
    ensures MarkAll(app, [id]).Ok? && Active(MarkAll(app, [id]).value) == Active(app)
  {
    hide MarkAll;
    MarkedResult(app, id);
  }

  /** Settling an upload moves commands between tables and lets go of none. */
  lemma UploadActive(w: World, mem: Memory, step: Step)
    requires w.process == Up(mem) && Sound(w.disk, w.process)
    ensures Active(UploadStep(w, mem, step).disk.app) == Active(w.disk.app)
  {
    hide HandleCommand, Judge, PersistAll, PersistOne, MarkAll, CommandDigest, Sound, AppSound, QueueCovered,
        Unfinished, Absent;
    UploadParts(w.disk, mem);
    match (step, mem.upload) {
      case (Persist, Persisting(result)) =>
        if PersistAll(w.disk.app, [result]).Ok? {
          PersistedResult(w.disk.app, result);
          PersistedActive(w.disk, result, PersistAll(w.disk.app, [result]).value);
        }
      case (Mark, Marking(id)) => MarkedActive(w.disk.app, id);
      case _ =>
    }
  }

  lemma PersistedActive(disk: Disk, result: TerminalResult, t: App)
    requires AppSound(disk.app) && QueueCovered(disk.queue, disk.app)
    requires disk.queue != [] && disk.queue[0].commandId == result.commandId && PersistOne(disk.app, result) == Ok(t)
    ensures Active(t) == Active(disk.app)
  {
    hide PersistOne, AppSound, Held, Carries, Unfinished;
    PersistCarries(disk.app, result, t);
    ActiveIsHeld(disk.app);
    ActiveIsHeld(t);
  }

  /** Active commands are only ever added by queueing one that is in no other place. */
  lemma ActiveGrows(w: World, step: Step, collation: string -> real)
    requires w.process.Up? && Sound(w.disk, w.process) && Connected(w.process.mem.pc)
    ensures forall id :: id in Active(Next(w, step, collation).disk.app) ==>
              id in Active(w.disk.app) || id !in FinalizedIds(w.process.mem.finalized)
  {
    hide Sound, Active, UploadStep, ServerRuns.Step, Enabled, Handle, OpenProcess, OverlayFor, AddAll, Acknowledge,
        BeginSnapshot, RemoveAll, AcknowledgeOne, QueueOverlay, FinalizedIds;
    var mem := w.process.mem;
    match step {
      case Queue(command) => QueuedActive(w.disk, mem, command);
      case InsertFails => if mem.pc.Inserting? { RemovedActive(w.disk.app, mem.pc.command.commandId); }
      case AcknowledgeResult(id) => AcknowledgedActive(w.disk.app, id);
      case _ => UploadActive(w, mem, step);
    }
  }

  lemma QueuedActive(disk: Disk, mem: Memory, command: Command)
    ensures forall id :: id in Active(QueueOverlay(disk, mem, command).0.app) ==>
              id in Active(disk.app) || id !in FinalizedIds(mem.finalized)
    ensures forall id :: id in Active(disk.app) ==> id in Active(QueueOverlay(disk, mem, command).0.app)
  {
    hide OutstandingReservation, CommandBytes, FinalizedIds, CapacityUsage;
    if mem.pc.Idle? && Admits(disk.app, mem.finalized, command) {
      AddedOverlay(disk.app, OverlayFor(command));
    }
  }

  lemma RemovedActive(app: App, id: string)
    ensures Active(RemoveAll(app, [id])) <= Active(app)
    ensures Active(app) <= Active(RemoveAll(app, [id])) + {id}
  {
    RemovedOverlay(app, id);
  }

  lemma AcknowledgedActive(app: App, id: string)
    ensures Active(AcknowledgeOne(app, id).0) <= Active(app)
    ensures Active(app) <= Active(AcknowledgeOne(app, id).0) + {id}
  {
  }

  /** What the calls of a connected client leave alone. */
  lemma ConnectedFiles(w: World, step: Step, collation: string -> real)
    requires w.process.Up? && Connected(w.process.mem.pc) && !step.BeginReset? && !step.AcknowledgeQuarantined?
    ensures var next := Next(w, step, collation);
            && next.disk.quarantine == w.disk.quarantine && next.disk.reset == w.disk.reset
            && (next.process.Up? ==>
                  next.process.mem.finalized == w.process.mem.finalized && Connected(next.process.mem.pc))
            && (next.process.Down? ==> next.disk == w.disk)
  {
    hide ServerRuns.Step, Enabled, Handle, OpenProcess, Admits, AddAll, OverlayFor, HandleCommand, Judge, PersistAll,
        MarkAll, CommandDigest, RemoveAll;
  }

  lemma StillClear(app: App, t: App, finalized: seq<Finalized>)
    requires Clear(app, finalized)
    requires forall id :: id in Active(t) ==> id in Active(app) || id !in FinalizedIds(finalized)
    ensures Clear(t, finalized)
  {
    hide Active;
    assert forall i :: 0 <= i < |finalized| ==> FinalizedIds(finalized)[i] == finalized[i].entry.id;
  }

  lemma ConnectedTidy(w: World, step: Step, collation: string -> real)
    requires w.process.Up? && Connected(w.process.mem.pc) && !step.BeginReset? && !step.AcknowledgeQuarantined?
    requires Tidy(w.disk, w.process) && Sound(w.disk, w.process)
    ensures var next := Next(w, step, collation); Tidy(next.disk, next.process)
  {
    hide Next, Sound, Intact, Clear, WithinCapacity, FinalizedIds, Active;
    var next := Next(w, step, collation);
    ConnectedFiles(w, step, collation);
    if next.process.Up? {
      ActiveGrows(w, step, collation);
      StillClear(w.disk.app, next.disk.app, w.process.mem.finalized);
      StepSound(w, step, collation);
      SoundCapacity(next.disk, next.process.mem);
    }
  }

  lemma WithoutIntact(file: Store, id: string)
    requires Intact(Goal(file.finalized, [], "", 0)) && id in FinalizedIds(file.finalized)
    ensures Intact(Goal(Without(file.finalized, id), [], "", 0))
    ensures forall i :: 0 <= i < |Without(file.finalized, id)| ==> Without(file.finalized, id)[i] in file.finalized
  {
    hide ReadableFinalized, Without, FinalizedIds;
    var k := WithoutRemoves(file.finalized, id);
  }

  lemma WithoutKeeps(items: seq<Finalized>, id: string, i: nat)
    requires id in FinalizedIds(items) && i < |items| && items[i].entry.id != id
    ensures items[i] in Without(items, id)
  {
    var k := WithoutRemoves(items, id);
    assert (items[..k] + items[k + 1..])[if i < k then i else i - 1] == items[i];
  }

  lemma DiscardStep(w: World, id: string, collation: string -> real)
    requires w.process.Up?
    ensures var next, mem := Next(w, AcknowledgeQuarantined(id), collation), w.process.mem;
            if mem.pc.Idle? && id in FinalizedIds(mem.finalized)
            then next == w.(disk := w.disk.(quarantine := Some(Store(Without(mem.finalized, id), []))),
                   process := Up(mem.(finalized := Without(mem.finalized, id))))
            else next == w
  {
    hide FinalizedIds, Without;
  }

  lemma DiscardTidy(w: World, id: string, collation: string -> real)
    requires w.process.Up? && Tidy(w.disk, w.process) && Sound(w.disk, w.process)
    ensures var next := Next(w, AcknowledgeQuarantined(id), collation); Tidy(next.disk, next.process)
  {
    hide Next, Sound, Intact, WithinCapacity, Active, Without, FinalizedIds;
    StepSound(w, AcknowledgeQuarantined(id), collation);
    DiscardStep(w, id, collation);
    var mem, next := w.process.mem, Next(w, AcknowledgeQuarantined(id), collation);
    if mem.pc.Idle? && id in FinalizedIds(mem.finalized) {
      WithoutIntact(Filed(w.disk.quarantine), id);
      SoundCapacity(next.disk, next.process.mem);
    }
  }

  lemma FileReads(file: Option<Store>)
    requires Intact(Goal(Filed(file).finalized, Filed(file).pending, "", 0))
    ensures ReadBack(file) == Ok(Filed(file))
  {
    hide Intact, ReadStore, WriteStore;
    if file.Some? {
      IntactReads(Goal(file.value.finalized, file.value.pending, "", 0));
      hide ReadBack;
    }
  }

  lemma BeginTidy(disk: Disk, mem: Memory, orphans: seq<Command>)
    requires Tidy(disk, Up(mem)) && Disjoint(disk.app) && QueueOverlaid(disk)
    ensures Tidy(disk, Up(BeginSnapshot(disk, mem, orphans)))
  {
    hide Intact, Clear, WithinCapacity, ReadBack;
    FileReads(disk.quarantine);
    if ListsOrphans(orphans, disk) {
      OverlaidUnsettled(disk, orphans);
    }
    hide ListsOrphans, Snapshotable, Unsettled;
  }

  lemma OverlaidUnsettled(disk: Disk, orphans: seq<Command>)
    requires Disjoint(disk.app) && QueueOverlaid(disk) && ListsOrphans(orphans, disk)
    ensures Unsettled(disk.queue + orphans, disk.app)
  {
  }

  lemma OpenTidy(disk: Disk)
    requires Tidy(disk, Down) && disk.reset.None?
    ensures Tidy(disk, OpenProcess(disk))
  {
    hide Intact, Clear, WithinCapacity, ReadBack, Disjoint, Active;
    FileReads(disk.quarantine);
  }

  // ---- into a reset and out of it ---

  /** A goal is owed, and everything shown optimistically is among what it accounts for. */
  ghost predicate Owing(w: World) {
    exists g, approved :: Owed(w, g, approved) && OverlaysPending(w.disk.app, g)
  }

  ghost predicate OverlaysPending(app: App, g: Goal) {
    forall id :: id in app.overlays ==> IntentIds(g.pending, id)
  }

  ghost predicate Conserving(w: World) {
    Holdable(w.disk, w.process) && if w.disk.reset.None? then Tidy(w.disk, w.process) else Owing(w)
  }

  lemma SnapshotGuarded(disk: Disk, process: Process)
    requires Holdable(disk, process) && Tidy(disk, process) && process.Up? && process.mem.pc.Snapshotted?
    ensures Guarded(disk, process.mem.pc.candidates)
  {
    hide Retainable, Intact, WithinCapacity;
  }

  lemma StartOwing(w: World, token: string, collation: string -> real, base: int)
    requires w.process.Up? && w.process.mem.pc.Snapshotted? && Sound(w.disk, w.process) && Linked(w, base)
    requires SnapshotState(w.disk, w.process) && Holdable(w.disk, w.process) && Tidy(w.disk, w.process)
    ensures Owing(Next(w, Program(token), collation))
    ensures Next(w, Program(token), collation).disk.reset.Some?
  {
    hide Sound, Linked, SnapshotState, Holdable, Tidy, Guarded, Owed, Advance, Listed, IntentIds;
    SnapshotGuarded(w.disk, w.process);
    SnapshotFile(w);
    ResetStarts(w, token, collation, base);
    StartTables(w, token, collation);
    OwedFile(Next(w, Program(token), collation), GoalOf(w, token), {});
  }

  lemma StartTables(w: World, token: string, collation: string -> real)
    requires w.process.Up? && w.process.mem.pc.Snapshotted?
    ensures Next(w, Program(token), collation).disk.app == w.disk.app
  {
  }

  lemma AskedTidy(w: World, mem: Memory)
    requires w.process == Up(mem) && mem.pc.Asking? && Tidy(w.disk, w.process) && Holdable(w.disk, w.process)
    requires SnapshotState(w.disk, w.process)
    ensures var next := AdvanceAsking(w, mem); Tidy(next.disk, next.process)
  {
    hide Retainable, Intact, Clear, Unsettled, WithinCapacity, SnapshotOf, Classify, ResetCapacity, IntentFor;
    var store := Store(mem.pc.prior, mem.pc.pending);
    if |mem.pc.pending| >= |mem.pc.candidates| && ResetCapacity(w.disk.app, store) {
      SnapshotTotal(w.disk.app, store);
      SnapshotCount(w.disk, mem);
      SnapshotIntact(w.disk, mem.pc.candidates, Goal(mem.pc.prior, mem.pc.pending, "", 0));
    }
  }

  lemma SnapshotCount(disk: Disk, mem: Memory)
    requires mem.pc.Asking? && SnapshotState(disk, Up(mem)) && |mem.pc.pending| >= |mem.pc.candidates|
    ensures |mem.pc.pending| == |mem.pc.candidates|
  {
    hide Covers, Apart, AllFinalized, DistinctEntries;
  }

  lemma SameActive(app: App, t: App, finalized: seq<Finalized>)
    requires t.results == app.results && t.overlays == app.overlays
    ensures WithinCapacity(app, finalized) ==> WithinCapacity(t, finalized)
    ensures Clear(app, finalized) ==> Clear(t, finalized)
  {
    assert ResultReservations(t) == ResultReservations(app) && OverlayReservations(t) == OverlayReservations(app);
    hide ResultReservations, OverlayReservations, Total, FinalizedTotal;
  }

  lemma ObservedTidy(w: World, mem: Memory, token: string)
    requires w.process == Up(mem) && (mem.pc.Challenging? || mem.pc.Observing?) && w.disk.reset.None?
    requires Tidy(w.disk, w.process)
    ensures var next := AdvanceObserving(w, mem, token); Tidy(next.disk, next.process) && next.disk.reset.None?
    ensures Active(AdvanceObserving(w, mem, token).disk.app) == Active(w.disk.app)
    ensures AdvanceObserving(w, mem, token).disk.quarantine == w.disk.quarantine
  {
    hide Intact, WithinCapacity, Clear, IssueChallenge, AcknowledgeChallenge, ReadBack;
    SameActive(w.disk.app, StoreSession(w.disk.app, mem.session, mem.resetCount), Filed(w.disk.quarantine).finalized);
  }

  lemma IdleAdvance(w: World, mem: Memory, token: string, collation: string -> real)
    requires w.process == Up(mem) && PcSound(mem.pc, w.disk) && w.disk.reset.None?
    requires !mem.pc.Asking? && !mem.pc.Snapshotted? && !mem.pc.Challenging? && !mem.pc.Observing?
    ensures Advance(w, mem, token, collation) == w
  {
  }

  lemma ProgramConserves(w: World, token: string, collation: string -> real, base: int)
    requires w.process.Up? && w.disk.reset.None? && Tidy(w.disk, w.process) && Holdable(w.disk, w.process)
    requires Sound(w.disk, w.process) && Linked(w, base) && SnapshotState(w.disk, w.process)
    ensures var next := Next(w, Program(token), collation);
            if next.disk.reset.None? then Tidy(next.disk, next.process) else Owing(next)
  {
    hide Next, Sound, Linked, Holdable, Tidy, SnapshotState, Owing, AdvanceAsking, AdvanceObserving, PcSound;
    var mem := w.process.mem;
    ProgramStep(w, token, collation);
    if mem.pc.Snapshotted? {
      StartOwing(w, token, collation, base);
    } else if mem.pc.Asking? {
      AskedTidy(w, mem);
      AskedReset(w, mem);
    } else if mem.pc.Challenging? || mem.pc.Observing? {
      ObservedTidy(w, mem, token);
    } else {
      SoundParts(w.disk, w.process);
      IdleAdvance(w, mem, token, collation);
    }
  }

  lemma AskedReset(w: World, mem: Memory)
    requires mem.pc.Asking?
    ensures AdvanceAsking(w, mem).disk.reset == w.disk.reset
  {
    hide ResetCapacity, Classify, IntentFor;
  }

  lemma FinishedTidy(w: World, g: Goal, approved: set<(string, string)>)
    requires Finished(w, g, approved) && Sound(w.disk, w.process)
    ensures Tidy(w.disk, w.process)
  {
    hide Recorded, Carried, Sound, WithinCapacity, Active, AllFinalized;
    var m := w.process.mem.finalized;
    RecordedDistinct(m, g, approved);
    SoundCapacity(w.disk, w.process.mem);
    forall i | 0 <= i < |m| ensures m[i].entry.id !in Active(w.disk.app) {
      RecordedApart(w.disk.app, m, g, approved, i);
    }
  }

  lemma OverlaysShrink(w: World, step: Step, collation: string -> real)
    requires w.disk.reset.Some? && Sound(w.disk, w.process)
    ensures var next := Next(w, step, collation);
            next.disk.app.overlays == w.disk.app.overlays || next.disk.app.overlays == map[]
    ensures Next(w, step, collation).disk.app.results == w.disk.app.results
  {
    hide Next, Sound, Advance, OpenProcess;
    if step.Open? {
      OpenStep(w, collation);
    } else if step.Program? && w.process.Up? {
      ProgramStep(w, step.token, collation);
      AdvanceTables(w, w.process.mem, step.token, collation);
      AdvanceResults(w, w.process.mem, step.token, collation);
    } else if step.Program? {
      DownProgram(w, step, collation);
    } else {
      QuietStep(w, step, collation);
    }
  }

  lemma OwingStep(w: World, step: Step, collation: string -> real, base: int)
    requires w.disk.reset.Some? && Owing(w) && Sound(w.disk, w.process) && Linked(w, base)
    ensures var next := Next(w, step, collation);
            if next.disk.reset.None? then Tidy(next.disk, next.process) else Owing(next)
  {
    hide Next, Sound, Linked, Owed, Finished, Tidy, IntentIds, Approval;
    var g, approved :| Owed(w, g, approved) && OverlaysPending(w.disk.app, g);
    var next, more := Next(w, step, collation), approved + Approval(w, step);
    StepOwed(w, g, approved, base, step, collation);
    StepSound(w, step, collation);
    OverlaysShrink(w, step, collation);
    if Owed(next, g, more) {
      OwedFile(next, g, more);
      assert OverlaysPending(next.disk.app, g);
    } else {
      FinishedTidy(next, g, more);
      FinishedFile(next, g, more);
    }
  }

  lemma FinishedFile(w: World, g: Goal, approved: set<(string, string)>)
    requires Finished(w, g, approved)
    ensures w.disk.reset.None?
  {
    hide Recorded, Carried;
  }

  // ---- every orderly execution ---

  lemma BusyConserves(w: World, step: Step, collation: string -> real)
    requires (w.process.Up? ==> !Connected(w.process.mem.pc)) && !step.Program? && !step.Open?
    requires w.disk.reset.None? && Tidy(w.disk, w.process)
    ensures var next := Next(w, step, collation); Tidy(next.disk, next.process)
  {
    hide Next, Tidy;
    BusyStep(w, step, collation);
    TidySame(w.disk, w.process, Next(w, step, collation).disk, Next(w, step, collation).process);
  }

  lemma SoundDisjoint(disk: Disk, process: Process)
    requires Sound(disk, process)
    ensures Disjoint(disk.app)
  {
    hide Disjoint, Fits, QueueCovered, ResetSound, HeldWithin, ProcessSound;
  }

  lemma QuietConserves(w: World, step: Step, collation: string -> real, base: int)
    requires w.disk.reset.None? && Tidy(w.disk, w.process) && Holdable(w.disk, w.process) && OrderlyStep(w, step)
    requires Sound(w.disk, w.process) && Linked(w, base) && SnapshotState(w.disk, w.process)
    ensures var next := Next(w, step, collation);
            if next.disk.reset.None? then Tidy(next.disk, next.process) else Owing(next)
  {
    hide Next, Sound, Linked, Holdable, Tidy, SnapshotState, Owing, OpenProcess, BeginSnapshot, Disjoint, QueueOverlaid;
    if !step.Program? {
      StepReset(w, step, collation);
    }
    if step.Open? {
      OpenStep(w, collation);
      if w.process.Down? {
        OpenTidy(w.disk);
      }
    } else if step.Program? {
      if w.process.Up? {
        ProgramConserves(w, step.token, collation, base);
      } else {
        DownProgram(w, step, collation);
      }
    } else if w.process.Up? && step.BeginReset? {
      BeginStep(w, step.orphans, collation);
      SoundDisjoint(w.disk, w.process);
      BeginTidy(w.disk, w.process.mem, step.orphans);
    } else if w.process.Up? && Connected(w.process.mem.pc) {
      if step.AcknowledgeQuarantined? {
        DiscardTidy(w, step.id, collation);
      } else {
        ConnectedTidy(w, step, collation);
      }
    } else {
      BusyConserves(w, step, collation);
    }
  }

  /** Only the program writes or removes the reset file. */
  lemma StepReset(w: World, step: Step, collation: string -> real)
    requires !step.Program?
    ensures Next(w, step, collation).disk.reset == w.disk.reset
  {
    hide Advance, ServerRuns.Step, Enabled, Handle, OpenProcess, Admits, AddAll, OverlayFor, HandleCommand, Judge,
        PersistAll, MarkAll, CommandDigest, RemoveAll, BeginSnapshot, Acknowledge;
  }

  lemma StepConserves(w: World, step: Step, collation: string -> real, base: int)
    requires Conserving(w) && OrderlyStep(w, step)
    requires Sound(w.disk, w.process) && Linked(w, base) && SnapshotState(w.disk, w.process)
    ensures Conserving(Next(w, step, collation))
  {
    hide Next, Sound, Linked, Holdable, Tidy, SnapshotState, Owing, OrderlyStep;
    StepHoldable(w, step, collation);
    if w.disk.reset.None? {
      QuietConserves(w, step, collation, base);
    } else {
      OwingStep(w, step, collation, base);
    }
  }

  lemma FreshConserves(w: World)
    requires Fresh(w)
    ensures Conserving(w)
  {
    hide Inv, Total, ServerState.Stale;
    FreshSound(w);
    SoundCapacity(w.disk, w.process.mem);
  }

  lemma {:induction false} OrderlyConserves(worlds: seq<World>, steps: seq<Step>, collation: string -> real, n: nat)
    requires IsExecution(worlds, steps, collation) && Fresh(worlds[0]) && Orderly(worlds, steps) && n < |worlds|
    ensures Conserving(worlds[n])
  {
    hide Next, Fresh, Conserving, Sound, Linked, SnapshotState, OrderlyStep, EpochOf;
    if n == 0 {
      FreshConserves(worlds[0]);
    } else {
      OrderlyConserves(worlds, steps, collation, n - 1);
      ExecutionSound(worlds, steps, collation, n - 1);
      ExecutionLinked(worlds, steps, collation, n - 1);
      ExecutionSnapshot(worlds, steps, collation, n - 1);
      StepConserves(worlds[n - 1], steps[n - 1], collation, EpochOf(worlds[0]));
    }
  }

  /** In an orderly execution every reset meets the conditions under which it accounts for every command. */
  lemma EveryResetGuarded(worlds: seq<World>, steps: seq<Step>, collation: string -> real, n: nat)
    requires IsExecution(worlds, steps, collation) && Fresh(worlds[0]) && Orderly(worlds, steps) && n < |worlds|
    requires worlds[n].process.Up? && worlds[n].process.mem.pc.Snapshotted?
    ensures Guarded(worlds[n].disk, worlds[n].process.mem.pc.candidates)
  {
    hide IsExecution, Fresh, Orderly, Guarded, Tidy, Holdable, Owing;
    OrderlyConserves(worlds, steps, collation, n);
    ExecutionSound(worlds, steps, collation, n);
    SoundParts(worlds[n].disk, worlds[n].process);
    assert worlds[n].disk.reset.None?;
    SnapshotGuarded(worlds[n].disk, worlds[n].process);
  }

  /** So in an orderly execution a reset begun at world b and over at world n has accounted for every command. */
  lemma OrderlyResetAccounts(worlds: seq<World>, steps: seq<Step>, collation: string -> real, b: nat, n: nat,
      id: string)
    requires IsExecution(worlds, steps, collation) && Fresh(worlds[0]) && Orderly(worlds, steps)
    requires b < n < |worlds| && steps[b].Program?
    requires worlds[b].process.Up? && worlds[b].process.mem.pc.Snapshotted?
    requires ResetThroughout(worlds, b + 1, n) && worlds[n].disk.reset.None?
    ensures var file := Filed(worlds[n].disk.quarantine);
            && file.pending == [] && worlds[n].disk.queue == [] && worlds[n].disk.app.overlays == map[]
            && (Listed(worlds[b].disk.queue, id) || id in worlds[b].disk.app.overlays ==>
                ExactlyOnce(file.finalized, id))
  {
    hide IsExecution, Fresh, Orderly, Guarded, ExactlyOnce, Listed;
    EveryResetGuarded(worlds, steps, collation, b);
    EveryCommandAccountedFor(worlds, steps, collation, b, n, id);
  }

  // ---- nothing is lost ---

  ghost predicate InFile(file: Store, id: string) {
    || (exists i :: 0 <= i < |file.finalized| && file.finalized[i].entry.id == id)
    || IntentIds(file.pending, id)
  }

  /** The command is in the overlays, the results or the quarantine file. */
  ghost predicate Kept(disk: Disk, id: string) {
    id in Active(disk.app) || InFile(Filed(disk.quarantine), id)
  }

  /** Somebody lets go of the command: its result or its quarantine entry is acknowledged, or its insertion fails. */
  ghost predicate Releases(w: World, step: Step, id: string) {
    || step == AcknowledgeResult(id) || step == AcknowledgeQuarantined(id)
    || (step.InsertFails? && w.process.Up? && w.process.mem.pc.Inserting? && w.process.mem.pc.command.commandId == id)
  }

  lemma ActiveStays(w: World, step: Step, collation: string -> real, id: string)
    requires w.process.Up? && Sound(w.disk, w.process) && Connected(w.process.mem.pc)
    requires id in Active(w.disk.app) && !Releases(w, step, id)
    ensures id in Active(Next(w, step, collation).disk.app)
  {
    hide Sound, Active, UploadStep, ServerRuns.Step, Enabled, Handle, OpenProcess, OverlayFor, AddAll, Acknowledge,
        BeginSnapshot, RemoveAll, AcknowledgeOne, QueueOverlay, FinalizedIds;
    var mem := w.process.mem;
    match step {
      case Queue(command) => QueuedActive(w.disk, mem, command);
      case InsertFails => if mem.pc.Inserting? { RemovedActive(w.disk.app, mem.pc.command.commandId); }
      case AcknowledgeResult(other) => AcknowledgedActive(w.disk.app, other);
      case _ => UploadActive(w, mem, step);
    }
  }

  lemma DiscardKeeps(w: World, other: string, collation: string -> real, id: string)
    requires w.process.Up? && Tidy(w.disk, w.process) && Kept(w.disk, id) && other != id
    ensures Kept(Next(w, AcknowledgeQuarantined(other), collation).disk, id)
  {
    hide Next, FileTidy, Active, Without, FinalizedIds, IntentIds;
    DiscardStep(w, other, collation);
    var mem, file := w.process.mem, Filed(w.disk.quarantine);
    if mem.pc.Idle? && other in FinalizedIds(mem.finalized) && id !in Active(w.disk.app) {
      NoIntents(id);
      var i :| 0 <= i < |file.finalized| && file.finalized[i].entry.id == id;
      WithoutKeeps(file.finalized, other, i);
      var j :| 0 <= j < |Without(file.finalized, other)| && Without(file.finalized, other)[j] == file.finalized[i];
      assert InFile(Store(Without(file.finalized, other), []), id);
    }
  }

  lemma NoIntents(id: string)
    ensures !IntentIds([], id)
  {
  }

  lemma ConnectedKeeps(w: World, step: Step, collation: string -> real, id: string)
    requires w.process.Up? && Connected(w.process.mem.pc) && Sound(w.disk, w.process) && Tidy(w.disk, w.process)
    requires Kept(w.disk, id) && !Releases(w, step, id) && !step.BeginReset?
    ensures Kept(Next(w, step, collation).disk, id)
  {
    hide Next, Sound, Tidy, Active, InFile;
    if step.AcknowledgeQuarantined? {
      DiscardKeeps(w, step.id, collation, id);
    } else {
      ConnectedFiles(w, step, collation);
      if id in Active(w.disk.app) {
        ActiveStays(w, step, collation, id);
      }
    }
  }

  lemma ProgramKeeps(w: World, token: string, collation: string -> real, id: string)
    requires w.process.Up? && w.disk.reset.None? && Tidy(w.disk, w.process) && Sound(w.disk, w.process) &&
        Kept(w.disk, id)
    ensures Kept(Next(w, Program(token), collation).disk, id)
  {
    hide Next, Sound, AdvanceAsking, AdvanceObserving, PcSound, FileTidy, Active;
    var mem := w.process.mem;
    ProgramStep(w, token, collation);
    if mem.pc.Snapshotted? {
      SnapshottedFile(w, mem, token);
    } else if mem.pc.Asking? {
      AskedFile(w, mem, id);
    } else if mem.pc.Challenging? || mem.pc.Observing? {
      ObservedTidy(w, mem, token);
    } else {
      SoundParts(w.disk, w.process);
      IdleAdvance(w, mem, token, collation);
    }
  }

  lemma SnapshottedFile(w: World, mem: Memory, token: string)
    requires mem.pc.Snapshotted?
    ensures var next := AdvanceRotation(w, mem, token);
            next.disk.app == w.disk.app && next.disk.quarantine == w.disk.quarantine
  {
  }

  lemma AskedFile(w: World, mem: Memory, id: string)
    requires w.process == Up(mem) && mem.pc.Asking? && Tidy(w.disk, w.process) && Kept(w.disk, id)
    ensures Kept(AdvanceAsking(w, mem).disk, id)
  {
    hide FileTidy, Active, ResetCapacity, Classify, IntentFor, Unsettled;
  }

  /** What a goal accounts for is in the file at every moment until the goal is paid, and after. */
  lemma OwedInFile(w: World, g: Goal, approved: set<(string, string)>, id: string)
    requires Owed(w, g, approved)
    ensures InFile(Filed(w.disk.quarantine), id) <==> InFile(Store(g.prior, g.pending), id)
  {
    hide Intact, Carried, PcStage, Recorded, InFile;
    if w.disk.quarantine != Some(Store(g.prior, g.pending)) {
      RecordedInFile(w.disk.quarantine.value.finalized, g, approved, id);
    }
  }

  lemma RecordedInFile(m: seq<Finalized>, g: Goal, approved: set<(string, string)>, id: string)
    requires Recorded(m, g, approved)
    ensures InFile(Store(m, []), id) <==> InFile(Store(g.prior, g.pending), id)
  {
    hide Recorded;
    if i :| 0 <= i < |m| && m[i].entry.id == id {
      RecordedIds(m, g, approved, i);
    }
    if IntentIds(g.pending, id) {
      var k := IntentIndex(g.pending, id);
      RecordedIntent(m, g, approved, k);
    }
    if k :| 0 <= k < |g.prior| && g.prior[k].entry.id == id {
      RecordedPrior(m, g, approved, k);
      var i :| 0 <= i < |m| && m[i] == g.prior[k];
    }
  }

  lemma FinishedInFile(w: World, g: Goal, approved: set<(string, string)>, id: string)
    requires Finished(w, g, approved)
    ensures InFile(Filed(w.disk.quarantine), id) <==> InFile(Store(g.prior, g.pending), id)
  {
    hide Carried, Recorded, InFile;
    RecordedInFile(w.process.mem.finalized, g, approved, id);
  }

  lemma OwingKeeps(w: World, step: Step, collation: string -> real, base: int, id: string)
    requires w.disk.reset.Some? && Owing(w) && Sound(w.disk, w.process) && Linked(w, base) && Kept(w.disk, id)
    ensures Kept(Next(w, step, collation).disk, id)
  {
    hide Next, Sound, Linked, Owed, Finished, IntentIds, Approval;
    var g, approved :| Owed(w, g, approved) && OverlaysPending(w.disk.app, g);
    var next, more := Next(w, step, collation), approved + Approval(w, step);
    StepOwed(w, g, approved, base, step, collation);
    OverlaysShrink(w, step, collation);
    OwedInFile(w, g, approved, id);
    if Owed(next, g, more) {
      OwedInFile(next, g, more, id);
    } else {
      FinishedInFile(next, g, more, id);
    }
  }

  lemma QuietKeeps(w: World, step: Step, collation: string -> real, id: string)
    requires w.disk.reset.None? && Tidy(w.disk, w.process) && Sound(w.disk, w.process)
    requires Kept(w.disk, id) && !Releases(w, step, id)
    ensures Kept(Next(w, step, collation).disk, id)
  {
    hide Next, Sound, Tidy, Active, InFile, OpenProcess, BeginSnapshot;
    if step.Open? {
      OpenStep(w, collation);
    } else if step.Program? {
      if w.process.Up? {
        ProgramKeeps(w, step.token, collation, id);
      } else {
        DownProgram(w, step, collation);
      }
    } else if w.process.Up? && step.BeginReset? {
      BeginStep(w, step.orphans, collation);
    } else if w.process.Up? && Connected(w.process.mem.pc) {
      ConnectedKeeps(w, step, collation, id);
    } else {
      BusyStep(w, step, collation);
    }
  }

  /** Through uploads, crashes, resumes and any number of resets, a command that is in the overlays, the results or the
      quarantine stays in one of them until somebody acknowledges it or its insertion fails. */
  lemma {:induction false} NothingIsLost(worlds: seq<World>, steps: seq<Step>, collation: string -> real, i: nat,
      j: nat,
      id: string)
    requires IsExecution(worlds, steps, collation) && Fresh(worlds[0]) && Orderly(worlds, steps) && i <= j < |worlds|
    requires Kept(worlds[i].disk, id) && (forall k :: i <= k < j ==> !Releases(worlds[k], steps[k], id))
    ensures Kept(worlds[j].disk, id)
  {
    hide Next, Fresh, Sound, Linked, Kept, Releases, Tidy, Owing, Holdable, OrderlyStep, EpochOf;
    if i < j {
      NothingIsLost(worlds, steps, collation, i, j - 1, id);
      OrderlyConserves(worlds, steps, collation, j - 1);
      ExecutionSound(worlds, steps, collation, j - 1);
      ExecutionLinked(worlds, steps, collation, j - 1);
      if worlds[j - 1].disk.reset.None? {
        QuietKeeps(worlds[j - 1], steps[j - 1], collation, id);
      } else {
        OwingKeeps(worlds[j - 1], steps[j - 1], collation, EpochOf(worlds[0]), id);
      }
    }
  }

  /** And outside a reset it is in one place only: the three stores share no command. */
  lemma OnePlaceOnly(worlds: seq<World>, steps: seq<Step>, collation: string -> real, n: nat, id: string)
    requires IsExecution(worlds, steps, collation) && Fresh(worlds[0]) && Orderly(worlds, steps) && n < |worlds|
    requires worlds[n].disk.reset.None? && Filed(worlds[n].disk.quarantine).pending == []
    ensures !(id in worlds[n].disk.app.overlays && id in worlds[n].disk.app.results)
    ensures !(id in Active(worlds[n].disk.app) && InFile(Filed(worlds[n].disk.quarantine), id))
  {
    hide IsExecution, Fresh, Orderly, Holdable, Owing, Sound, Intact, WithinCapacity, PcTidy;
    OrderlyConserves(worlds, steps, collation, n);
    ExecutionSound(worlds, steps, collation, n);
    SoundDisjoint(worlds[n].disk, worlds[n].process);
    NoIntents(id);
  }
}
