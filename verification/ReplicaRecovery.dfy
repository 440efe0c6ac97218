/** How a reset starts, why it always gets to its end, and what the two unsupported crash windows cost. */
module ReplicaRecovery {
  import opened Basics
  import opened Json
  import opened CommandProtocol
  import opened Reservations
  import opened ServerState
  import opened ServerRuns
  import opened ApplicationState
  import opened QuarantineStore
  import opened ReplicaClient
  import opened ReplicaSafety
  import opened ReplicaOutcomes
  import opened ReplicaRotation
  import opened ReplicaGoal
  import opened ReplicaReset

  // ---- the snapshot ---

  /** The candidates are exactly the queued and the overlaid commands, each once. */
  ghost predicate Covers(candidates: seq<Command>, disk: Disk) {
    && (forall i, j :: 0 <= i < j < |candidates| ==> candidates[i].commandId != candidates[j].commandId)
    && (forall id :: Listed(candidates, id) <==> Listed(disk.queue, id) || id in disk.app.overlays)
  }

  ghost predicate Listed(commands: seq<Command>, id: string) {
    exists i :: 0 <= i < |commands| && commands[i].commandId == id
  }

  ghost predicate IntentsFor(app: App, candidates: seq<Command>, pending: seq<Intent>) {
    && |pending| <= |candidates|
    && (forall k :: 0 <= k < |pending| ==> pending[k] == IntentFor(app, candidates[k], pending[k].authorized))
  }

  ghost predicate Apart(prior: seq<Finalized>, candidates: seq<Command>) {
    forall i, j :: 0 <= i < |prior| && 0 <= j < |candidates| ==> prior[i].entry.id != candidates[j].commandId
  }

  ghost predicate SnapshotOf(disk: Disk, prior: seq<Finalized>, candidates: seq<Command>, pending: seq<Intent>) {
    && Covers(candidates, disk) && IntentsFor(disk.app, candidates, pending) && Apart(prior, candidates)
    && AllFinalized(prior) && DistinctEntries(prior)
  }

  ghost predicate SnapshotState(disk: Disk, process: Process) {
    process.Up? ==>
      match process.mem.pc
      case Asking(prior, candidates, pending) => SnapshotOf(disk, prior, candidates, pending)
      case Snapshotted(candidates) =>
        && disk.quarantine.Some? && SnapshotOf(disk, disk.quarantine.value.finalized, candidates,
            disk.quarantine.value.pending)
        && |disk.quarantine.value.pending| == |candidates| && ResetCapacity(disk.app, disk.quarantine.value)
      case _ => true
  }

  lemma ListedIds(commands: seq<Command>, id: string)
    ensures Listed(commands, id) <==> id in Ids(commands)
  {
    if Listed(commands, id) {
      var i :| 0 <= i < |commands| && commands[i].commandId == id;
      assert Ids(commands)[i] == id;
    }
  }

  lemma ListedAppend(a: seq<Command>, b: seq<Command>, id: string)
    ensures Listed(a + b, id) <==> Listed(a, id) || Listed(b, id)
  {
    if Listed(a, id) {
      var i :| 0 <= i < |a| && a[i].commandId == id;
      assert (a + b)[i].commandId == id;
    }
    if Listed(b, id) {
      var i :| 0 <= i < |b| && b[i].commandId == id;
      assert (a + b)[|a| + i].commandId == id;
    }
  }

  lemma CandidatesCover(disk: Disk, orphans: seq<Command>)
    requires QueueCovered(disk.queue, disk.app) && ListsOrphans(orphans, disk)
    ensures Covers(disk.queue + orphans, disk)
  {
    hide Owned;
    var candidates := disk.queue + orphans;
    forall id ensures Listed(candidates, id) <==> Listed(disk.queue, id) || id in disk.app.overlays {
      ListedAppend(disk.queue, orphans, id);
      ListedIds(disk.queue, id);
      ListedIds(orphans, id);
    }
    forall i, j | 0 <= i < j < |candidates| ensures candidates[i].commandId != candidates[j].commandId {
      if i < |disk.queue| <= j {
        assert Listed(disk.queue, disk.queue[i].commandId);
        ListedIds(disk.queue, disk.queue[i].commandId);
      }
    }
  }

  lemma PriorReadable(disk: Disk)
    requires ReadBack(disk.quarantine).Ok?
    ensures var prior := ReadBack(disk.quarantine).value.finalized; AllFinalized(prior) && DistinctEntries(prior)
  {
    var store := ReadBack(disk.quarantine).value;
    if disk.quarantine.Some? {
      AcceptedStoreIsReadable(WriteStore(disk.quarantine.value));
      StorePrefixDistinct(store);
    }
  }

  lemma StorePrefixDistinct(store: Store)
    requires ReadableStore(store)
    ensures DistinctEntries(store.finalized)
  {
    hide AllFinalized, AllPending;
    assert forall i :: 0 <= i < |store.finalized| ==> StoreIds(store)[i] == store.finalized[i].entry.id;
  }

  lemma BeginCovers(disk: Disk, mem: Memory, orphans: seq<Command>)
    requires QueueCovered(disk.queue, disk.app) && SnapshotState(disk, Up(mem))
    ensures SnapshotState(disk, Up(BeginSnapshot(disk, mem, orphans)))
  {
    if BeginSnapshot(disk, mem, orphans) != mem && mem.pc.Idle? {
      BegunSnapshot(disk, mem, orphans);
    }
  }

  lemma BegunSnapshot(disk: Disk, mem: Memory, orphans: seq<Command>)
    requires QueueCovered(disk.queue, disk.app) && ListsOrphans(orphans, disk) &&
        Snapshotable(disk, disk.queue + orphans)
    ensures SnapshotOf(disk, ReadBack(disk.quarantine).value.finalized, disk.queue + orphans, [])
  {
    hide ReadBack, AllFinalized, DistinctEntries, Covers, QueueCovered, ListsOrphans;
    CandidatesCover(disk, orphans);
    PriorReadable(disk);
    SnapshotApart(disk, disk.queue + orphans);
  }

  lemma SnapshotApart(disk: Disk, candidates: seq<Command>)
    requires Snapshotable(disk, candidates)
    ensures Apart(ReadBack(disk.quarantine).value.finalized, candidates)
  {
    hide ReadBack;
    var prior := ReadBack(disk.quarantine).value.finalized;
    assert forall i :: 0 <= i < |prior| ==> FinalizedIds(prior)[i] == prior[i].entry.id;
  }

  lemma AskedSnapshot(w: World, mem: Memory)
    requires w.process == Up(mem) && mem.pc.Asking? && SnapshotState(w.disk, w.process)
    ensures var next := AdvanceAsking(w, mem); SnapshotState(next.disk, next.process)
  {
    hide Listed, Apart, AllFinalized, DistinctEntries, ResetCapacity, Classify, IntentFor;
    var pc := mem.pc;
    if |pc.pending| < |pc.candidates| {
      var command := pc.candidates[|pc.pending|];
      var preserve := Classify(w.server, w.user, BindingOf(mem.session), mem.session.credential, command.resourceId,
          command.incarnationId);
      IntentAuthorized(w.disk.app, command, preserve == Some(true));
    }
  }

  lemma IntentAuthorized(app: App, command: Command, authorized: bool)
    ensures IntentFor(app, command, authorized).authorized == authorized
    ensures IntentFor(app, command, authorized).entry.id == command.commandId
  {
  }

  /** While an application call or an open is in progress, only its own program touches the disk. */
  lemma BusyStep(w: World, step: Step, collation: string -> real)
    requires w.process.Up? ==> !Connected(w.process.mem.pc)
    requires !step.Program? && !step.Open?
    ensures var next := Next(w, step, collation);
            && next.disk == w.disk.(rows := next.disk.rows)
            && (next.process == w.process || next.process.Down?)
  {
    hide Advance, UploadStep, ServerRuns.Step, Enabled, Handle, OpenProcess, Admits, AddAll, OverlayFor, ListsOrphans,
        Snapshotable, ReadBack;
  }

  lemma ConnectedStep(w: World, step: Step, collation: string -> real)
    requires w.process.Up? && Connected(w.process.mem.pc) && !step.BeginReset?
    ensures var next := Next(w, step, collation);
            next.process.Up? ==> Connected(next.process.mem.pc)
  {
    hide ServerRuns.Step, Enabled, Handle, OpenProcess, Admits, AddAll, OverlayFor, HandleCommand, Judge, PersistAll,
        MarkAll, CommandDigest;
  }

  lemma OpenedPc(disk: Disk)
    ensures OpenProcess(disk).Up? ==> !OpenProcess(disk).mem.pc.Asking? && !OpenProcess(disk).mem.pc.Snapshotted?
  {
    hide OpenChecks, ReadBack;
  }

  lemma OtherProgram(w: World, mem: Memory, token: string, collation: string -> real)
    requires !mem.pc.Asking? && w.process == Up(mem)
    ensures var next := Advance(w, mem, token, collation);
            next.process.Up? && (next.process.mem.pc.Asking? || next.process.mem.pc.Snapshotted?) ==> next == w
  {
    hide ResetReplica, AcknowledgeReset, IssueChallenge, AcknowledgeChallenge, Classify, ReadBack, ResetCapacity,
        CheckedStore,
      SortById, UniqueIds, FinalizedBytes, Finalize, FinalizedIds;
  }

  lemma StepSnapshot(w: World, step: Step, collation: string -> real)
    requires Sound(w.disk, w.process) && SnapshotState(w.disk, w.process)
    ensures var next := Next(w, step, collation); SnapshotState(next.disk, next.process)
  {
    hide Next, OpenProcess, Sound, Advance, AdvanceAsking, SnapshotOf, ResetCapacity, BeginSnapshot;
    if step.Open? {
      OpenStep(w, collation);
      OpenedPc(w.disk);
    } else if w.process.Up? && step.Program? {
      ProgramStep(w, step.token, collation);
      ProgramSnapshot(w, w.process.mem, step.token, collation);
    } else if w.process.Up? && step.BeginReset? {
      BeginStep(w, step.orphans, collation);
      SoundQueue(w.disk, w.process);
      BeginCovers(w.disk, w.process.mem, step.orphans);
    } else if w.process.Up? && Connected(w.process.mem.pc) {
      ConnectedStep(w, step, collation);
    } else if step.Program? {
      DownProgram(w, step, collation);
    } else {
      BusyStep(w, step, collation);
      RowsOnly(w.disk, Next(w, step, collation).disk, w.process);
    }
  }

  lemma ProgramSnapshot(w: World, mem: Memory, token: string, collation: string -> real)
    requires w.process == Up(mem) && SnapshotState(w.disk, w.process)
    ensures var next := Advance(w, mem, token, collation); SnapshotState(next.disk, next.process)
  {
    hide AdvanceAsking, AdvanceRotation, AdvanceClearing, AdvanceObserving, AdvanceFinalizing, SnapshotOf,
        ResetCapacity;
    if mem.pc.Asking? {
      AskedSnapshot(w, mem);
    } else {
      OtherProgram(w, mem, token, collation);
    }
  }

  lemma RowsOnly(disk: Disk, t: Disk, process: Process)
    requires SnapshotState(disk, process) && t == disk.(rows := t.rows)
    ensures SnapshotState(t, process)
  {
    hide IntentsFor, Apart, AllFinalized, DistinctEntries, ResetCapacity;
  }

  lemma OpenStep(w: World, collation: string -> real)
    ensures Next(w, Open, collation) == if w.process.Down? then w.(process := OpenProcess(w.disk)) else w
  {
    hide OpenProcess;
  }

  lemma BeginStep(w: World, orphans: seq<Command>, collation: string -> real)
    requires w.process.Up?
    ensures Next(w, BeginReset(orphans), collation) == w.(process := Up(BeginSnapshot(w.disk, w.process.mem, orphans)))
  {
    hide BeginSnapshot;
  }

  lemma SoundQueue(disk: Disk, process: Process)
    requires Sound(disk, process)
    ensures QueueCovered(disk.queue, disk.app) && Disjoint(disk.app)
  {
    hide QueueCovered, Fits, HeldWithin, ProcessSound, ResetSound;
  }

  /** In every execution a snapshot in progress covers exactly the queued and the overlaid commands. */
  lemma {:induction false} ExecutionSnapshot(worlds: seq<World>, steps: seq<Step>, collation: string -> real, n: nat)
    requires IsExecution(worlds, steps, collation) && Fresh(worlds[0]) && n < |worlds|
    ensures SnapshotState(worlds[n].disk, worlds[n].process)
  {
    hide Next, Sound, SnapshotOf, ResetCapacity;
    if n > 0 {
      ExecutionSnapshot(worlds, steps, collation, n - 1);
      ExecutionSound(worlds, steps, collation, n - 1);
      StepSnapshot(worlds[n - 1], steps[n - 1], collation);
    }
  }

  // ---- the goal a durable reset file stands for ---

  /** A command the quarantine file can hold, whatever becomes of its payload: no empty text anywhere, and a one-byte
      payload only where the entry without it still fits the floor, as every entry with UUID identifiers does. */
  ghost predicate Retainable(command: Command) {
    && command.commandId != "" && command.resourceId != "" && command.incarnationId != "" &&
        SafePositive(command.expectedVersion)
    && command.payload != Some("")
    && (command.payload.Some? ==> ContentBytes(command.payload.value) >= 2 || BareFits(EntryOf(command)))
  }

  predicate BareFits(e: Entry) {
    EntryReservation(e.(payload := None)) <= RESULT_FLOOR
  }

  lemma FloorReserved(e: Entry)
    ensures EntryReservation(e) >= RESULT_FLOOR
  {
  }

  /** So a command with UUID identifiers can be held exactly when it carries no empty payload. */
  lemma UuidRetainable(command: Command)
    requires IsUuid(command.commandId, VERSION_4) && IsUuid(command.resourceId, ANY_VERSION)
    requires IsUuid(command.incarnationId, ANY_VERSION) && SafePositive(command.expectedVersion)
    ensures Retainable(command) <==> command.payload != Some("")
  {
    UuidBytes(command.commandId, VERSION_4);
    UuidBytes(command.resourceId, ANY_VERSION);
    UuidBytes(command.incarnationId, ANY_VERSION);
    BareBytes(command);
    hide EntryReservation, IsUuid, ContentBytes;
  }

  lemma BareBytes(command: Command)
    requires StringBytes(command.commandId) == 38 && StringBytes(command.resourceId) == 38 &&
        StringBytes(command.incarnationId) == 38 && SafePositive(command.expectedVersion)
    ensures BareFits(EntryOf(command))
  {
    SafeIntegerDigits(command.expectedVersion);
    KindBytes(command.kind);
    EntryLiterals();
    assert NumberBytes(MAX_BYTES) == 5 by { FiveDigits(); }
    hide StringBytes, NumberBytes, KindName;
  }

  lemma FiveDigits()
    ensures NumberBytes(65_536) == 5
  {
    assert |Decimal(6)| == 1 && |Decimal(65)| == 2 && |Decimal(655)| == 3 && |Decimal(6_553)| == 4;
  }

  lemma KindBytes(kind: CommandKind)
    ensures StringBytes(KindName(kind)) <= 29
  {
    assert |KindName(ResourceUpdate)| == 22 && |KindName(ResourceSoftDelete)| == 27;
    assert Plain(KindName(kind));
    PlainBytes(KindName(kind));
  }

  lemma EntryLiterals()
    ensures |"id"| == 2 && |"resource_id"| == 11 && |"resource_incarnation_id"| == 23 && |"command_type"| == 12
    ensures |"expected_record_version"| == 23 && |"payload"| == 7 && |"reserved_bytes"| == 14
    ensures |"initiallyAuthorized"| == 19 && |"state"| == 5 && |"exportable"| == 10
    ensures |"pending_review"| == 14 && |"invalidated"| == 11
  {
  }

  lemma KindNames(kind: CommandKind)
    ensures KindName(kind) != ""
  {
    assert |KindName(kind)| >= 22;
  }

  /** Exactly the intents whose text is non-empty and whose reservation fits can be read again. */
  lemma IntentReadable(app: App, command: Command, authorized: bool)
    ensures ReadableIntent(IntentFor(app, command, authorized)) <==>
              && command.commandId != "" && command.resourceId != "" && command.incarnationId != "" &&
                  SafePositive(command.expectedVersion)
              && !(authorized && command.payload == Some("")) &&
                  IntentFor(app, command, authorized).reserved <= MAX_BYTES
  {
    KindNames(command.kind);
    hide EntryReservation, KindName;
  }

  lemma RetainableSteady(app: App, command: Command, authorized: bool)
    requires Retainable(command) && IntentFor(app, command, authorized).reserved <= MAX_BYTES
    ensures SteadyIntent(IntentFor(app, command, authorized))
  {
    hide EntryReservation, KindName, ReadableIntent;
    IntentReadable(app, command, authorized);
    PayloadCost(EntryOf(command));
    FloorReserved(EntryOf(command));
    assert EntryOf(command).(payload := None).(payload := None) == EntryOf(command).(payload := None);
  }

  lemma {:induction false} PendingBound(pending: seq<Intent>, k: nat)
    requires k < |pending|
    ensures pending[k].reserved <= PendingTotal(pending)
  {
    if k < |pending| - 1 {
      PendingBound(pending[..|pending| - 1], k);
    }
  }

  /** What can be checked before the reset file is written: the commands are retainable, none of them and
      none of the earlier entries already has a result, and the earlier entries fit with what is active. */
  ghost predicate Guarded(disk: Disk, candidates: seq<Command>) {
    && disk.quarantine.Some?
    && (forall k :: 0 <= k < |candidates| ==> Retainable(candidates[k]) && candidates[k].commandId !in disk.app.results)
    && (forall i :: 0 <= i < |disk.quarantine.value.finalized| ==>
        disk.quarantine.value.finalized[i].entry.id !in disk.app.results)
    && WithinCapacity(disk.app, disk.quarantine.value.finalized)
  }

  lemma SnapshotIds(disk: Disk, candidates: seq<Command>, g: Goal)
    requires SnapshotOf(disk, g.prior, candidates, g.pending) && |g.pending| == |candidates|
    ensures forall k :: 0 <= k < |g.pending| ==> g.pending[k].entry.id == candidates[k].commandId
  {
    hide AllFinalized, DistinctEntries, Covers, Apart, IntentFor;
    forall k | 0 <= k < |g.pending| ensures g.pending[k].entry.id == candidates[k].commandId {
      IntentAuthorized(disk.app, candidates[k], g.pending[k].authorized);
    }
  }

  lemma SnapshotDistinct(disk: Disk, candidates: seq<Command>, g: Goal)
    requires SnapshotOf(disk, g.prior, candidates, g.pending) && |g.pending| == |candidates|
    ensures DistinctGoal(g) && AllFinalized(g.prior)
  {
    hide AllFinalized, IntentsFor, Listed;
    SnapshotIds(disk, candidates, g);
  }

  lemma SnapshotSteady(disk: Disk, candidates: seq<Command>, g: Goal, k: nat)
    requires SnapshotOf(disk, g.prior, candidates, g.pending) && |g.pending| == |candidates| && k < |candidates|
    requires PendingTotal(g.pending) <= MAX_BYTES && Retainable(candidates[k])
    ensures SteadyIntent(g.pending[k])
  {
    hide Retainable, SteadyIntent, AllFinalized, DistinctEntries, Covers, Apart, PendingTotal, IntentFor;
    PendingBound(g.pending, k);
    RetainableSteady(disk.app, candidates[k], g.pending[k].authorized);
  }

  lemma SnapshotIntact(disk: Disk, candidates: seq<Command>, g: Goal)
    requires SnapshotOf(disk, g.prior, candidates, g.pending) && |g.pending| == |candidates|
    requires PendingTotal(g.pending) <= MAX_BYTES && (forall k :: 0 <= k < |candidates| ==> Retainable(candidates[k]))
    ensures Intact(g)
  {
    hide Retainable, SteadyIntent, AllFinalized, DistinctGoal, SnapshotOf, PendingTotal;
    SnapshotDistinct(disk, candidates, g);
    forall k | 0 <= k < |g.pending| ensures SteadyIntent(g.pending[k]) {
      SnapshotSteady(disk, candidates, g, k);
    }
  }

  lemma SnapshotCarried(disk: Disk, candidates: seq<Command>, g: Goal)
    requires disk.quarantine == Some(Store(g.prior, g.pending)) && SnapshotOf(disk, g.prior, candidates, g.pending)
    requires |g.pending| == |candidates| && Guarded(disk, candidates) &&
        ResetCapacity(disk.app, Store(g.prior, g.pending))
    ensures Carried(disk.app, g)
  {
    hide Retainable, AllFinalized, DistinctEntries, ResetCapacity, WithinCapacity, Listed;
    forall i | 0 <= i < |g.prior| ensures g.prior[i].entry.id !in disk.app.overlays {
      if g.prior[i].entry.id in disk.app.overlays {
        ListedWitness(candidates, g.prior[i].entry.id);
      }
    }
    assert forall k :: 0 <= k < |g.pending| ==> g.pending[k].entry.id == candidates[k].commandId;
  }

  lemma ListedWitness(commands: seq<Command>, id: string)
    requires Listed(commands, id)
    ensures exists j :: 0 <= j < |commands| && commands[j].commandId == id
  {
  }

  function GoalOf(w: World, token: string): Goal
    requires w.disk.quarantine.Some? && w.process.Up?
  {
    Goal(w.disk.quarantine.value.finalized, w.disk.quarantine.value.pending, token, w.process.mem.session.epoch)
  }

  /** Writing the reset file turns a guarded snapshot into a goal that is owed from then on, with one intent
      for each command that was queued or overlaid. */
  lemma ResetStarts(w: World, token: string, collation: string -> real, base: int)
    requires Sound(w.disk, w.process) && Linked(w, base) && SnapshotState(w.disk, w.process)
    requires w.process.Up? && w.process.mem.pc.Snapshotted? && Guarded(w.disk, w.process.mem.pc.candidates)
    ensures Owed(Next(w, Program(token), collation), GoalOf(w, token), {})
    ensures forall id :: IntentIds(GoalOf(w, token).pending, id) <==> Listed(w.disk.queue, id) || id in w.disk.app.overlays
  {
    hide Advance, Sound, Next, SnapshotOf, Guarded, Intact, Carried, ResetCapacity, Listed, IntentIds;
    var mem, g := w.process.mem, GoalOf(w, token);
    ProgramStep(w, token, collation);
    WrittenFile(w, mem, token, collation);
    SnapshotGoal(w.disk, mem.pc.candidates, g);
    SnapshotLists(w.disk, mem.pc.candidates, g);
  }

  lemma GuardedRetains(disk: Disk, candidates: seq<Command>)
    requires Guarded(disk, candidates)
    ensures forall k :: 0 <= k < |candidates| ==> Retainable(candidates[k])
  {
    hide Retainable, WithinCapacity;
  }

  lemma SnapshotTotal(app: App, store: Store)
    requires ResetCapacity(app, store)
    ensures PendingTotal(store.pending) <= MAX_BYTES
  {
    hide Total, FinalizedTotal, PendingTotal, ResultReservations;
  }

  ghost predicate IntentIds(pending: seq<Intent>, id: string) {
    exists k :: 0 <= k < |pending| && pending[k].entry.id == id
  }

  lemma SnapshotLists(disk: Disk, candidates: seq<Command>, g: Goal)
    requires SnapshotOf(disk, g.prior, candidates, g.pending) && |g.pending| == |candidates|
    ensures forall id :: IntentIds(g.pending, id) <==> Listed(disk.queue, id) || id in disk.app.overlays
  {
    hide AllFinalized, DistinctEntries, Apart;
    assert forall k :: 0 <= k < |g.pending| ==> g.pending[k].entry.id == candidates[k].commandId;
    forall id ensures IntentIds(g.pending, id) <==> Listed(candidates, id) {
      if Listed(candidates, id) {
        var k :| 0 <= k < |candidates| && candidates[k].commandId == id;
        assert g.pending[k].entry.id == id;
      }
    }
  }

  lemma WrittenFile(w: World, mem: Memory, token: string, collation: string -> real)
    requires w.process == Up(mem) && mem.pc.Snapshotted?
    ensures var next := Advance(w, mem, token, collation);
            && next.disk == w.disk.(reset := Some(Quarantined(token, mem.session)))
            && next.process == Up(mem.(pc := Resetting))
  {
  }

  // ---- progress ---

  /** The answers the next call of the program needs, read off the server's tables. */
  ghost predicate Willing(w: World) {
    w.process.Up? && w.process.mem.session.replicaId in w.server.replicas ==>
      var mem, row := w.process.mem, w.server.replicas[w.process.mem.session.replicaId];
      match mem.pc
      case Resetting => !row.disabled && (row.epoch == mem.session.epoch ==> Stale(w.server, row))
      case Acknowledging => !row.disabled
      case Challenging => !row.disabled
      case Observing(id) =>
        && !row.disabled && id in w.server.challenges
        && w.server.challenges[id].replicaId == mem.session.replicaId &&
            w.server.challenges[id].epoch == mem.session.epoch
        && !w.server.challenges[id].acknowledged
        && w.server.now <= w.server.challenges[id].expiresAt && w.server.floor <= w.server.challenges[id].target
      case _ => true
  }

  /** How many steps the program has left. */
  function Remaining(pc: Pc, n: nat): nat {
    match pc
    case Resetting => 2 * n + 11
    case Staging(_) => 2 * n + 10
    case Storing(_) => 2 * n + 9
    case Acknowledging => 2 * n + 8
    case Clearing => 2 * n + 7
    case Uncovering => 2 * n + 6
    case Closing => 2 * n + 5
    case Challenging => 2 * n + 4
    case Observing(_) => 2 * n + 3
    case Finalizing(retained, additions, asked) =>
      if |additions| < |retained.pending| then 2 * (|retained.pending| - |additions|) + (if asked.Some? then 1 else 2)
          else 2
    case Unlinking => 1
    case _ => 0
  }

  ghost predicate Progresses(w: World, next: World, n: nat) {
    w.process.Up? && next.process.Up? && Remaining(next.process.mem.pc, n) < Remaining(w.process.mem.pc, n)
  }

  lemma ResetAnswers(s: Server, user: string, previous: Session, requestId: string)
    requires RowAt(s.replicas, user, previous) || RowStaged(s.replicas, user, previous, requestId)
    requires !s.replicas[previous.replicaId].disabled
    requires s.replicas[previous.replicaId].epoch == previous.epoch ==> Stale(s, s.replicas[previous.replicaId])
    ensures ResetReplica(s, user, BindingOf(previous), previous.credential, requestId).1.ResetDone?
  {
    hide Stale;
  }

  lemma ResettingProgress(w: World, g: Goal, approved: set<(string, string)>, base: int, token: string,
      collation: string -> real)
    requires w.process.Up? && w.process.mem.pc.Resetting? && w.disk.reset.Some? && w.disk.reset.value.Quarantined?
    requires Linked(w, base) && Willing(w)
    ensures Progresses(w, Advance(w, w.process.mem, token, collation), |g.pending|)
  {
    var file := w.disk.reset.value;
    ResetAnswers(w.server, w.user, file.previous, file.requestId);
    hide ResetReplica, RowStaged, RequestLinked, Stale;
  }

  lemma StoreChecks(w: World, g: Goal, approved: set<(string, string)>)
    requires Owed(w, g, approved) && !w.disk.reset.value.Cleared?
    ensures CheckedStore(w.disk)
  {
    hide Intact, ReadBack, ResetCapacity, Recorded, PcStage;
    StageReads(w.disk, g, approved);
  }

  lemma StagingProgress(w: World, g: Goal, approved: set<(string, string)>, token: string, collation: string -> real)
    requires Owed(w, g, approved) && w.process.Up? && w.process.mem.pc.Staging? && w.disk.reset.value.Quarantined?
    ensures Progresses(w, Advance(w, w.process.mem, token, collation), |g.pending|)
  {
    hide Owed, CheckedStore;
    OwedFile(w, g, approved);
    StoreChecks(w, g, approved);
  }

  lemma AckAnswers(s: Server, user: string, previous: Session, requestId: string)
    requires RowStaged(s.replicas, user, previous, requestId) || RowAcknowledged(s.replicas, user, previous, requestId)
    requires !s.replicas[previous.replicaId].disabled
    ensures var next := NextSession(previous, requestId);
            AcknowledgeReset(s, user, BindingOf(next), next.credential, requestId).1
  {
  }

  lemma AcknowledgingProgress(w: World, g: Goal, base: int, token: string, collation: string -> real)
    requires w.process.Up? && w.process.mem.pc.Acknowledging? && w.disk.reset.Some? && w.disk.reset.value.SessionStaged?
    requires Linked(w, base) && Willing(w)
    ensures Progresses(w, Advance(w, w.process.mem, token, collation), |g.pending|)
  {
    var file := w.disk.reset.value;
    SessionsDiffer(file.previous, file.requestId);
    AckAnswers(w.server, w.user, file.previous, file.requestId);
    hide AcknowledgeReset, RowStaged, RowAcknowledged, RequestLinked;
  }

  lemma ClearingProgress(w: World, g: Goal, approved: set<(string, string)>, token: string, collation: string -> real)
    requires Owed(w, g, approved) && w.process.Up? && w.disk.reset.value.SessionStaged?
    requires w.process.mem.pc.Storing? || w.process.mem.pc.Clearing? || w.process.mem.pc.Uncovering? ||
        w.process.mem.pc.Closing?
    ensures Progresses(w, Advance(w, w.process.mem, token, collation), |g.pending|)
  {
    hide Owed, CheckedStore;
    OwedFile(w, g, approved);
    StoreChecks(w, g, approved);
  }

  lemma ChallengeAnswers(s: Server, user: string, session: Session, id: string)
    requires RowAt(s.replicas, user, session) && !s.replicas[session.replicaId].disabled
    ensures IssueChallenge(s, user, BindingOf(session), session.credential, id).1
    ensures id in s.challenges && s.challenges[id].replicaId == session.replicaId &&
            s.challenges[id].epoch == session.epoch && !s.challenges[id].acknowledged &&
            s.now <= s.challenges[id].expiresAt && s.floor <= s.challenges[id].target ==>
              AcknowledgeChallenge(s, user, BindingOf(session), session.credential, id).1.AckDone?
  {
  }

  lemma ObservingProgress(w: World, g: Goal, approved: set<(string, string)>, base: int, token: string,
      collation: string -> real)
    requires Owed(w, g, approved) && w.process.Up? && (w.process.mem.pc.Challenging? || w.process.mem.pc.Observing?)
    requires Linked(w, base) && Willing(w) && w.disk.reset.value.Cleared?
    ensures Progresses(w, Advance(w, w.process.mem, token, collation), |g.pending|)
  {
    hide Owed, RequestLinked, IssueChallenge, AcknowledgeChallenge, ReadBack, StoreSession;
    var mem := w.process.mem;
    OwedFile(w, g, approved);
    LinkedRow(w, base);
    ChallengeAnswers(w.server, w.user, mem.session, if mem.pc.Observing? then mem.pc.challengeId else token);
    RetainedLength(w, g, approved);
  }

  lemma LinkedRow(w: World, base: int)
    requires Linked(w, base) && w.process.Up? && w.disk.reset.Some? && w.disk.reset.value.Cleared?
    ensures RowAt(w.server.replicas, w.user, w.process.mem.session)
  {
    hide RequestLinked, PcLinked;
  }

  lemma RetainedLength(w: World, g: Goal, approved: set<(string, string)>)
    requires Owed(w, g, approved)
    ensures w.disk.reset.Some? && ReadBack(w.disk.quarantine).Ok? &&
        |ReadBack(w.disk.quarantine).value.pending| <= |g.pending|
  {
    hide Intact, Carried, ReadBack, Recorded, PcStage;
    StageReads(w.disk, g, approved);
  }

  lemma ConsultMoves(w: World, mem: Memory, token: string, collation: string -> real, n: nat)
    requires w.process == Up(mem) && mem.pc.Finalizing? && |mem.pc.additions| < |mem.pc.retained.pending|
    requires var item := mem.pc.retained.pending[|mem.pc.additions|];
             forall visible :: FinalizedBytes(item.entry, visible, item.reserved) <= item.reserved
    ensures Progresses(w, Advance(w, mem, token, collation), n)
  {
    hide Classify, FinalizedBytes, Finalize;
  }

  lemma ConsultProgress(w: World, g: Goal, approved: set<(string, string)>, token: string, collation: string -> real)
    requires Owed(w, g, approved) && w.process.Up? && w.process.mem.pc.Finalizing?
    requires |w.process.mem.pc.additions| < |w.process.mem.pc.retained.pending|
    ensures Progresses(w, Advance(w, w.process.mem, token, collation), |g.pending|)
  {
    hide Owed, Recorded, FinalForms, Carried, Intact, Advance, Progresses, FinalizedBytes, Finalize, SteadyIntent,
        ReadableFinalized;
    var mem := w.process.mem;
    RetainedStage(w, mem, g, approved);
    OwedIntact(w, g, approved);
    ItemSteady(g, mem.pc.retained, |mem.pc.additions|);
    var item := mem.pc.retained.pending[|mem.pc.additions|];
    SteadyFinal(item, true);
    SteadyFinal(item, false);
    ConsultMoves(w, mem, token, collation, |g.pending|);
  }

  lemma ItemSteady(g: Goal, retained: Store, k: nat)
    requires Intact(g) && k < |retained.pending| && (retained == Store(g.prior, g.pending) || retained.pending == [])
    ensures SteadyIntent(retained.pending[k])
  {
    hide SteadyIntent, AllFinalized, DistinctGoal;
  }

  lemma RecordedCapacity(app: App, m: seq<Finalized>, g: Goal, approved: set<(string, string)>)
    requires Recorded(m, g, approved) && Carried(app, g)
    ensures ResetCapacity(app, Store(m, []))
  {
    assert PendingTotal([]) == 0;
    hide AllFinalized, DistinctEntries, Settles, Total, FinalizedTotal, PendingTotal, CapacityUsage, ResultReservations;
  }

  lemma MergeProgress(w: World, g: Goal, approved: set<(string, string)>, token: string, collation: string -> real)
    requires Owed(w, g, approved) && w.process.Up? && w.process.mem.pc.Finalizing?
    requires |w.process.mem.pc.additions| == |w.process.mem.pc.retained.pending|
    ensures Progresses(w, Advance(w, w.process.mem, token, collation), |g.pending|)
  {
    hide Owed, Recorded, SortById, UniqueIds, FinalizedIds, ResetCapacity, DistinctEntries, Carried, Intact;
    var mem := w.process.mem;
    var all := mem.pc.retained.finalized + mem.pc.additions;
    MergedRecords(w, mem, g, approved, collation);
    DistinctIsUnique(all);
    OwedIntact(w, g, approved);
    RecordedCapacity(w.disk.app, SortById(all, collation), g, approved);
  }

  /** While the goal is owed, the program's next step never fails against a willing server, and each step
      brings the end nearer: a reset that is not interrupted again finishes within 2n + 11 steps. */
  lemma RecoveryProgresses(w: World, g: Goal, approved: set<(string, string)>, base: int, token: string,
      collation: string -> real)
    requires Owed(w, g, approved) && Sound(w.disk, w.process) && Linked(w, base)
    requires w.process.Up? && Willing(w)
    ensures Progresses(w, Advance(w, w.process.mem, token, collation), |g.pending|)
    ensures Remaining(w.process.mem.pc, |g.pending|) <= 2 * |g.pending| + 11
  {
    hide Owed, Sound, Linked, Willing, Progresses, Advance, PcSound, ResetSound;
    SoundParts(w.disk, w.process);
    OwedFile(w, g, approved);
    var pc := w.process.mem.pc;
    PhaseAt(pc, w.disk);
    ObservedPhase(pc, w.disk);
    if pc.Resetting? {
      ResettingProgress(w, g, approved, base, token, collation);
    } else if pc.Staging? {
      StagingProgress(w, g, approved, token, collation);
    } else if pc.Acknowledging? {
      AcknowledgingProgress(w, g, base, token, collation);
    } else if pc.Storing? || pc.Clearing? || pc.Uncovering? || pc.Closing? {
      ClearingProgress(w, g, approved, token, collation);
    } else if pc.Challenging? || pc.Observing? {
      ObservingProgress(w, g, approved, base, token, collation);
    } else if pc.Finalizing? {
      AdditionsBounded(w, g, approved);
      RetainedBound(w, g, approved);
      if |pc.additions| < |pc.retained.pending| {
        ConsultProgress(w, g, approved, token, collation);
      } else {
        MergeProgress(w, g, approved, token, collation);
      }
    } else {
      UnlinkProgress(w, g, token, collation);
    }
  }

  lemma ObservedPhase(pc: Pc, disk: Disk)
    requires PcSound(pc, disk) && disk.reset.Some?
    ensures pc.Challenging? || pc.Observing? ==> disk.reset.value.Cleared?
  {
  }

  lemma RetainedBound(w: World, g: Goal, approved: set<(string, string)>)
    requires Owed(w, g, approved) && w.process.Up? && w.process.mem.pc.Finalizing?
    ensures |w.process.mem.pc.retained.pending| <= |g.pending|
  {
    hide Owed, Recorded, FinalForms;
    RetainedStage(w, w.process.mem, g, approved);
  }

  lemma UnlinkProgress(w: World, g: Goal, token: string, collation: string -> real)
    requires w.process.Up? && w.process.mem.pc.Unlinking?
    ensures Progresses(w, Advance(w, w.process.mem, token, collation), |g.pending|)
  {
  }

  // ---- opening again ---

  lemma RecordedIds(m: seq<Finalized>, g: Goal, approved: set<(string, string)>, i: nat)
    requires Recorded(m, g, approved) && i < |m|
    ensures (exists k :: 0 <= k < |g.prior| && g.prior[k].entry.id == m[i].entry.id) ||
        IntentIds(g.pending, m[i].entry.id)
  {
    hide AllFinalized, DistinctEntries, FinalizedTotal, PendingTotal;
    var adds :| |adds| == |g.pending| && FinalForms(adds, g.pending, approved) &&
        multiset(m) == multiset(g.prior) + multiset(adds);
    assert m[i] in multiset(m);
    if m[i] in g.prior {
      var k :| 0 <= k < |g.prior| && g.prior[k] == m[i];
    } else {
      var k :| 0 <= k < |adds| && adds[k] == m[i];
      assert g.pending[k].entry.id == m[i].entry.id;
    }
  }

  lemma RecordedApart(app: App, m: seq<Finalized>, g: Goal, approved: set<(string, string)>, i: nat)
    requires Recorded(m, g, approved) && Carried(app, g) && app.overlays == map[] && i < |m|
    ensures m[i].entry.id !in Active(app)
  {
    hide Recorded, ResetCapacity, WithinCapacity;
    RecordedIds(m, g, approved, i);
    if IntentIds(g.pending, m[i].entry.id) {
      var k :| 0 <= k < |g.pending| && g.pending[k].entry.id == m[i].entry.id;
    }
  }

  lemma RecordedWithin(app: App, m: seq<Finalized>, g: Goal, approved: set<(string, string)>)
    requires Recorded(m, g, approved) && Carried(app, g) && app.overlays == map[] && Disjoint(app)
    ensures WithinCapacity(app, m)
  {
    hide Recorded, Carried, ResetCapacity, WithinCapacity, HeldWithin, Disjoint;
    RecordedCapacity(app, m, g, approved);
    ResetCheckCovers(app, m);
    CapacityIsHeld(app, m);
  }

  lemma PublishedOpens(disk: Disk, m: seq<Finalized>, g: Goal, approved: set<(string, string)>)
    requires Recorded(m, g, approved) && Carried(disk.app, g) && Disjoint(disk.app) && disk.app.overlays == map[]
    requires disk.quarantine == Some(Store(m, [])) && disk.app.session.Some?
    ensures OpenChecks(disk)
  {
    hide Recorded, Carried, WithinCapacity, ReadBack, Disjoint, Active;
    RecordedDistinct(m, g, approved);
    RecordedReads(m);
    RecordedWithin(disk.app, m, g, approved);
    forall i | 0 <= i < |m| ensures m[i].entry.id !in Active(disk.app) {
      RecordedApart(disk.app, m, g, approved, i);
    }
  }

  lemma SnapshotOpens(disk: Disk, g: Goal)
    requires Intact(g) && Carried(disk.app, g) && Disjoint(disk.app) && disk.reset.Some?
    requires disk.quarantine == Some(Store(g.prior, g.pending)) && disk.app.session.Some?
    ensures OpenChecks(disk)
  {
    hide Intact, WithinCapacity, ResetCapacity, ReadBack, Disjoint, Active;
    IntactReads(g);
  }

  /** After a crash anywhere in the reset the next open passes its checks and takes the reset up again. */
  lemma CrashedResetReopens(w: World, g: Goal, approved: set<(string, string)>, base: int)
    requires Owed(w, g, approved) && Sound(w.disk, w.process) && Linked(w, base)
    ensures OpenProcess(w.disk).Up?
  {
    hide OpenChecks, Intact, Carried, Recorded, PcStage, HeldWithin, QueueCovered, Fits, Disjoint, ReadBack, ResumePc,
        Linked;
    ResumeNeverMismatches(w, base);
    LinkedSession(w, base);
    if w.disk.quarantine == Some(Store(g.prior, g.pending)) {
      SnapshotOpens(w.disk, g);
    } else {
      PublishedOpens(w.disk, w.disk.quarantine.value.finalized, g, approved);
    }
  }

  lemma LinkedSession(w: World, base: int)
    requires Linked(w, base)
    ensures w.disk.app.session.Some?
  {
    hide FileLinked, RequestLinked, PcLinked;
  }

  /** A client that has finished a reset can be closed and opened again. */
  lemma FinishedReopens(w: World, g: Goal, approved: set<(string, string)>)
    requires Finished(w, g, approved) && Sound(w.disk, w.process)
    ensures OpenProcess(w.disk).Up?
  {
    hide OpenChecks, Carried, Recorded, HeldWithin, QueueCovered, Fits, Disjoint, ReadBack;
    PublishedOpens(w.disk, w.process.mem.finalized, g, approved);
  }

  // ---- the crash windows the reset does not cover ---

  lemma SnapshotGoal(disk: Disk, candidates: seq<Command>, g: Goal)
    requires disk.quarantine == Some(Store(g.prior, g.pending)) && SnapshotOf(disk, g.prior, candidates, g.pending)
    requires |g.pending| == |candidates| && Guarded(disk, candidates) &&
        ResetCapacity(disk.app, Store(g.prior, g.pending))
    ensures Intact(g) && Carried(disk.app, g)
  {
    hide Intact, Carried, SnapshotOf, ResetCapacity, Guarded, Retainable;
    SnapshotTotal(disk.app, disk.quarantine.value);
    GuardedRetains(disk, candidates);
    SnapshotIntact(disk, candidates, g);
    SnapshotCarried(disk, candidates, g);
  }

  lemma PendingNeedsReset(disk: Disk, g: Goal)
    requires Intact(g) && Carried(disk.app, g) && Disjoint(disk.app) && disk.reset.None?
    requires disk.quarantine == Some(Store(g.prior, g.pending)) && disk.app.session.Some?
    ensures OpenChecks(disk) <==> g.pending == []
  {
    hide Intact, WithinCapacity, ResetCapacity, ReadBack, Disjoint, Active;
    IntactReads(g);
  }

  /** A process that stops after the quarantine write and before the reset file can be opened again exactly
      when nothing was pending; otherwise every later open fails closed. */
  lemma CrashBeforeResetFile(w: World, base: int)
    requires Sound(w.disk, w.process) && Linked(w, base) && SnapshotState(w.disk, w.process)
    requires w.process.Up? && w.process.mem.pc.Snapshotted? && Guarded(w.disk, w.process.mem.pc.candidates)
    ensures OpenProcess(w.disk).Up? <==> w.disk.quarantine.value.pending == []
  {
    hide OpenChecks, ResetCapacity, HeldWithin, QueueCovered, Fits, Disjoint, Linked, SnapshotOf, Guarded, Intact,
        Carried, ReadBack;
    var g := Goal(w.disk.quarantine.value.finalized, w.disk.quarantine.value.pending, "", 0);
    SnapshotGoal(w.disk, w.process.mem.pc.candidates, g);
    LinkedSession(w, base);
    PendingNeedsReset(w.disk, g);
  }

  /** A candidate already has a result exactly when some queue entry has lost its overlay: the process had
      stopped between storing a result and completing the SDK transaction. */
  lemma ResultAndIntentExactly(w: World)
    requires Sound(w.disk, w.process) && SnapshotState(w.disk, w.process) && w.process.Up? &&
        w.process.mem.pc.Snapshotted?
    ensures (exists k :: 0 <= k < |w.process.mem.pc.candidates| && w.process.mem.pc.candidates[k].commandId in w.disk.app.results) <==>
            (exists i :: 0 <= i < |w.disk.queue| && w.disk.queue[i].commandId !in w.disk.app.overlays)
  {
    hide Fits, HeldWithin, IntentsFor, Apart, AllFinalized, DistinctEntries, ResetCapacity;
    var candidates := w.process.mem.pc.candidates;
    if k :| 0 <= k < |candidates| && candidates[k].commandId in w.disk.app.results {
      assert Listed(candidates, candidates[k].commandId);
      var i :| 0 <= i < |w.disk.queue| && w.disk.queue[i].commandId == candidates[k].commandId;
    }
    if i :| 0 <= i < |w.disk.queue| && w.disk.queue[i].commandId !in w.disk.app.overlays {
      assert Owned(w.disk.app, w.disk.queue[i].commandId);
      assert Listed(w.disk.queue, w.disk.queue[i].commandId);
      var k :| 0 <= k < |candidates| && candidates[k].commandId == w.disk.queue[i].commandId;
    }
  }

  /** Once such a command is finalized, the client never opens again while its result is there. */
  lemma BothPlacesFailsClosed(disk: Disk, m: seq<Finalized>, i: nat)
    requires disk.quarantine == Some(Store(m, [])) && AllFinalized(m) && DistinctEntries(m) && i < |m|
    requires m[i].entry.id in disk.app.results
    ensures OpenProcess(disk).Down?
  {
    hide ReadBack, AllFinalized, WithinCapacity, Disjoint, DistinctEntries;
    RecordedReads(m);
  }
}
