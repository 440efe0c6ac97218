/** Which results can still be acknowledged: where an unfinished result stands, what carries it on from there, and when
    nothing ever will. */
module ReplicaAcknowledgement {
  import opened Basics
  import opened CommandProtocol
  import opened Reservations
  import opened ServerState
  import opened ServerRuns
  import opened ApplicationState
  import opened QuarantineStore
  import opened ReplicaClient
  import opened ReplicaSafety
  import opened ReplicaOutcomes
  import opened ReplicaRotation
  import opened ReplicaGoal
  import opened ReplicaReset
  import opened ReplicaRecovery
  import opened ReplicaConservation

  // ---- only the first queue entry can be half settled ---

  /** Every queue entry behind the first still has its overlay. */
  ghost predicate HeadOnly(disk: Disk) {
    forall i :: 0 < i < |disk.queue| ==> disk.queue[i].commandId in disk.app.overlays
  }

  lemma UploadHeadOnly(w: World, mem: Memory, step: Step)
    requires w.process == Up(mem) && Sound(w.disk, w.process) && HeadOnly(w.disk)
    ensures HeadOnly(UploadStep(w, mem, step).disk)
  {
    hide HandleCommand, Judge, PersistAll, MarkAll, CommandDigest, Sound, AppSound, Unfinished, Absent, Owned;
    UploadParts(w.disk, mem);
    match (step, mem.upload) {
      case (Persist, Persisting(result)) =>
        if PersistAll(w.disk.app, [result]).Ok? {
          PersistedResult(w.disk.app, result);
          hide PersistOne;
          PersistedRow(w.disk.app, result, PersistAll(w.disk.app, [result]).value);
        }
      case (Mark, Marking(id)) => MarkedOverlays(w.disk.app, id);
      case _ =>
    }
  }

  lemma MarkedOverlays(app: App, id: string)
    requires Unfinished(app, id)
    ensures MarkAll(app, [id]).Ok? && MarkAll(app, [id]).value.overlays == app.overlays
  {
    MarkedResult(app, id);
  }

  lemma QueueHeadOnly(disk: Disk, mem: Memory, command: Command)
    requires HeadOnly(disk)
    ensures HeadOnly(QueueOverlay(disk, mem, command).0)
  {
    hide OutstandingReservation, CommandBytes, CapacityUsage;
    if mem.pc.Idle? && Admits(disk.app, mem.finalized, command) {
      AddedOverlay(disk.app, OverlayFor(command));
    }
  }

  lemma InsertedHeadOnly(disk: Disk, mem: Memory)
    requires PcSound(mem.pc, disk) && mem.pc.Inserting? && HeadOnly(disk)
    ensures HeadOnly(disk.(queue := disk.queue + [QueuedForm(mem.pc.command)]))
    ensures HeadOnly(disk.(app := RemoveAll(disk.app, [mem.pc.command.commandId])))
  {
    RemovedOverlay(disk.app, mem.pc.command.commandId);
    hide RemoveAll;
  }

  /** Overlays are cleared only once the queue is empty. */
  lemma ProgramHeadOnly(w: World, mem: Memory, token: string, collation: string -> real)
    requires w.process == Up(mem) && PcSound(mem.pc, w.disk) && HeadOnly(w.disk)
    ensures HeadOnly(Advance(w, mem, token, collation).disk)
  {
    hide ResetReplica, AcknowledgeReset, IssueChallenge, AcknowledgeChallenge, Classify, ReadBack, ResetCapacity,
        CheckedStore, SortById, UniqueIds, FinalizedBytes, Finalize, IntentFor, FinalizedIds;
  }

  lemma StepHeadOnly(w: World, step: Step, collation: string -> real)
    requires Sound(w.disk, w.process) && HeadOnly(w.disk)
    ensures HeadOnly(Next(w, step, collation).disk)
  {
    hide Sound, PcSound, Advance, UploadStep, ServerRuns.Step, Enabled, Handle, OpenProcess, QueueOverlay,
        BeginSnapshot,
        Acknowledge, RemoveAll;
    if w.process.Up? {
      var mem := w.process.mem;
      SoundParts(w.disk, w.process);
      match step {
        case Program(token) => ProgramHeadOnly(w, mem, token, collation);
        case Queue(command) => QueueHeadOnly(w.disk, mem, command);
        case InsertQueued => if mem.pc.Inserting? { InsertedHeadOnly(w.disk, mem); }
        case InsertFails => if mem.pc.Inserting? { InsertedHeadOnly(w.disk, mem); }
        case _ => UploadHeadOnly(w, mem, step);
      }
    }
  }

  lemma {:induction false} ExecutionHeadOnly(worlds: seq<World>, steps: seq<Step>, collation: string -> real, n: nat)
    requires IsExecution(worlds, steps, collation) && Fresh(worlds[0]) && n < |worlds|
    ensures HeadOnly(worlds[n].disk)
  {
    hide Next, Fresh, HeadOnly, Sound;
    if n == 0 {
      FreshHeadOnly(worlds[0]);
    } else {
      ExecutionHeadOnly(worlds, steps, collation, n - 1);
      ExecutionSound(worlds, steps, collation, n - 1);
      StepHeadOnly(worlds[n - 1], steps[n - 1], collation);
    }
  }

  lemma FreshHeadOnly(w: World)
    requires Fresh(w)
    ensures HeadOnly(w.disk)
  {
    hide Inv;
  }

  // ---- where an unfinished result stands ---

  /** In every execution an unfinished result is stranded, about to be marked, or at the head of the queue. */
  lemma UnfinishedPlaces(worlds: seq<World>, steps: seq<Step>, collation: string -> real, n: nat, id: string)
    requires IsExecution(worlds, steps, collation) && Fresh(worlds[0]) && n < |worlds|
    requires Unfinished(worlds[n].disk.app, id)
    ensures var w := worlds[n];
            || Stranded(w, id)
            || (w.process.Up? && w.process.mem.upload == Marking(id))
            || (w.disk.queue != [] && w.disk.queue[0].commandId == id)
  {
    hide IsExecution, Fresh, Sound;
    ExecutionHeadOnly(worlds, steps, collation, n);
    ExecutionSound(worlds, steps, collation, n);
    SoundDisjoint(worlds[n].disk, worlds[n].process);
  }

  /** Once stranded it stays so: it can be acknowledged in no continuation. */
  lemma {:induction false} StrandedForGood(worlds: seq<World>, steps: seq<Step>, collation: string -> real, id: string,
      i: nat, j: nat)
    requires IsExecution(worlds, steps, collation) && Fresh(worlds[0]) && i <= j < |worlds| && Stranded(worlds[i], id)
    ensures Stranded(worlds[j], id) && !AcknowledgeOne(worlds[j].disk.app, id).1
  {
    hide Sound, Fresh, Next;
    if i < j {
      StrandedForGood(worlds, steps, collation, id, i, j - 1);
      ExecutionSound(worlds, steps, collation, j - 1);
      StrandedStep(worlds[j - 1], steps[j - 1], collation, id);
    }
  }

  // ---- carrying it on ---

  /** The world after the steps. */
  ghost function After(w: World, steps: seq<Step>, collation: string -> real): World
    decreases |steps|
  {
    if steps == [] then w else After(Next(w, steps[0], collation), steps[1..], collation)
  }

  /** Such a continuation is itself an execution. */
  lemma {:induction false} AfterRuns(w: World, steps: seq<Step>, collation: string -> real) returns (worlds: seq<World>)
    ensures IsExecution(worlds, steps, collation) && worlds[0] == w && worlds[|steps|] == After(w, steps, collation)
    decreases |steps|
  {
    hide Next;
    if steps == [] {
      worlds := [w];
    } else {
      var rest := AfterRuns(Next(w, steps[0], collation), steps[1..], collation);
      worlds := [w] + rest;
      forall i | 0 <= i < |steps| ensures worlds[i + 1] == Next(worlds[i], steps[i], collation) {
        if i > 0 {
          assert rest[i] == Next(rest[i - 1], steps[1..][i - 1], collation);
        }
      }
    }
  }

  /** The command being marked is acknowledged two steps later, if the process does not stop before. */
  lemma MarkedThenAcknowledged(w: World, collation: string -> real, id: string)
    requires Sound(w.disk, w.process) && w.process.Up? && w.process.mem.pc.Idle? && w.process.mem.upload == Marking(id)
    ensures id in w.disk.app.results && id !in After(w, [Mark, AcknowledgeResult(id)], collation).disk.app.results
  {
    hide Next, Sound;
    var marked := Next(w, Mark, collation);
    MarkStep(w, collation, id);
    AcknowledgeStep(marked, collation, id);
    AfterTwo(w, Mark, AcknowledgeResult(id), collation);
  }

  lemma AfterOne(w: World, step: Step, collation: string -> real)
    ensures After(w, [step], collation) == Next(w, step, collation)
  {
    hide Next;
    assert [step][1..] == [];
    assert After(Next(w, step, collation), [], collation) == Next(w, step, collation);
  }

  lemma AfterTwo(w: World, first: Step, second: Step, collation: string -> real)
    ensures After(w, [first, second], collation) == Next(Next(w, first, collation), second, collation)
  {
    hide Next;
    assert [first, second][1..] == [second];
    AfterOne(Next(w, first, collation), second, collation);
  }

  lemma AfterMore(w: World, first: Step, rest: seq<Step>, collation: string -> real)
    ensures After(w, [first] + rest, collation) == After(Next(w, first, collation), rest, collation)
  {
    hide Next;
    assert ([first] + rest)[1..] == rest;
  }

  lemma MarkStep(w: World, collation: string -> real, id: string)
    requires Sound(w.disk, w.process) && w.process.Up? && w.process.mem.pc.Idle? && w.process.mem.upload == Marking(id)
    ensures var next := Next(w, Mark, collation);
            && next.process.Up? && next.process.mem.pc.Idle? && id in next.disk.app.results && id in w.disk.app.results
            && next.disk.app.results[id].completed
  {
    hide Sound, AppSound, QueueCovered, MarkAll;
    UploadParts(w.disk, w.process.mem);
    MarkedResult(w.disk.app, id);
  }

  lemma AcknowledgeStep(w: World, collation: string -> real, id: string)
    requires w.process.Up? && w.process.mem.pc.Idle? && id in w.disk.app.results && w.disk.app.results[id].completed
    ensures id !in Next(w, AcknowledgeResult(id), collation).disk.app.results
  {
  }

  lemma CompletedThenAcknowledged(w: World, collation: string -> real, id: string)
    requires Sound(w.disk, w.process) && w.process.Up? && w.process.mem.pc.Idle? &&
        w.process.mem.upload == Completing(id)
    ensures id in w.disk.app.results
    ensures id !in After(w, [Complete, Mark, AcknowledgeResult(id)], collation).disk.app.results
  {
    hide Next, Sound;
    CompleteStep(w, collation, id);
    StepSound(w, Complete, collation);
    MarkedThenAcknowledged(Next(w, Complete, collation), collation, id);
    AfterMore(w, Complete, [Mark, AcknowledgeResult(id)], collation);
  }

  lemma CompleteStep(w: World, collation: string -> real, id: string)
    requires Sound(w.disk, w.process) && w.process.Up? && w.process.mem.pc.Idle? &&
        w.process.mem.upload == Completing(id)
    ensures var next := Next(w, Complete, collation);
            && next.process.Up? && next.process.mem.pc.Idle? && next.process.mem.upload == Marking(id)
            && id in w.disk.app.results
  {
    hide Sound, AppSound, QueueCovered;
    UploadParts(w.disk, w.process.mem);
  }

  /** The server, asked now for the command at the head of the queue, would repeat the stored outcome. */
  ghost predicate Repeats(w: World, id: string, attempt: int) {
    && w.process.Up? && w.disk.queue != [] && ValidQueued(w.disk.queue[0]) && id in w.disk.app.results
    && var command, session := w.disk.queue[0], w.process.mem.session;
       var verdict := Judge(command, BindingOf(session), HandleCommand(w.server, w.user, session, command, attempt).1);
       verdict.Terminal? && SameOutcome(w.disk.app.results[id].result, verdict.result)
  }

  /** An unfinished result at the head of the queue of an open client is acknowledged six steps later, if the server
      repeats the outcome: this is how the client takes up an upload that a crash interrupted. */
  lemma RepeatedThenAcknowledged(w: World, collation: string -> real, id: string, attempt: int)
    requires Sound(w.disk, w.process) && w.process.Up? && w.process.mem.pc.Idle? && w.process.mem.upload.Resting?
    requires w.disk.queue != [] && w.disk.queue[0].commandId == id && Unfinished(w.disk.app, id) &&
        Repeats(w, id, attempt)
    ensures id !in After(w, [Send(attempt), Reply(attempt), Persist, Complete, Mark, AcknowledgeResult(id)],
        collation).disk.app.results
  {
    hide Next, Sound, Repeats;
    var sent := Next(w, Send(attempt), collation);
    var replied := Next(sent, Reply(attempt), collation);
    var persisted := Next(replied, Persist, collation);
    RepliedStep(w, collation, id, attempt);
    StepSound(w, Send(attempt), collation);
    StepSound(sent, Reply(attempt), collation);
    StepSound(replied, Persist, collation);
    ConfirmedStep(replied, collation, id);
    CompletedThenAcknowledged(persisted, collation, id);
    var rest := [Complete, Mark, AcknowledgeResult(id)];
    AfterMore(replied, Persist, rest, collation);
    AfterMore(sent, Reply(attempt), [Persist] + rest, collation);
    AfterMore(w, Send(attempt), [Reply(attempt)] + ([Persist] + rest), collation);
    assert [Send(attempt)] + ([Reply(attempt)] + ([Persist] + rest)) ==
           [Send(attempt), Reply(attempt), Persist, Complete, Mark, AcknowledgeResult(id)];
  }

  lemma RepliedStep(w: World, collation: string -> real, id: string, attempt: int)
    requires w.process.Up? && w.process.mem.pc.Idle? && w.process.mem.upload.Resting?
    requires w.disk.queue != [] && w.disk.queue[0].commandId == id && Repeats(w, id, attempt)
    ensures var replied := Next(Next(w, Send(attempt), collation), Reply(attempt), collation);
            && replied.disk == w.disk && replied.process.Up? && replied.process.mem.pc.Idle?
            && replied.process.mem.upload.Persisting? && replied.process.mem.upload.result.commandId == id
            && SameOutcome(w.disk.app.results[id].result, replied.process.mem.upload.result)
  {
    hide HandleCommand, Judge, SameOutcome, CountFailure;
    JudgedCommand(w.disk.queue[0], BindingOf(w.process.mem.session),
      HandleCommand(w.server, w.user, w.process.mem.session, w.disk.queue[0], attempt).1);
  }

  lemma ConfirmedStep(w: World, collation: string -> real, id: string)
    requires w.process.Up? && w.process.mem.pc.Idle? && w.process.mem.upload.Persisting?
    requires w.process.mem.upload.result.commandId == id && id in w.disk.app.results
    requires SameOutcome(w.disk.app.results[id].result, w.process.mem.upload.result)
    ensures var next := Next(w, Persist, collation);
            next.process.Up? && next.process.mem.pc.Idle? && next.process.mem.upload == Completing(id)
  {
    hide SameOutcome, ResultBytes, CapacityUsage;
    PersistedResult(w.disk.app, w.process.mem.upload.result);
    hide PersistAll;
  }

  // ---- when there is no way on ---

  /** A client that is down and fails its sidecar checks is down for good: no step of anybody changes what they read. */
  lemma {:induction false} ClosedForGood(worlds: seq<World>, steps: seq<Step>, collation: string -> real, i: nat,
      j: nat)
    requires IsExecution(worlds, steps, collation) && i <= j < |worlds|
    requires worlds[i].process.Down? && OpenProcess(worlds[i].disk).Down?
    ensures worlds[j].process.Down? && worlds[j].disk == worlds[i].disk.(rows := worlds[j].disk.rows)
    ensures OpenProcess(worlds[j].disk).Down?
  {
    hide Next, OpenProcess;
    if i < j {
      ClosedForGood(worlds, steps, collation, i, j - 1);
      ClosedStep(worlds[j - 1], steps[j - 1], collation);
    }
  }

  lemma ClosedStep(w: World, step: Step, collation: string -> real)
    requires w.process.Down? && OpenProcess(w.disk).Down?
    ensures var next := Next(w, step, collation);
            next.process.Down? && next.disk == w.disk.(rows := next.disk.rows) && OpenProcess(next.disk).Down?
  {
    hide Advance, UploadStep, ServerRuns.Step, Enabled, Handle, OpenProcess;
    SameOpen(w.disk, Next(w, step, collation).disk.rows);
  }

  lemma SameOpen(disk: Disk, rows: set<(string, string)>)
    ensures OpenProcess(disk.(rows := rows)).Down? <==> OpenProcess(disk).Down?
  {
    hide ReadBack, WithinCapacity, Disjoint, Active;
  }

  /** So not being stranded is not enough: behind a closed client every unfinished result stays unacknowledged, also one
      whose queue entry is still there. */
  lemma ClosedNeverAcknowledged(worlds: seq<World>, steps: seq<Step>, collation: string -> real, i: nat, j: nat,
      id: string)
    requires IsExecution(worlds, steps, collation) && i <= j < |worlds|
    requires worlds[i].process.Down? && OpenProcess(worlds[i].disk).Down? && Unfinished(worlds[i].disk.app, id)
    ensures Unfinished(worlds[j].disk.app, id) && !AcknowledgeOne(worlds[j].disk.app, id).1
  {
    hide Next, OpenProcess;
    ClosedForGood(worlds, steps, collation, i, j);
  }

  /** At the head of the queue an upload can only be completed by an outcome equal to the stored one. */
  lemma CompletedOnlyByRepeat(w: World, step: Step, collation: string -> real, id: string)
    requires Sound(w.disk, w.process) && w.process.Up? && w.process.mem.upload != Completing(id) &&
        Unfinished(w.disk.app, id)
    requires Next(w, step, collation).process.Up? && Next(w, step, collation).process.mem.upload == Completing(id)
    ensures step == Persist && w.process.mem.upload.Persisting? && w.process.mem.upload.result.commandId == id
    ensures SameOutcome(w.disk.app.results[id].result, w.process.mem.upload.result)
  {
    hide Sound, Advance, UploadStep, ServerRuns.Step, Enabled, Handle, OpenProcess, BeginSnapshot, QueueOverlay,
        Acknowledge,
        SameOutcome, Unfinished;
    var mem := w.process.mem;
    match step {
      case Program(token) => AdvanceQueue(w, mem, token, collation);
      case Queue(command) => QueueUpload(w.disk, mem, command);
      case BeginReset(orphans) => SnapshotUpload(w.disk, mem, orphans);
      case _ => UploadCompletes(w, mem, step, id);
    }
  }

  lemma UploadCompletes(w: World, mem: Memory, step: Step, id: string)
    requires w.process == Up(mem) && mem.upload != Completing(id) && Unfinished(w.disk.app, id)
    ensures var next := UploadStep(w, mem, step);
            next.process.Up? && next.process.mem.upload == Completing(id) ==>
              step == Persist && mem.upload.Persisting? && mem.upload.result.commandId == id &&
              SameOutcome(w.disk.app.results[id].result, mem.upload.result)
  {
    hide HandleCommand, Judge, PersistAll, MarkAll, CommandDigest, SameOutcome, CountFailure;
    match (step, mem.upload) {
      case (Reply(_), Waiting(command, session)) => CountedUpload(w.disk, mem, command, session);
      case (LoseReply, Waiting(command, session)) => CountedUpload(w.disk, mem, command, session);
      case (Persist, Persisting(result)) =>
        PersistedResult(w.disk.app, result);
        hide PersistOne;
        if result.commandId == id && !SameOutcome(w.disk.app.results[id].result, result) {
          RefusedOutcome(w.disk.app, result);
        }
      case _ =>
    }
  }

  lemma CountedUpload(disk: Disk, mem: Memory, command: Command, session: Session)
    ensures !CountFailure(disk, mem, command, session).1.upload.Completing?
  {
    hide CommandDigest;
  }

  lemma RefusedOutcome(app: App, result: TerminalResult)
    requires result.commandId in app.results && !SameOutcome(app.results[result.commandId].result, result)
    ensures PersistOne(app, result).Err?
  {
    hide SameOutcome, ResultBytes, CapacityUsage;
  }
}
