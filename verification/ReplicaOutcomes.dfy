/** What becomes of outcomes: a stored result stays until it is acknowledged, and it agrees with the
    receipt the server committed. */
module ReplicaOutcomes {
  import opened Basics
  import opened CommandProtocol
  import opened Reservations
  import opened ServerState
  import opened ServerRuns
  import opened ApplicationState
  import opened QuarantineStore
  import opened ReplicaClient
  import opened ReplicaSafety

  // ---- capacity, in the client's own terms ---

  lemma {:induction false} DistinctCount(queue: seq<Command>, ids: set<string>)
    requires forall i :: 0 <= i < |queue| ==> queue[i].commandId in ids
    requires forall i, j :: 0 <= i < j < |queue| ==> queue[i].commandId != queue[j].commandId
    ensures |queue| <= |ids|
  {
    if queue != [] {
      var last := queue[|queue| - 1].commandId;
      DistinctCount(queue[..|queue| - 1], ids - {last});
      assert ids == (ids - {last}) + {last};
    }
  }

  /** While the client is open, the usage it reports is within both limits, and one SDK batch of 1,000
      entries always holds the whole queue. */
  lemma CapacityNeverExceeded(worlds: seq<World>, steps: seq<Step>, collation: string -> real, n: nat)
    requires IsExecution(worlds, steps, collation) && Fresh(worlds[0]) && n < |worlds|
    ensures worlds[n].process.Up? ==> WithinCapacity(worlds[n].disk.app, worlds[n].process.mem.finalized)
    ensures WithinCapacity(worlds[n].disk.app, []) && Disjoint(worlds[n].disk.app)
    ensures |worlds[n].disk.queue| <= MAX_OUTSTANDING < 1_000
  {
    ExecutionSound(worlds, steps, collation, n);
    var disk := worlds[n].disk;
    hide IsExecution, Fresh, Held, Total, FinalizedTotal, CapacityUsage, Fits, PcSound, UploadSound, ResetSound;
    CapacityIsHeld(disk.app, []);
    if worlds[n].process.Up? {
      CapacityIsHeld(disk.app, worlds[n].process.mem.finalized);
    }
    DistinctCount(disk.queue, Active(disk.app));
    HeldKeys(disk.app);
  }

  lemma HeldKeys(app: App)
    ensures |Held(app)| == |Active(app)|
  {
    assert Held(app).Keys == Active(app);
  }

  // ---- a stored outcome stays ---

  /** The outcome of `id` is still the one stored before; a completion mark is never taken back. */
  ghost predicate KeepsOutcome(app: App, t: App, id: string) {
    id in app.results ==>
      && id in t.results
      && t.results[id].result == app.results[id].result
      && t.results[id].reserved == app.results[id].reserved
      && (app.results[id].completed ==> t.results[id].completed)
  }

  lemma AdvanceResults(w: World, mem: Memory, token: string, collation: string -> real)
    ensures Advance(w, mem, token, collation).disk.app.results == w.disk.app.results
    ensures Advance(w, mem, token, collation).user == w.user
  {
    hide ResetReplica, AcknowledgeReset, IssueChallenge, AcknowledgeChallenge, Classify, ReadBack, ResetCapacity,
        CheckedStore,
      SortById, UniqueIds, FinalizedBytes, Finalize, IntentFor, FinalizedIds;
  }

  lemma UploadKeeps(w: World, mem: Memory, step: Step, id: string)
    ensures KeepsOutcome(w.disk.app, UploadStep(w, mem, step).disk.app, id)
  {
    hide HandleCommand, Judge, PersistAll, MarkAll, CommandDigest;
    match (step, mem.upload) {
      case (Persist, Persisting(result)) =>
        if PersistAll(w.disk.app, [result]).Ok? {
          PersistedResult(w.disk.app, result);
          hide PersistOne;
          PersistedRow(w.disk.app, result, PersistAll(w.disk.app, [result]).value);
        }
      case (Mark, Marking(other)) =>
        if other in w.disk.app.results {
          MarkedResult(w.disk.app, other);
        } else {
          MissingResultFails(w.disk.app, other);
        }
      case _ =>
    }
  }

  lemma MissingResultFails(app: App, id: string)
    requires id !in app.results
    ensures MarkAll(app, [id]).Err?
  {
    assert [id][..0] == [];
    assert MarkAll(app, []) == Ok(app);
  }

  lemma StepKeeps(w: World, step: Step, collation: string -> real, id: string)
    requires step == AcknowledgeResult(id) && id in w.disk.app.results ==> !w.disk.app.results[id].completed
    ensures KeepsOutcome(w.disk.app, Next(w, step, collation).disk.app, id)
  {
    hide Advance, UploadStep, ServerRuns.Step, Enabled, Handle, OpenProcess, BeginSnapshot, Admits, OverlayFor,
        Acknowledge;
    if w.process.Up? {
      var mem := w.process.mem;
      match step {
        case Program(token) => AdvanceResults(w, mem, token, collation);
        case Queue(command) => QueueResults(w.disk, mem, command);
        case InsertFails => if mem.pc.Inserting? { RemovedOverlay(w.disk.app, mem.pc.command.commandId); }
        case _ => UploadKeeps(w, mem, step, id);
      }
    }
  }

  lemma QueueResults(disk: Disk, mem: Memory, command: Command)
    ensures QueueOverlay(disk, mem, command).0.app.results == disk.app.results
  {
    hide Admits, OverlayFor, AddAll;
    var added := AddAll(disk.app, [OverlayFor(command)]);
    if added.Ok? {
      AddedResults(disk.app, OverlayFor(command));
    }
  }

  lemma AddedResults(app: App, overlay: Overlay)
    ensures AddAll(app, [overlay]).Ok? ==> AddAll(app, [overlay]).value.results == app.results
  {
    assert [overlay][..0] == [];
    assert AddAll(app, [overlay]) == AddOne(app, BatchIds([]), overlay);
  }

  /** In any execution a stored outcome is final: until somebody acknowledges it, no upload, replay, crash
      or reset replaces it. */
  lemma {:induction false} OutcomeStays(worlds: seq<World>, steps: seq<Step>, collation: string -> real, id: string,
      i: nat, j: nat)
    requires IsExecution(worlds, steps, collation) && i <= j < |worlds|
    requires forall k :: i <= k < j ==> steps[k] != AcknowledgeResult(id)
    ensures KeepsOutcome(worlds[i].disk.app, worlds[j].disk.app, id)
  {
    hide Next;
    if i < j {
      OutcomeStays(worlds, steps, collation, id, i, j - 1);
      assert steps[j - 1] != AcknowledgeResult(id);
      StepKeeps(worlds[j - 1], steps[j - 1], collation, id);
    }
  }

  // ---- a crash after complete() strands the result ---

  /** The queue entry is gone, the completion mark is missing, and nobody is about to set it. */
  ghost predicate Stranded(w: World, id: string) {
    && Unfinished(w.disk.app, id) && Absent(w.disk.queue, id)
    && (w.process.Up? ==> w.process.mem.upload != Marking(id))
  }

  /** Such a result is never marked and never removed: acknowledging it is refused for good. */
  lemma StrandedStep(w: World, step: Step, collation: string -> real, id: string)
    requires Sound(w.disk, w.process) && Stranded(w, id)
    ensures Stranded(Next(w, step, collation), id)
  {
    hide Next, Sound, KeepsOutcome, Absent;
    StepKeeps(w, step, collation, id);
    StrandedQueue(w, step, collation, id);
    StrandedMark(w, step, collation, id);
  }

  lemma StrandedQueue(w: World, step: Step, collation: string -> real, id: string)
    requires Sound(w.disk, w.process) && Stranded(w, id)
    ensures var next := Next(w, step, collation);
            Absent(next.disk.queue, id) && (next.process.Up? ==> next.process.mem.upload != Marking(id))
  {
    hide Advance, UploadStep, ServerRuns.Step, Enabled, Handle, OpenProcess, BeginSnapshot, QueueOverlay, Acknowledge,
        HeldWithin, Fits, QueueCovered;
    if w.process.Up? && step.Program? {
      AdvanceQueue(w, w.process.mem, step.token, collation);
    } else if w.process.Up? && step.BeginReset? {
      SnapshotUpload(w.disk, w.process.mem, step.orphans);
    } else if w.process.Up? && step.Queue? {
      QueueUpload(w.disk, w.process.mem, step.command);
    } else if step.Open? {
      OpenUpload(w.disk);
    } else if w.process.Up? && Connected(w.process.mem.pc) {
      UploadQueue(w, w.process.mem, step, id);
    }
  }

  lemma StrandedMark(w: World, step: Step, collation: string -> real, id: string)
    requires Sound(w.disk, w.process) && Stranded(w, id)
    requires KeepsOutcome(w.disk.app, Next(w, step, collation).disk.app, id)
    ensures Unfinished(Next(w, step, collation).disk.app, id)
  {
    hide Advance, UploadStep, ServerRuns.Step, Enabled, Handle, OpenProcess, BeginSnapshot, QueueOverlay, Acknowledge,
        HeldWithin, Fits, QueueCovered;
    if w.process.Up? {
      var mem := w.process.mem;
      match step {
        case Program(token) => AdvanceResults(w, mem, token, collation);
        case Queue(command) => QueueResults(w.disk, mem, command);
        case InsertFails => if mem.pc.Inserting? { RemovedOverlay(w.disk.app, mem.pc.command.commandId); }
        case _ => UploadMark(w, mem, step, id);
      }
    }
  }

  lemma AdvanceQueue(w: World, mem: Memory, token: string, collation: string -> real)
    ensures var next := Advance(w, mem, token, collation);
            && (next.disk.queue == w.disk.queue || next.disk.queue == [])
            && (next.process == w.process || next.process.Down? || next.process.mem.upload == mem.upload)
  {
    hide ResetReplica, AcknowledgeReset, IssueChallenge, AcknowledgeChallenge, Classify, ReadBack, ResetCapacity,
        CheckedStore,
      SortById, UniqueIds, FinalizedBytes, Finalize, IntentFor, FinalizedIds;
  }

  lemma SnapshotUpload(disk: Disk, mem: Memory, orphans: seq<Command>)
    ensures BeginSnapshot(disk, mem, orphans).upload in {mem.upload, Resting}
  {
    hide ListsOrphans, Snapshotable, ReadBack;
  }

  lemma QueueUpload(disk: Disk, mem: Memory, command: Command)
    ensures QueueOverlay(disk, mem, command).0.queue == disk.queue &&
        QueueOverlay(disk, mem, command).1.upload == mem.upload
  {
    hide Admits, OverlayFor, AddAll;
  }

  lemma OpenUpload(disk: Disk)
    ensures OpenProcess(disk).Up? ==> OpenProcess(disk).mem.upload == Resting
  {
    hide OpenChecks, ReadBack;
  }

  lemma UploadQueue(w: World, mem: Memory, step: Step, id: string)
    requires w.process == Up(mem) && UploadSound(mem.upload, w.disk.queue, w.disk.app) && Absent(w.disk.queue, id) &&
        mem.upload != Marking(id)
    ensures var next := UploadStep(w, mem, step);
            Absent(next.disk.queue, id) && (next.process.Up? ==> next.process.mem.upload != Marking(id))
  {
    hide HandleCommand, Judge, PersistAll, MarkAll, CommandDigest, Unfinished;
  }

  lemma UploadMark(w: World, mem: Memory, step: Step, id: string)
    requires Unfinished(w.disk.app, id) && mem.upload != Marking(id)
    ensures Unfinished(UploadStep(w, mem, step).disk.app, id)
  {
    hide HandleCommand, Judge, PersistAll, MarkAll, CommandDigest;
    match (step, mem.upload) {
      case (Persist, Persisting(result)) =>
        if PersistAll(w.disk.app, [result]).Ok? {
          PersistedResult(w.disk.app, result);
          hide PersistOne;
          PersistedRow(w.disk.app, result, PersistAll(w.disk.app, [result]).value);
        }
      case (Mark, Marking(other)) =>
        if other in w.disk.app.results {
          MarkedResult(w.disk.app, other);
        } else {
          MissingResultFails(w.disk.app, other);
        }
      case _ =>
    }
  }

  /** A process that stops between complete() and the completion mark leaves a result that can never be
      acknowledged, whatever happens afterwards. */
  lemma {:induction false} NeverAcknowledged(worlds: seq<World>, steps: seq<Step>, collation: string -> real,
      id: string, i: nat, j: nat)
    requires IsExecution(worlds, steps, collation) && Fresh(worlds[0]) && i <= j < |worlds|
    requires i > 0 && steps[i - 1] == Crash && worlds[i - 1].process.Up? &&
        worlds[i - 1].process.mem.upload == Marking(id)
    ensures Unfinished(worlds[j].disk.app, id) && !AcknowledgeOne(worlds[j].disk.app, id).1
    ensures Stranded(worlds[j], id)
  {
    hide Sound, Fresh;
    if i == j {
      ExecutionSound(worlds, steps, collation, i - 1);
      CrashStrands(worlds[i - 1], id, collation);
    } else {
      NeverAcknowledged(worlds, steps, collation, id, i, j - 1);
      ExecutionSound(worlds, steps, collation, j - 1);
      hide Next;
      StrandedStep(worlds[j - 1], steps[j - 1], collation, id);
    }
  }

  lemma CrashStrands(w: World, id: string, collation: string -> real)
    requires Sound(w.disk, w.process) && w.process.Up? && w.process.mem.upload == Marking(id)
    ensures Stranded(Next(w, Crash, collation), id)
  {
    hide HeldWithin, QueueCovered, AppSound;
  }
}
