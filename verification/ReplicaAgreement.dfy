/** The client and the server tell the same story: every outcome the client stores agrees with the receipt
    the server committed, and the server only ever moves by its own transactions. */
module ReplicaAgreement {
  import opened Basics
  import opened CommandProtocol
  import opened Reservations
  import opened ServerState
  import opened ServerRuns
  import opened ApplicationState
  import opened QuarantineStore
  import opened ReplicaClient
  import opened ReplicaSafety
  import opened ReplicaOutcomes

  // ---- the server moves by its own transactions ---

  /** From s to t in at most two server transactions: the rate window and the request itself. */
  ghost predicate Moves(s: Server, t: Server) {
    || t == s
    || (exists a :: Enabled(s, a) && t == ServerRuns.Step(s, a))
    || (exists a, b :: Enabled(s, a) && Enabled(ServerRuns.Step(s, a), b) && t == ServerRuns.Step(ServerRuns.Step(s, a), b))
  }

  lemma MovesOnce(s: Server, a: Action)
    requires Enabled(s, a)
    ensures Moves(s, ServerRuns.Step(s, a))
  {
  }

  lemma ParsedMoves(s: Server, user: string, binding: Binding, credential: Credential, command: Command, attempt: int)
    ensures Moves(s, HandleParsed(s, user, binding, credential, command, attempt).0)
  {
    OneIsABatch(command);
    var a := ConsumeWindow(user, binding, credential);
    var b := ExecuteCommands(user, binding, credential, [command], attempt);
    hide Execute, ConsumeRate, WellFormedBatch;
    assert Enabled(s, a) && Enabled(ServerRuns.Step(s, a), b);
    if ConsumeRate(s, user, binding, credential).1.RateAccepted? {
      assert HandleParsed(s, user, binding, credential, command, attempt).0 == ServerRuns.Step(ServerRuns.Step(s, a),
          b);
    }
  }

  lemma CommandMoves(s: Server, user: string, session: Session, command: Command, attempt: int)
    ensures Moves(s, HandleCommand(s, user, session, command, attempt).0)
  {
    hide Moves, HandleParsed, ParseCommandEnvelope, CanonicalCommand, IsUuid;
    var parsed := ParseCommandEnvelope(UploadBody(session, command));
    if parsed.Ok? {
      ParsedEnvelopeIsCanonical(UploadBody(session, command));
      ParsedMoves(s, user, parsed.value.binding, session.credential, parsed.value.commands[0], attempt);
    } else {
      assert Moves(s, s) by { NoMove(s); }
    }
  }

  lemma NoMove(s: Server)
    ensures Moves(s, s)
  {
  }

  lemma HandleMoves(s: Server, user: string, request: Request)
    ensures Moves(s, Handle(s, user, request))
  {
    hide Moves, Execute, HandleCommand, ResetReplica, AcknowledgeReset;
    match request {
      case CommandRequest(session, command, attempt) => CommandMoves(s, user, session, command, attempt);
      case ResetRequest(session, requestId) => MovesOnce(s, Reset(user, BindingOf(session), session.credential,
          requestId));
      case ResetAckRequest(session, requestId) =>
        MovesOnce(s, ResetAcknowledged(user, BindingOf(session), session.credential, requestId));
    }
  }

  lemma AdvanceMoves(w: World, mem: Memory, token: string, collation: string -> real)
    ensures Moves(w.server, Advance(w, mem, token, collation).server)
  {
    hide Moves, ResetReplica, AcknowledgeReset, IssueChallenge, AcknowledgeChallenge, Classify, ReadBack, ResetCapacity,
        CheckedStore,
      SortById, UniqueIds, FinalizedBytes, Finalize, IntentFor, FinalizedIds;
    SameMoves(w.server);
    if mem.pc.Resetting? && w.disk.reset.Some? {
      var file := w.disk.reset.value;
      MovesOnce(w.server, Reset(w.user, BindingOf(file.previous), file.previous.credential, file.requestId));
    } else if mem.pc.Acknowledging? && w.disk.reset.Some? && w.disk.reset.value.SessionStaged? {
      var file := w.disk.reset.value;
      MovesOnce(w.server, ResetAcknowledged(w.user, BindingOf(file.next), file.next.credential, file.requestId));
    } else if mem.pc.Challenging? {
      MovesOnce(w.server, Challenged(w.user, BindingOf(mem.session), mem.session.credential, token));
    } else if mem.pc.Observing? {
      MovesOnce(w.server, Observed(w.user, BindingOf(mem.session), mem.session.credential, mem.pc.challengeId));
    }
  }

  lemma SameMoves(s: Server)
    ensures Moves(s, s)
  {
  }

  /** Every step of an execution moves the server by its own transactions only, so everything proved about
      runs of the server holds along every execution of the client. */
  lemma StepMoves(w: World, step: Step, collation: string -> real)
    ensures Moves(w.server, Next(w, step, collation).server)
  {
    hide Moves, Advance, Handle, OpenProcess, BeginSnapshot, QueueOverlay, Acknowledge, ServerRuns.Step, Enabled,
        HandleCommand, Judge,
      PersistAll, MarkAll, CountFailure;
    SameMoves(w.server);
    if step.Environment? {
      EnvironmentMoves(w, step.action);
    } else if step.Deliver? {
      HandleMoves(w.server, w.user, step.request);
    } else if w.process.Up? {
      var mem := w.process.mem;
      if step.Program? {
        AdvanceMoves(w, mem, step.token, collation);
      } else if step.Reply? && mem.upload.Waiting? {
        CommandMoves(w.server, w.user, mem.upload.session, mem.upload.command, step.attempt);
      }
    }
  }

  lemma EnvironmentMoves(w: World, a: Action)
    ensures Moves(w.server, Surroundings(w, Environment(a)).server)
  {
    hide ServerRuns.Step, Moves, Enabled;
    SameMoves(w.server);
    if Enabled(w.server, a) {
      MovesOnce(w.server, a);
    }
  }

  lemma MovesExtend(s: Server, t: Server)
    requires Moves(s, t)
    ensures Extends(s.receipts, t.receipts)
  {
    hide ServerRuns.Step, Enabled;
    if t != s {
      if a :| Enabled(s, a) && t == ServerRuns.Step(s, a) {
        StepExtends(s, a);
      } else {
        var a, b :| Enabled(s, a) && Enabled(ServerRuns.Step(s, a), b) &&
            t == ServerRuns.Step(ServerRuns.Step(s, a), b);
        StepExtends(s, a);
        StepExtends(ServerRuns.Step(s, a), b);
      }
    }
  }

  lemma MovesKeepInv(s: Server, t: Server)
    requires Moves(s, t) && Inv(s)
    ensures Inv(t)
  {
    hide ServerRuns.Step, Enabled, Inv;
    if t != s {
      if a :| Enabled(s, a) && t == ServerRuns.Step(s, a) {
        StepInv(s, a);
      } else {
        var a, b :| Enabled(s, a) && Enabled(ServerRuns.Step(s, a), b) &&
            t == ServerRuns.Step(ServerRuns.Step(s, a), b);
        StepInv(s, a);
        StepInv(ServerRuns.Step(s, a), b);
      }
    }
  }

  /** Receipts are final along every execution of the client, its retries, resets and late messages included. */
  lemma {:induction false} ExecutionReceiptsFinal(worlds: seq<World>, steps: seq<Step>, collation: string -> real,
      i: nat,
      j: nat)
    requires IsExecution(worlds, steps, collation) && i <= j < |worlds|
    ensures Extends(worlds[i].server.receipts, worlds[j].server.receipts)
  {
    hide Next, Moves;
    if i < j {
      ExecutionReceiptsFinal(worlds, steps, collation, i, j - 1);
      StepMoves(worlds[j - 1], steps[j - 1], collation);
      MovesExtend(worlds[j - 1].server, worlds[j].server);
    }
  }

  /** In every execution a (user, command id) pair is newly applied in at most one step, whoever sent it and however
      often it arrived. */
  lemma ExecutionAppliesOnce(worlds: seq<World>, steps: seq<Step>, collation: string -> real, key: Key, i: nat, j: nat)
    requires IsExecution(worlds, steps, collation) && i < |steps| && j < |steps|
    requires NewlyApplied(worlds[i].server, worlds[i + 1].server, key)
    requires NewlyApplied(worlds[j].server, worlds[j + 1].server, key)
    ensures i == j
  {
    hide IsExecution;
    ExecutionLength(worlds, steps, collation);
    if i < j {
      ExecutionReceiptsFinal(worlds, steps, collation, i + 1, j);
    } else if j < i {
      ExecutionReceiptsFinal(worlds, steps, collation, j + 1, i);
    }
  }

  lemma ExecutionLength(worlds: seq<World>, steps: seq<Step>, collation: string -> real)
    requires IsExecution(worlds, steps, collation)
    ensures |worlds| == |steps| + 1
  {
    hide Next;
  }

  // ---- replies agree with receipts ---

  /** A served outcome carries the digest and both versions of a committed receipt. Only a denial may hide
      an outcome, when authority was withdrawn after the command had been decided. */
  ghost predicate Agrees(result: TerminalResult, receipts: map<Key, Receipt>, user: string) {
    result.state.Served? ==>
      && Key(user, result.commandId) in receipts
      && var receipt := receipts[Key(user, result.commandId)];
         && receipt.digest == result.digest && receipt.resourceId == result.resourceId
         && receipt.previousVersion == result.previousVersion && receipt.currentVersion == result.currentVersion
         && (result.state.state != Denied ==> receipt.state == result.state.state)
  }

  lemma AgreesExtend(result: TerminalResult, before: map<Key, Receipt>, after: map<Key, Receipt>, user: string)
    requires Agrees(result, before, user) && Extends(before, after)
    ensures Agrees(result, after, user)
  {
  }

  /** The one result of a one-command reply reports the receipt that is committed with it. */
  lemma ExecuteAgrees(s: Server, user: string, binding: Binding, credential: Credential, command: Command, attempt: int)
    requires WellFormedBatch([command])
    ensures var (t, reply) := Execute(s, user, binding, credential, [command], attempt);
            reply.Answered? && |reply.results| == 1 ==>
              Agrees(FromServer(reply.results[0]), t.receipts, user)
  {
    hide AllGranted, AnyStaleIncarnation, AnyConflict, Stale, LockReplica, RefuseFirst, ApplyFirst, AllPresent,
        AllMatch, Results,
      Agrees, AllReceipts, AnyReceipt, ExecuteDenied;
    var (t, reply) := Execute(s, user, binding, credential, [command], attempt);
    DeniedAgrees(s, user, binding, command, attempt);
    if AllPresent(s, [command]) {
      AllRefused(s, user, binding, [command], StaleIncarnation);
      AllRefused(s, user, binding, [command], OptimisticConflict);
      AllApplied(s, user, binding, [command]);
    }
    if AllReceipts(t, user, [command]) {
      ResultsAgree(t, user, command, attempt, true);
      ResultsAgree(t, user, command, attempt, false);
    }
  }

  lemma ResultsAgree(t: Server, user: string, command: Command, attempt: int, replay: bool)
    requires AllReceipts(t, user, [command])
    ensures var results := Results(t, user, [command], attempt, replay);
            |results| == 1 && Agrees(FromServer(results[0]), t.receipts, user)
  {
    assert [command][0] == command;
    assert Key(user, [command][0].commandId) in t.receipts;
  }

  lemma DeniedAgrees(s: Server, user: string, binding: Binding, command: Command, attempt: int)
    ensures var (t, reply) := ExecuteDenied(s, user, binding, command, attempt);
            reply.Answered? ==> |reply.results| == 1 && Agrees(FromServer(reply.results[0]), t.receipts, user)
  {
  }

  lemma JudgedAgrees(s: Server, user: string, session: Session, command: Command, attempt: int)
    ensures var (t, answer) := HandleCommand(s, user, session, command, attempt);
            var verdict := Judge(command, BindingOf(session), answer);
            verdict.Terminal? ==> Agrees(verdict.result, t.receipts, user) && verdict.result.digest == CommandDigest(command, BindingOf(session))
  {
    hide HandleParsed, Judge, ParseCommandEnvelope, CanonicalCommand, IsUuid, Agrees;
    var parsed := ParseCommandEnvelope(UploadBody(session, command));
    if parsed.Ok? {
      ParsedEnvelopeIsCanonical(UploadBody(session, command));
      ParsedAgrees(s, user, parsed.value.binding, session.credential, parsed.value.commands[0], command,
          BindingOf(session), attempt);
    } else {
      RefusedThrows(command, BindingOf(session));
    }
  }

  lemma RefusedThrows(command: Command, binding: Binding)
    ensures Judge(command, binding, Refused) == Throws
  {
  }

  /** The client judges the answer by the command it sent; the server answers the command it parsed. */
  lemma ParsedAgrees(s: Server, user: string, binding: Binding, credential: Credential, parsed: Command,
      command: Command, sent: Binding, attempt: int)
    ensures var (t, answer) := HandleParsed(s, user, binding, credential, parsed, attempt);
            var verdict := Judge(command, sent, answer);
            verdict.Terminal? ==> Agrees(verdict.result, t.receipts, user) && verdict.result.digest == CommandDigest(command, sent)
  {
    var rate := ConsumeRate(s, user, binding, credential);
    OneIsABatch(parsed);
    hide Execute, ConsumeRate, WellFormedBatch, Agrees;
    if rate.1.RateAccepted? {
      ExecuteAgrees(rate.0, user, binding, credential, parsed, attempt);
    }
    LocalAgrees(command, sent, IdempotencyMismatch, 1, HandleParsed(s, user, binding, credential, parsed,
        attempt).0.receipts, user);
  }

  lemma LocalAgrees(command: Command, binding: Binding, code: TerminalCode, attempt: int, receipts: map<Key, Receipt>,
      user: string)
    ensures Agrees(LocalFailure(command, binding, code, attempt), receipts, user)
  {
  }

  // ---- every execution ---

  ghost predicate AppAgrees(app: App, receipts: map<Key, Receipt>, user: string) {
    forall id :: id in app.results ==> Agrees(app.results[id].result, receipts, user)
  }

  ghost predicate ProcessAgrees(process: Process, receipts: map<Key, Receipt>, user: string) {
    process.Up? && process.mem.upload.Persisting? ==> Agrees(process.mem.upload.result, receipts, user)
  }

  ghost predicate Consonant(w: World) {
    AppAgrees(w.disk.app, w.server.receipts, w.user) && ProcessAgrees(w.process, w.server.receipts, w.user)
  }

  lemma KeptAgrees(app: App, t: App, before: map<Key, Receipt>, after: map<Key, Receipt>, user: string)
    requires AppAgrees(app, before, user) && Extends(before, after)
    requires forall id :: id in t.results ==> id in app.results && t.results[id].result == app.results[id].result
    ensures AppAgrees(t, after, user)
  {
    hide Agrees, Extends;
    forall id | id in t.results ensures Agrees(t.results[id].result, after, user) {
      AgreesExtend(app.results[id].result, before, after, user);
    }
  }

  lemma PersistAgrees(app: App, result: TerminalResult, t: App, receipts: map<Key, Receipt>, user: string)
    requires AppAgrees(app, receipts, user) && Agrees(result, receipts, user) && PersistAll(app, [result]) == Ok(t)
    ensures AppAgrees(t, receipts, user)
  {
    PersistedResult(app, result);
    hide PersistOne, Agrees;
    PersistedRow(app, result, t);
  }

  /** Rows only stay or go, and the upload in progress is the same or none. */
  ghost predicate NothingNew(w: World, t: World) {
    && t.user == w.user
    && (forall id :: id in t.disk.app.results ==>
          id in w.disk.app.results && t.disk.app.results[id].result == w.disk.app.results[id].result)
    && (t.process.Up? && t.process.mem.upload.Persisting? ==> w.process.Up? && w.process.mem.upload == t.process.mem.upload)
  }

  lemma KeptConsonant(w: World, t: World)
    requires Consonant(w) && NothingNew(w, t) && Extends(w.server.receipts, t.server.receipts)
    ensures Consonant(t)
  {
    hide Agrees, Extends;
    KeptAgrees(w.disk.app, t.disk.app, w.server.receipts, t.server.receipts, w.user);
    if t.process.Up? && t.process.mem.upload.Persisting? {
      AgreesExtend(t.process.mem.upload.result, w.server.receipts, t.server.receipts, w.user);
    }
  }

  lemma UploadAgrees(w: World, mem: Memory, step: Step)
    requires w.process == Up(mem) && Consonant(w)
    requires Extends(w.server.receipts, UploadStep(w, mem, step).server.receipts)
    ensures Consonant(UploadStep(w, mem, step))
  {
    hide HandleCommand, Judge, PersistAll, MarkAll, CommandDigest, Agrees, AppAgrees, Extends;
    var receipts := w.server.receipts;
    match (step, mem.upload) {
      case (Reply(attempt), Waiting(command, session)) =>
        JudgedAgrees(w.server, w.user, session, command, attempt);
        KeptAgrees(w.disk.app, w.disk.app, receipts, UploadStep(w, mem, step).server.receipts, w.user);
        FailureAgrees(w.disk, mem, command, session, UploadStep(w, mem, step).server.receipts, w.user);
      case (LoseReply, Waiting(command, session)) => FailureAgrees(w.disk, mem, command, session, receipts, w.user);
      case (Persist, Persisting(result)) =>
        if PersistAll(w.disk.app, [result]).Ok? {
          PersistAgrees(w.disk.app, result, PersistAll(w.disk.app, [result]).value, receipts, w.user);
        }
      case (Mark, Marking(id)) => MarkAgrees(w.disk.app, id, receipts, w.user);
      case _ =>
    }
  }

  lemma MarkAgrees(app: App, id: string, receipts: map<Key, Receipt>, user: string)
    requires AppAgrees(app, receipts, user)
    ensures MarkAll(app, [id]).Ok? ==> AppAgrees(MarkAll(app, [id]).value, receipts, user)
  {
    hide Agrees;
    if id in app.results {
      MarkedResult(app, id);
    } else {
      MissingResultFails(app, id);
    }
  }

  lemma FailureAgrees(disk: Disk, mem: Memory, command: Command, session: Session, receipts: map<Key, Receipt>,
      user: string)
    requires AppAgrees(disk.app, receipts, user) && mem.upload.Waiting?
    ensures var next := CountFailure(disk, mem, command, session);
            AppAgrees(next.0.app, receipts, user) && ProcessAgrees(Up(next.1), receipts, user)
  {
    hide Agrees, CommandDigest;
    var recorded := RecordFailure(disk.app, command.commandId);
    if recorded.Ok? {
      assert recorded.value.0.results == disk.app.results;
      LocalAgrees(command, BindingOf(session), RetryExhausted, recorded.value.1, receipts, user);
    }
  }

  predicate Uploads(step: Step) {
    step.Send? || step.Reply? || step.LoseReply? || step.Persist? || step.Complete? || step.Mark?
  }

  lemma OtherSteps(w: World, step: Step, collation: string -> real)
    requires !Uploads(step)
    ensures NothingNew(w, Next(w, step, collation))
  {
    hide Advance, ServerRuns.Step, Enabled, Handle, OpenProcess, BeginSnapshot, QueueOverlay, Acknowledge;
    if step.Open? {
      OpenUpload(w.disk);
    } else if w.process.Up? {
      var mem := w.process.mem;
      match step {
        case Program(token) =>
          AdvanceResults(w, mem, token, collation);
          AdvanceQueue(w, mem, token, collation);
        case Queue(command) =>
          QueueResults(w.disk, mem, command);
          QueueUpload(w.disk, mem, command);
        case InsertFails =>
          if mem.pc.Inserting? {
            RemovedOverlay(w.disk.app, mem.pc.command.commandId);
          }
        case BeginReset(orphans) => SnapshotUpload(w.disk, mem, orphans);
        case _ =>
      }
    }
  }

  lemma StepAgrees(w: World, step: Step, collation: string -> real)
    requires Consonant(w)
    ensures Consonant(Next(w, step, collation))
  {
    hide Consonant, NothingNew, Extends, Moves, UploadStep, Advance, OpenProcess, QueueOverlay, BeginSnapshot,
        Acknowledge, Handle,
      Enabled, ServerRuns.Step;
    var next := Next(w, step, collation);
    StepMoves(w, step, collation);
    MovesExtend(w.server, next.server);
    if !Uploads(step) {
      OtherSteps(w, step, collation);
      KeptConsonant(w, next);
    } else if w.process.Up? && Connected(w.process.mem.pc) {
      UploadAgrees(w, w.process.mem, step);
    }
  }

  /** In every execution, each applied or conflict outcome the client holds is the server's own receipt for
      that command: same digest, same versions, same state. */
  lemma {:induction false} StoredOutcomesAgree(worlds: seq<World>, steps: seq<Step>, collation: string -> real, n: nat,
      id: string)
    requires IsExecution(worlds, steps, collation) && Fresh(worlds[0]) && n < |worlds|
    ensures Consonant(worlds[n])
    ensures id in worlds[n].disk.app.results ==>
              Agrees(worlds[n].disk.app.results[id].result, worlds[n].server.receipts, worlds[n].user)
  {
    hide Next, Agrees;
    if n > 0 {
      StoredOutcomesAgree(worlds, steps, collation, n - 1, id);
      StepAgrees(worlds[n - 1], steps[n - 1], collation);
    }
  }
}
