/** Credential rotation across the server row, the reset file, the stored session and the running process:
    however often reset requests are repeated, delayed or interrupted, the four never disagree for good. */
module ReplicaRotation {
  import opened Basics
  import opened CommandProtocol
  import opened ServerState
  import opened ServerRuns
  import opened ServerCheckpoints
  import opened Reservations
  import opened ApplicationState
  import opened QuarantineStore
  import opened ReplicaClient
  import opened ReplicaSafety
  import opened ReplicaOutcomes

  function NextSession(previous: Session, requestId: string): Session {
    RotatedSession(BindingOf(previous), requestId)
  }

  function Digest(session: Session): CredentialDigest {
    CredentialDigest(session.credential)
  }

  // ---- what the server row says ---

  ghost predicate RowAt(rows: map<string, Replica>, user: string, s: Session) {
    && s.replicaId in rows
    && rows[s.replicaId].userId == user && rows[s.replicaId].epoch == s.epoch && rows[s.replicaId].digest == Digest(s)
  }

  /** The reset has committed on the server and waits for its acknowledgement. */
  ghost predicate RowStaged(rows: map<string, Replica>, user: string, previous: Session, requestId: string) {
    && RowAt(rows, user, NextSession(previous, requestId))
    && rows[previous.replicaId].stagedReset == Some(requestId)
    && rows[previous.replicaId].previousDigest == Some(Digest(previous))
  }

  ghost predicate RowAcknowledged(rows: map<string, Replica>, user: string, previous: Session, requestId: string) {
    && RowAt(rows, user, NextSession(previous, requestId))
    && rows[previous.replicaId].previousDigest.None?
    && rows[previous.replicaId].acknowledgedReset == Some(requestId)
  }

  ghost predicate SameRow(a: Replica, b: Replica) {
    b == a.(disabled := b.disabled, observedAt := b.observedAt, acknowledgedSequence := b.acknowledgedSequence)
  }

  /** The row keeps everything rotation depends on. */
  ghost predicate RowKept(before: map<string, Replica>, after: map<string, Replica>, id: string) {
    id in before && id in after && SameRow(before[id], after[id])
  }

  lemma ForeignKeepsRow(s: Server, a: Action, id: string)
    requires Enabled(s, a) && Foreign(a, id) && id in s.replicas
    ensures RowKept(s.replicas, ServerRuns.Step(s, a).replicas, id)
  {
    hide Stale, WellFormedBatch;
    if a.ExecuteCommands? {
      ExecuteKeepsReplicas(s, a.userId, a.binding, a.credential, a.commands, a.attempt);
    }
  }

  lemma ParsedKeepsReplicas(s: Server, user: string, binding: Binding, credential: Credential, command: Command,
      attempt: int)
    ensures HandleParsed(s, user, binding, credential, command, attempt).0.replicas == s.replicas
  {
    OneIsABatch(command);
    hide Execute, Stale, LockReplica, WellFormedBatch;
    var rate := ConsumeRate(s, user, binding, credential);
    ExecuteKeepsReplicas(rate.0, user, binding, credential, [command], attempt);
  }

  lemma CommandKeepsReplicas(s: Server, user: string, session: Session, command: Command, attempt: int)
    ensures HandleCommand(s, user, session, command, attempt).0.replicas == s.replicas
  {
    hide HandleParsed, ParseCommandEnvelope, CanonicalCommand, IsUuid;
    var parsed := ParseCommandEnvelope(UploadBody(session, command));
    if parsed.Ok? {
      ParsedEnvelopeIsCanonical(UploadBody(session, command));
      ParsedKeepsReplicas(s, user, parsed.value.binding, session.credential, parsed.value.commands[0], attempt);
    }
  }

  // ---- the invariant ---

  function Current(disk: Disk): Session
    requires disk.app.session.Some?
  {
    disk.app.session.value.session
  }

  /** How the reset file, the stored session and the server row fit together. */
  ghost predicate FileLinked(rows: map<string, Replica>, user: string, current: Session, reset: Option<ResetFile>) {
    match reset
    case None => RowAt(rows, user, current)
    case Some(Quarantined(requestId, previous)) =>
      current == previous && (RowAt(rows, user, previous) || RowStaged(rows, user, previous, requestId))
    case Some(SessionStaged(requestId, previous, next)) =>
      && next == NextSession(previous, requestId)
      && ((current == previous && RowStaged(rows, user, previous, requestId)) ||
          (current == next && (RowStaged(rows, user, previous, requestId) ||
              RowAcknowledged(rows, user, previous, requestId))))
    case Some(Cleared(requestId, previous, next)) =>
      next == NextSession(previous, requestId) && current == next && RowAcknowledged(rows, user, previous, requestId)
  }

  ghost predicate PcLinked(rows: map<string, Replica>, user: string, current: Session, reset: Option<ResetFile>,
      pc: Pc) {
    match pc
    case Staging(next) =>
      reset.Some? && reset.value.Quarantined? && next == NextSession(reset.value.previous, reset.value.requestId) &&
      RowStaged(rows, user, reset.value.previous, reset.value.requestId)
    case Storing(next) => reset.Some? && reset.value.SessionStaged? && next == reset.value.next &&
        current == reset.value.previous
    case Acknowledging => reset.Some? && reset.value.SessionStaged? && current == reset.value.next
    case Clearing => Acknowledged(rows, user, current, reset)
    case Uncovering => Acknowledged(rows, user, current, reset)
    case Closing => Acknowledged(rows, user, current, reset)
    case _ => true
  }

  ghost predicate Acknowledged(rows: map<string, Replica>, user: string, current: Session, reset: Option<ResetFile>) {
    && reset.Some? && reset.value.SessionStaged? && current == reset.value.next
    && RowAcknowledged(rows, user, reset.value.previous, reset.value.requestId)
  }

  /** Requests that may still arrive belong to this reset or to an epoch that is already over. */
  ghost predicate RequestLinked(request: Request, current: Session, reset: Option<ResetFile>) {
    match request
    case CommandRequest(_, _, _) => true
    case ResetRequest(session, requestId) =>
      && session.replicaId == current.replicaId
      && (session.epoch < current.epoch ||
          (session == current && reset.Some? && !reset.value.Cleared? &&
           reset.value.previous == session && reset.value.requestId == requestId))
    case ResetAckRequest(session, _) => session.replicaId == current.replicaId && session.epoch <= current.epoch
  }

  ghost predicate Linked(w: World, base: int) {
    && w.disk.app.session.Some?
    && var current, count := Current(w.disk), w.disk.app.session.value.resetCount;
       && count == current.epoch - base
       && FileLinked(w.server.replicas, w.user, current, w.disk.reset)
       && (forall request :: request in w.sent ==> RequestLinked(request, current, w.disk.reset))
       && (w.process.Up? ==>
             && w.process.mem.session == current && w.process.mem.resetCount == count
             && PcLinked(w.server.replicas, w.user, current, w.disk.reset, w.process.mem.pc))
  }

  // ---- the server's moves ---

  lemma KeptRow(before: map<string, Replica>, after: map<string, Replica>, user: string, current: Session,
      reset: Option<ResetFile>, pc: Pc)
    requires FileLinked(before, user, current, reset) && RowKept(before, after, current.replicaId)
    requires PcLinked(before, user, current, reset, pc)
    ensures FileLinked(after, user, current, reset) && PcLinked(after, user, current, reset, pc)
  {
  }

  lemma FileReplica(rows: map<string, Replica>, user: string, current: Session, reset: Option<ResetFile>)
    requires FileLinked(rows, user, current, reset)
    ensures current.replicaId in rows
    ensures reset.Some? ==> reset.value.previous.replicaId == current.replicaId
  {
  }

  /** A repeated reset request either does nothing or is the one this reset is waiting for. */
  lemma ResetDelivered(s: Server, user: string, current: Session, reset: Option<ResetFile>, pc: Pc, session: Session,
      requestId: string)
    requires FileLinked(s.replicas, user, current, reset) && PcLinked(s.replicas, user, current, reset, pc)
    requires RequestLinked(ResetRequest(session, requestId), current, reset)
    ensures var t := ResetReplica(s, user, BindingOf(session), session.credential, requestId).0;
            FileLinked(t.replicas, user, current, reset) && PcLinked(t.replicas, user, current, reset, pc)
  {
    hide Stale;
    var outcome := ResetReplica(s, user, BindingOf(session), session.credential, requestId);
    if outcome.0.replicas != s.replicas {
      assert session == current && RowStaged(outcome.0.replicas, user, session, requestId);
      assert !RowStaged(s.replicas, user, session, requestId);
    }
  }

  lemma AckDelivered(s: Server, user: string, current: Session, reset: Option<ResetFile>, pc: Pc, session: Session,
      requestId: string)
    requires FileLinked(s.replicas, user, current, reset) && PcLinked(s.replicas, user, current, reset, pc)
    requires RequestLinked(ResetAckRequest(session, requestId), current, reset)
    ensures var t := AcknowledgeReset(s, user, BindingOf(session), session.credential, requestId).0;
            FileLinked(t.replicas, user, current, reset) && PcLinked(t.replicas, user, current, reset, pc)
  {
    var t := AcknowledgeReset(s, user, BindingOf(session), session.credential, requestId).0;
    if t.replicas != s.replicas {
      assert session.epoch == current.epoch == s.replicas[current.replicaId].epoch;
    }
  }

  lemma DeliverLinked(w: World, base: int, request: Request)
    requires Linked(w, base) && request in w.sent
    ensures Linked(w.(server := Handle(w.server, w.user, request)), base)
  {
    hide FileLinked, RequestLinked, ResetReplica, AcknowledgeReset, HandleCommand, PcLinked;
    var current, reset := Current(w.disk), w.disk.reset;
    var pc := if w.process.Up? then w.process.mem.pc else Idle;
    IdleLinked(w.server.replicas, w.user, current, reset);
    assert RequestLinked(request, current, reset);
    match request {
      case CommandRequest(session, command, attempt) => CommandKeepsReplicas(w.server, w.user, session, command,
          attempt);
      case ResetRequest(session, requestId) => ResetDelivered(w.server, w.user, current, reset, pc, session, requestId);
      case ResetAckRequest(session, requestId) => AckDelivered(w.server, w.user, current, reset, pc, session,
          requestId);
    }
  }

  lemma IdleLinked(rows: map<string, Replica>, user: string, current: Session, reset: Option<ResetFile>)
    ensures PcLinked(rows, user, current, reset, Idle)
  {
  }

  lemma ServerLinked(w: World, base: int, t: Server)
    requires Linked(w, base) && RowKept(w.server.replicas, t.replicas, Current(w.disk).replicaId)
    ensures Linked(w.(server := t), base)
  {
    hide FileLinked, RequestLinked, PcLinked, RowKept;
    var current, reset := Current(w.disk), w.disk.reset;
    var pc := if w.process.Up? then w.process.mem.pc else Idle;
    IdleLinked(w.server.replicas, w.user, current, reset);
    KeptRow(w.server.replicas, t.replicas, w.user, current, reset, pc);
  }

  lemma EnvironmentLinked(w: World, base: int, a: Action)
    requires Linked(w, base)
    ensures Linked(Surroundings(w, Environment(a)), base)
  {
    hide ServerRuns.Step, Enabled, RequestLinked, PcLinked, RowKept, Foreign;
    FileReplica(w.server.replicas, w.user, Current(w.disk), w.disk.reset);
    hide FileLinked;
    if Enabled(w.server, a) && Foreign(a, Current(w.disk).replicaId) {
      ForeignKeepsRow(w.server, a, Current(w.disk).replicaId);
      ServerLinked(w, base, ServerRuns.Step(w.server, a));
    }
  }

  // ---- the client's moves ---

  /** Everything but the application tables, the queue and memory details is as it was. */
  lemma SameLinks(w: World, t: World, base: int)
    requires Linked(w, base)
    requires t.user == w.user && t.server == w.server && t.sent == w.sent
    requires t.disk.app.session == w.disk.app.session && t.disk.reset == w.disk.reset
    requires t.process.Up? ==>
               && w.process.Up? && t.process.mem.session == w.process.mem.session &&
                   t.process.mem.resetCount == w.process.mem.resetCount
               && (t.process.mem.pc == w.process.mem.pc ||
                   PcLinked(w.server.replicas, w.user, Current(w.disk), w.disk.reset, t.process.mem.pc))
    ensures Linked(t, base)
  {
    hide FileLinked, RequestLinked, PcLinked;
  }

  lemma WriteResetLinked(w: World, mem: Memory, base: int, token: string)
    requires w.process == Up(mem) && Linked(w, base) && mem.pc.Snapshotted? && w.disk.reset.None?
    ensures Linked(AdvanceRotation(w, mem, token), base)
  {
    var t := AdvanceRotation(w, mem, token);
    forall request | request in t.sent ensures RequestLinked(request, Current(t.disk), t.disk.reset) {
      if request in w.sent {
        assert RequestLinked(request, Current(w.disk), w.disk.reset);
      }
    }
  }

  /** The reset reply carries the session the server now expects. */
  lemma ResetReplied(s: Server, user: string, previous: Session, requestId: string)
    requires RowAt(s.replicas, user, previous) || RowStaged(s.replicas, user, previous, requestId)
    ensures var (t, outcome) := ResetReplica(s, user, BindingOf(previous), previous.credential, requestId);
            if outcome.ResetDone?
            then outcome.session == NextSession(previous, requestId) && RowStaged(t.replicas, user, previous, requestId)
            else t == s
  {
    hide Stale;
  }

  lemma CallResetLinked(w: World, mem: Memory, base: int, token: string)
    requires w.process == Up(mem) && Linked(w, base) && mem.pc.Resetting? && w.disk.reset.Some? &&
        w.disk.reset.value.Quarantined?
    ensures Linked(AdvanceRotation(w, mem, token), base)
  {
    var file := w.disk.reset.value;
    ResetReplied(w.server, w.user, file.previous, file.requestId);
    hide ResetReplica, RowStaged, RowAt, RequestLinked;
  }

  lemma StagingLinked(w: World, mem: Memory, base: int, token: string)
    requires w.process == Up(mem) && Linked(w, base) && mem.pc.Staging? && w.disk.reset.Some? &&
        w.disk.reset.value.Quarantined?
    ensures Linked(AdvanceRotation(w, mem, token), base)
  {
    hide CheckedStore, RowStaged, RowAt, RowAcknowledged;
    var t := AdvanceRotation(w, mem, token);
    forall request | request in t.sent ensures RequestLinked(request, Current(t.disk), t.disk.reset) {
      assert RequestLinked(request, Current(w.disk), w.disk.reset);
    }
  }

  lemma StoringLinked(w: World, mem: Memory, base: int)
    requires w.process == Up(mem) && Linked(w, base) && mem.pc.Storing? && w.disk.reset.Some? &&
        w.disk.reset.value.SessionStaged?
    ensures Linked(AdvanceClearing(w, mem), base)
  {
    hide RowStaged, RowAt, RowAcknowledged;
    var t := AdvanceClearing(w, mem);
    forall request | request in t.sent ensures RequestLinked(request, Current(t.disk), t.disk.reset) {
      if request in w.sent {
        assert RequestLinked(request, Current(w.disk), w.disk.reset);
      }
    }
  }

  lemma AckReplied(s: Server, user: string, previous: Session, requestId: string)
    requires RowStaged(s.replicas, user, previous, requestId) || RowAcknowledged(s.replicas, user, previous, requestId)
    ensures var next := NextSession(previous, requestId);
            var (t, done) := AcknowledgeReset(s, user, BindingOf(next), next.credential, requestId);
            if done then RowAcknowledged(t.replicas, user, previous, requestId) else t == s
  {
  }

  lemma CallAckLinked(w: World, mem: Memory, base: int)
    requires w.process == Up(mem) && Linked(w, base) && mem.pc.Acknowledging? && w.disk.reset.Some? &&
        w.disk.reset.value.SessionStaged?
    ensures Linked(AdvanceClearing(w, mem), base)
  {
    var file := w.disk.reset.value;
    SessionsDiffer(file.previous, file.requestId);
    AckReplied(w.server, w.user, file.previous, file.requestId);
    hide AcknowledgeReset, RowStaged, RowAt, RowAcknowledged, RequestLinked;
  }

  lemma SessionsDiffer(previous: Session, requestId: string)
    ensures NextSession(previous, requestId) != previous
  {
  }

  lemma ClearingLinked(w: World, mem: Memory, base: int)
    requires w.process == Up(mem) && Linked(w, base) && w.disk.reset.Some? && w.disk.reset.value.SessionStaged?
    requires mem.pc.Clearing? || mem.pc.Uncovering? || mem.pc.Closing?
    ensures Linked(AdvanceClearing(w, mem), base)
  {
    hide CheckedStore, RowStaged, RowAt, RowAcknowledged;
    var t := AdvanceClearing(w, mem);
    SessionsDiffer(w.disk.reset.value.previous, w.disk.reset.value.requestId);
    forall request | request in t.sent ensures RequestLinked(request, Current(t.disk), t.disk.reset) {
      assert RequestLinked(request, Current(w.disk), w.disk.reset);
    }
  }

  lemma ChallengeKeepsRow(s: Server, user: string, binding: Binding, credential: Credential, id: string)
    requires binding.replicaId in s.replicas
    ensures RowKept(s.replicas, IssueChallenge(s, user, binding, credential, id).0.replicas, binding.replicaId)
    ensures RowKept(s.replicas, AcknowledgeChallenge(s, user, binding, credential, id).0.replicas, binding.replicaId)
  {
  }

  lemma ObservingLinked(w: World, mem: Memory, base: int, token: string)
    requires w.process == Up(mem) && Linked(w, base) && (mem.pc.Challenging? || mem.pc.Observing?)
    ensures Linked(AdvanceObserving(w, mem, token), base)
  {
    var t := AdvanceObserving(w, mem, token);
    FileReplica(w.server.replicas, w.user, Current(w.disk), w.disk.reset);
    ChallengeKeepsRow(w.server, w.user, BindingOf(mem.session), mem.session.credential,
      if mem.pc.Observing? then mem.pc.challengeId else token);
    ServerLinked(w, base, t.server);
    hide IssueChallenge, AcknowledgeChallenge, RequestLinked, FileLinked, ReadBack;
  }

  /** Unlinking the reset file leaves an acknowledged row behind. */
  lemma UnlinkLinked(w: World, mem: Memory, base: int)
    requires w.process == Up(mem) && Linked(w, base) && mem.pc.Unlinking? && w.disk.reset.Some? &&
        w.disk.reset.value.Cleared?
    ensures Linked(w.(disk := w.disk.(reset := None), process := Up(mem.(pc := Idle))), base)
  {
    var t := w.(disk := w.disk.(reset := None), process := Up(mem.(pc := Idle)));
    forall request | request in t.sent ensures RequestLinked(request, Current(t.disk), t.disk.reset) {
      assert RequestLinked(request, Current(w.disk), w.disk.reset);
    }
  }

  lemma AskingLinked(w: World, mem: Memory, base: int)
    requires w.process == Up(mem) && Linked(w, base) && mem.pc.Asking?
    ensures Linked(AdvanceAsking(w, mem), base)
  {
    hide FileLinked, RequestLinked, ResetCapacity, Classify, IntentFor;
    SameLinks(w, AdvanceAsking(w, mem), base);
  }

  lemma FinalizingLinked(w: World, mem: Memory, base: int, collation: string -> real)
    requires w.process == Up(mem) && Linked(w, base) && mem.pc.Finalizing?
    ensures Linked(AdvanceFinalizing(w, mem, collation), base)
  {
    hide FileLinked, RequestLinked, ResetCapacity, Classify, SortById, UniqueIds, FinalizedIds, FinalizedBytes,
        Finalize;
    SameLinks(w, AdvanceFinalizing(w, mem, collation), base);
  }

  lemma AdvanceLinked(w: World, mem: Memory, base: int, token: string, collation: string -> real)
    requires w.process == Up(mem) && Linked(w, base) && PcSound(mem.pc, w.disk)
    ensures Linked(Advance(w, mem, token, collation), base)
  {
    hide Linked, AdvanceAsking, AdvanceRotation, AdvanceClearing, AdvanceObserving, AdvanceFinalizing, Absent;
    match mem.pc {
      case Asking(_, _, _) => AskingLinked(w, mem, base);
      case Snapshotted(_) => WriteResetLinked(w, mem, base, token);
      case Resetting => CallResetLinked(w, mem, base, token);
      case Staging(_) => StagingLinked(w, mem, base, token);
      case Storing(_) => StoringLinked(w, mem, base);
      case Acknowledging => CallAckLinked(w, mem, base);
      case Clearing => ClearingLinked(w, mem, base);
      case Uncovering => ClearingLinked(w, mem, base);
      case Closing => ClearingLinked(w, mem, base);
      case Challenging => ObservingLinked(w, mem, base, token);
      case Observing(_) => ObservingLinked(w, mem, base, token);
      case Finalizing(_, _, _) => FinalizingLinked(w, mem, base, collation);
      case Unlinking => UnlinkLinked(w, mem, base);
      case _ =>
    }
  }

  /** A resumed open finds the stored session to be the old or the new one, never a third: the mismatch
      errors cannot occur. */
  lemma ResumeNeverMismatches(w: World, base: int)
    requires Linked(w, base)
    ensures ResumePc(w.disk).Some?
    ensures PcLinked(w.server.replicas, w.user, Current(w.disk), w.disk.reset, ResumePc(w.disk).value)
  {
    hide RequestLinked, RowStaged, RowAt, RowAcknowledged;
    if w.disk.reset.Some? && w.disk.reset.value.SessionStaged? {
      SessionsDiffer(w.disk.reset.value.previous, w.disk.reset.value.requestId);
    }
  }

  lemma OpenLinked(w: World, base: int)
    requires Linked(w, base) && w.process.Down?
    ensures Linked(w.(process := OpenProcess(w.disk)), base)
  {
    hide OpenChecks, ReadBack, FileLinked, RequestLinked, PcLinked;
    ResumeNeverMismatches(w, base);
  }

  lemma PersistSession(app: App, result: TerminalResult)
    ensures PersistAll(app, [result]).Ok? ==> PersistAll(app, [result]).value.session == app.session
  {
    hide PersistOne, PersistAll;
    PersistedResult(app, result);
    if PersistAll(app, [result]).Ok? {
      PersistedRow(app, result, PersistAll(app, [result]).value);
    }
  }

  lemma MarkSession(app: App, id: string)
    ensures MarkAll(app, [id]).Ok? ==> MarkAll(app, [id]).value.session == app.session
  {
    if id in app.results {
      MarkedResult(app, id);
    } else {
      MissingResultFails(app, id);
    }
  }

  lemma UploadLinked(w: World, mem: Memory, base: int, step: Step)
    requires w.process == Up(mem) && Linked(w, base)
    ensures Linked(UploadStep(w, mem, step), base)
  {
    hide HandleCommand, Judge, PersistAll, MarkAll, FileLinked, PcLinked, RequestLinked, CommandDigest, Linked,
        ValidQueued;
    match (step, mem.upload) {
      case (Send(attempt), Resting) => SendLinked(w, mem, base, attempt);
      case (Reply(attempt), Waiting(command, session)) => ReplyLinked(w, mem, base, attempt);
      case _ => StoredLinked(w, mem, base, step);
    }
  }

  lemma StoredLinked(w: World, mem: Memory, base: int, step: Step)
    requires w.process == Up(mem) && Linked(w, base) && !(step.Send? && mem.upload.Resting?) &&
        !(step.Reply? && mem.upload.Waiting?)
    ensures Linked(UploadStep(w, mem, step), base)
  {
    hide PersistAll, MarkAll, FileLinked, PcLinked, RequestLinked, CommandDigest;
    if mem.upload.Persisting? {
      PersistSession(w.disk.app, mem.upload.result);
    } else if mem.upload.Marking? {
      MarkSession(w.disk.app, mem.upload.id);
    }
    SameLinks(w, UploadStep(w, mem, step), base);
  }

  lemma SendLinked(w: World, mem: Memory, base: int, attempt: int)
    requires w.process == Up(mem) && Linked(w, base) && mem.upload.Resting?
    ensures Linked(UploadStep(w, mem, Send(attempt)), base)
  {
    hide FileLinked, PcLinked;
    var t := UploadStep(w, mem, Send(attempt));
    forall request | request in t.sent ensures RequestLinked(request, Current(t.disk), t.disk.reset) {
      if request in w.sent {
        assert RequestLinked(request, Current(w.disk), w.disk.reset);
      }
    }
  }

  lemma ReplyLinked(w: World, mem: Memory, base: int, attempt: int)
    requires w.process == Up(mem) && Linked(w, base) && mem.upload.Waiting?
    ensures Linked(ReceiveReply(w, mem, attempt), base)
  {
    hide HandleCommand, Judge, FileLinked, PcLinked, RequestLinked, CommandDigest;
    var t := ReceiveReply(w, mem, attempt);
    CommandKeepsReplicas(w.server, w.user, mem.upload.session, mem.upload.command, attempt);
  }

  lemma StepLinked(w: World, base: int, step: Step, collation: string -> real)
    requires Sound(w.disk, w.process) && Linked(w, base)
    ensures Linked(Next(w, step, collation), base)
  {
    hide Linked, Advance, UploadStep, ServerRuns.Step, Enabled, Handle, OpenProcess, BeginSnapshot, QueueOverlay,
        Acknowledge, PcSound, DiskSound,
      HeldWithin, UploadSound;
    match step {
      case Environment(a) => EnvironmentLinked(w, base, a);
      case Deliver(request) => if request in w.sent { DeliverLinked(w, base, request); }
      case Open => if w.process.Down? { OpenLinked(w, base); }
      case Program(token) => if w.process.Up? { AdvanceLinked(w, w.process.mem, base, token, collation); }
      case Send(_) => if w.process.Up? { UploadLinked(w, w.process.mem, base, step); }
      case Reply(_) => if w.process.Up? { UploadLinked(w, w.process.mem, base, step); }
      case LoseReply => if w.process.Up? { UploadLinked(w, w.process.mem, base, step); }
      case Persist => if w.process.Up? { UploadLinked(w, w.process.mem, base, step); }
      case Complete => if w.process.Up? { UploadLinked(w, w.process.mem, base, step); }
      case Mark => if w.process.Up? { UploadLinked(w, w.process.mem, base, step); }
      case _ => LocalLinked(w, base, step, collation);
    }
  }

  lemma LocalLinked(w: World, base: int, step: Step, collation: string -> real)
    requires Linked(w, base)
    requires step.Replicate? || step.Crash? || step.Queue? || step.InsertQueued? || step.InsertFails? ||
        step.AcknowledgeResult? ||
             step.AcknowledgeQuarantined? || step.BeginReset?
    ensures Linked(Next(w, step, collation), base)
  {
    hide FileLinked, RequestLinked, Admits, OverlayFor, AddAll, Acknowledge, ListsOrphans, Snapshotable, ReadBack,
        QueuedForm;
    if step.InsertFails? && w.process.Up? && w.process.mem.pc.Inserting? {
      RemovedOverlay(w.disk.app, w.process.mem.pc.command.commandId);
    } else if step.Queue? && w.process.Up? {
      QueueSession(w.disk, w.process.mem, step.command);
    }
    SameLinks(w, Next(w, step, collation), base);
  }

  lemma QueueSession(disk: Disk, mem: Memory, command: Command)
    ensures AddAll(disk.app, [OverlayFor(command)]).Ok? ==>
        AddAll(disk.app, [OverlayFor(command)]).value.session == disk.app.session
  {
    var overlay := OverlayFor(command);
    assert [overlay][..0] == [];
    assert AddAll(disk.app, [overlay]) == AddOne(disk.app, BatchIds([]), overlay);
  }

  ghost function EpochOf(w: World): int {
    if w.disk.app.session.Some? then Current(w.disk).epoch else 0
  }

  lemma FreshLinked(w: World)
    requires Fresh(w)
    ensures Linked(w, EpochOf(w))
  {
  }

  lemma {:induction false} ExecutionLinked(worlds: seq<World>, steps: seq<Step>, collation: string -> real, n: nat)
    requires IsExecution(worlds, steps, collation) && Fresh(worlds[0]) && n < |worlds|
    ensures Linked(worlds[n], EpochOf(worlds[0]))
  {
    hide Next, Fresh, Linked, Sound, EpochOf;
    if n == 0 {
      FreshLinked(worlds[0]);
    } else {
      ExecutionLinked(worlds, steps, collation, n - 1);
      ExecutionSound(worlds, steps, collation, n - 1);
      StepLinked(worlds[n - 1], EpochOf(worlds[0]), steps[n - 1], collation);
    }
  }

  /** In every execution the stored reset count is exactly the number of epochs the replica has advanced.
      Outside a reset the server row carries the stored session's epoch and the digest of its credential;
      inside one, the staged credential is the one whose digest the server holds; and a resumed open always
      finds a session it can continue from. */
  lemma RotationAccounting(worlds: seq<World>, steps: seq<Step>, collation: string -> real, n: nat)
    requires IsExecution(worlds, steps, collation) && Fresh(worlds[0]) && n < |worlds|
    ensures var w := worlds[n];
            && w.disk.app.session.Some?
            && w.disk.app.session.value.resetCount == EpochOf(w) - EpochOf(worlds[0])
            && (w.disk.reset.None? ==> RowAt(w.server.replicas, w.user, Current(w.disk)))
            && (w.disk.reset.Some? && !w.disk.reset.value.Quarantined? ==>
                RowAt(w.server.replicas, w.user, w.disk.reset.value.next))
            && ResumePc(w.disk).Some?
  {
    hide IsExecution, Fresh, RequestLinked;
    ExecutionLinked(worlds, steps, collation, n);
    ResumeNeverMismatches(worlds[n], EpochOf(worlds[0]));
  }
}
