/** The upload callback told by the server's tables: what each of them makes the client store, when it tries again, when
    it gives up, and when it learns that it must be reset. */
module ReplicaUploads {
  import opened Basics
  import opened Json
  import opened CommandProtocol
  import opened RateWindow
  import opened Reservations
  import opened ServerState
  import opened ServerRuns
  import opened ServerEffects
  import opened ApplicationState
  import opened QuarantineStore
  import opened ReplicaClient
  import opened ReplicaRecovery
  import opened ReplicaWire
  import ReplicaReset
  import opened ReplicaAcknowledgement

  // ---- what the request meets ---

  /** The request parses, and the versions it is about stay safe integers. */
  ghost predicate Canonical(session: Session, command: Command, attempt: int) {
    && CanonicalEnvelope(Envelope(BindingOf(session), LOCAL_TRANSACTION, [command]))
    && command.expectedVersion < MAX_SAFE_INTEGER && SafePositive(attempt)
  }

  /** The replica's window of this minute and epoch has admitted its sixty-four requests. */
  ghost predicate Full(s: Server, session: Session) {
    && session.replicaId in s.windows
    && var window := s.windows[session.replicaId];
       window.epoch == session.epoch && s.now < window.startedAt + 60_000 && window.count >= 64
  }

  /** The server without its rate windows, which no other table depends on. */
  ghost predicate SameButWindows(s: Server, t: Server) {
    t.(windows := s.windows) == s
  }

  lemma WindowsAside(s: Server, t: Server, user: string, session: Session, command: Command)
    requires SameButWindows(s, t)
    ensures RowLocks(t, user, session) <==> RowLocks(s, user, session)
    ensures UpToDate(t, session.replicaId) <==> UpToDate(s, session.replicaId)
    ensures Suits(t, user, [command]) <==> Suits(s, user, [command])
    ensures t.resources == s.resources && t.grants == s.grants && t.receipts == s.receipts && t.replicas == s.replicas &&
        t.now == s.now && t.floor == s.floor
  {
  }

  /** A canonical request: the session is checked first, then the checkpoint, then the window, then the command. */
  lemma HandledExactly(s: Server, user: string, session: Session, command: Command, attempt: int)
    returns (t: Server)
    requires Canonical(session, command, attempt)
    ensures SameButWindows(s, t) && WellFormedBatch([command])
    ensures HandleCommand(s, user, session, command, attempt) ==
              if !RowLocks(s, user, session) then (s, Refused)
              else if !UpToDate(s, session.replicaId) then (s, ResetNeeded)
              else if Full(s, session) then (s, Retryable)
              else
                var outcome := Execute(t, user, BindingOf(session), session.credential, [command], attempt);
                (outcome.0, Decided(outcome.1))
  {
    SentIsExecuted(s, user, session, command, attempt);
    hide HandleCommand, CanonicalEnvelope, RowLocks, UpToDate, Stale, LockReplica, Execute, WellFormedBatch, Suits;
    OneIsABatch(command);
    LockExactly(s, user, BindingOf(session), session.credential);
    t := ConsumeRate(s, user, BindingOf(session), session.credential).0;
    WindowsAside(s, t, user, session, command);
    if RowLocks(s, user, session) && UpToDate(s, session.replicaId) {
      GateExactly(t, user, BindingOf(session), session.credential, [command], attempt);
    }
  }

  // ---- the answers ---

  /** An upload waits for its answer, and its connector is connected. */
  ghost predicate Awaits(w: World, command: Command, session: Session) {
    w.process.Up? && Connected(w.process.mem.pc) && w.process.mem.upload == Waiting(command, session)
  }

  lemma ReplyStep(w: World, attempt: int, collation: string -> real)
    requires w.process.Up? && Connected(w.process.mem.pc) && w.process.mem.upload.Waiting?
    ensures Next(w, Reply(attempt), collation) == ReceiveReply(w, w.process.mem, attempt)
  {
    hide ReceiveReply;
  }

  /** Only the server and the upload moved, and the upload is about to store this result. */
  ghost predicate Stores(w: World, next: World, result: TerminalResult) {
    && w.process.Up?
    && next == w.(server := next.server, process := Up(w.process.mem.(upload := Persisting(result))))
  }

  lemma AppliedVerdict(s: Server, user: string, session: Session, command: Command, attempt: int)
    requires Canonical(session, command, attempt)
    requires RowLocks(s, user, session) && UpToDate(s, session.replicaId) && !Full(s, session)
    requires Suits(s, user, [command])
    ensures var (next, answer) := HandleCommand(s, user, session, command, attempt);
            && Judge(command, BindingOf(session), answer) == Terminal(TerminalResult(command.commandId,
                 command.resourceId, Sha256(Binding(session.replicaId, session.epoch), command), Served(Applied),
                 ServedCode(AppliedCode), command.expectedVersion, command.expectedVersion + 1, attempt))
            && command.resourceId in s.resources && command.resourceId in next.resources
            && RowAfter(s.resources[command.resourceId], next.resources[command.resourceId], command)
  {
    hide HandleCommand, RowLocks, UpToDate, Full, Execute, AppliedNote, RowAfter, CanonicalEnvelope, Suits,
        WrittenFirst, WellFormedBatch, IsUuid;
    var t := HandledExactly(s, user, session, command, attempt);
    WindowsAside(s, t, user, session, command);
    EffectExactly(t, user, BindingOf(session), session.credential, [command], attempt);
    SuitsOne(t, user, command);
    CanonicalVersion(session, command, attempt);
    WrittenOne(t, Execute(t, user, BindingOf(session), session.credential, [command], attempt).0, user,
      BindingOf(session), command);
    assert [command][0] == command;
  }

  /** A command that fits is applied to its row and comes back as applied, one version on. */
  lemma FittingIsApplied(w: World, command: Command, session: Session, attempt: int, collation: string -> real)
    requires Awaits(w, command, session) && Canonical(session, command, attempt)
    requires RowLocks(w.server, w.user, session) && UpToDate(w.server, session.replicaId) && !Full(w.server, session)
    requires Suits(w.server, w.user, [command])
    ensures var next := Next(w, Reply(attempt), collation);
            && Stores(w, next, TerminalResult(command.commandId, command.resourceId,
                 Sha256(Binding(session.replicaId, session.epoch), command), Served(Applied), ServedCode(AppliedCode),
                 command.expectedVersion, command.expectedVersion + 1, attempt))
            && command.resourceId in w.server.resources && command.resourceId in next.server.resources
            && RowAfter(w.server.resources[command.resourceId], next.server.resources[command.resourceId], command)
  {
    hide Next, HandleCommand, RowLocks, UpToDate, Full, RowAfter, Canonical, Suits, Judge;
    ReplyStep(w, attempt, collation);
    AppliedVerdict(w.server, w.user, session, command, attempt);
  }

  lemma SuitsOne(s: Server, user: string, command: Command)
    requires Suits(s, user, [command])
    ensures command.resourceId in s.resources && Entitled(s, user, command.resourceId, command.incarnationId)
  {
    assert [command][0] == command;
  }

  lemma WrittenOne(s: Server, t: Server, user: string, binding: Binding, command: Command)
    requires WrittenFirst(s, t, user, binding, [command], 1) && command.resourceId in s.resources
    ensures command.resourceId in t.resources
    ensures RowAfter(s.resources[command.resourceId], t.resources[command.resourceId], command)
  {
    hide RowAfter, AppliedNote;
    assert [command][0] == command;
  }

  lemma CanonicalVersion(session: Session, command: Command, attempt: int)
    requires Canonical(session, command, attempt)
    ensures SafePositive(command.expectedVersion) && SafePositive(command.expectedVersion + 1)
    ensures IsUuid(command.commandId, VERSION_4) && IsUuid(command.resourceId, ANY_VERSION)
  {
    hide IsUuid;
  }

  /** Without the grant nothing is changed, and a command not heard before comes back as denied. */
  lemma UngrantedComesBackDenied(w: World, command: Command, session: Session, attempt: int,
      collation: string -> real)
    requires Awaits(w, command, session) && Canonical(session, command, attempt)
    requires RowLocks(w.server, w.user, session) && UpToDate(w.server, session.replicaId) && !Full(w.server, session)
    requires (w.user, command.resourceId) !in w.server.grants && Key(w.user, command.commandId) !in w.server.receipts
    ensures var next := Next(w, Reply(attempt), collation);
            && Stores(w, next, TerminalResult(command.commandId, command.resourceId,
                 Sha256(Binding(session.replicaId, session.epoch), command), Served(Denied), ServedCode(CommandDenied),
                 command.expectedVersion, command.expectedVersion, attempt))
            && next.server.resources == w.server.resources && next.server.events == w.server.events
  {
    hide Next, HandleCommand, RowLocks, UpToDate, Full, CanonicalEnvelope, LockReplica, Stale;
    ReplyStep(w, attempt, collation);
    var t := HandledExactly(w.server, w.user, session, command, attempt);
    WindowsAside(w.server, t, w.user, session, command);
    LockExactly(t, w.user, BindingOf(session), session.credential);
    CanonicalVersion(session, command, attempt);
    assert [command][0] == command;
  }

  /** A granted, new command that does not fit its row comes back as a conflict with the version found there. */
  lemma MisfitComesBackConflicted(w: World, command: Command, session: Session, attempt: int,
      collation: string -> real)
    requires Awaits(w, command, session) && Canonical(session, command, attempt)
    requires RowLocks(w.server, w.user, session) && UpToDate(w.server, session.replicaId) && !Full(w.server, session)
    requires (w.user, command.resourceId) in w.server.grants && command.resourceId in w.server.resources
    requires SafePositive(w.server.resources[command.resourceId].version)
    requires Key(w.user, command.commandId) !in w.server.receipts && !Suits(w.server, w.user, [command])
    ensures var next, row := Next(w, Reply(attempt), collation), w.server.resources[command.resourceId];
            && Stores(w, next, TerminalResult(command.commandId, command.resourceId,
                 Sha256(Binding(session.replicaId, session.epoch), command), Served(Conflict),
                 ServedCode(if row.incarnationId != command.incarnationId then StaleIncarnation
                            else OptimisticConflict),
                 command.expectedVersion, row.version, attempt))
            && next.server.resources == w.server.resources && next.server.events == w.server.events
  {
    hide Next, HandleCommand, RowLocks, UpToDate, Full, Execute, CanonicalEnvelope, Suits, ConflictNote;
    ReplyStep(w, attempt, collation);
    var t := HandledExactly(w.server, w.user, session, command, attempt);
    WindowsAside(w.server, t, w.user, session, command);
    assert [command][0] == command;
    ConflictExactly(t, w.user, BindingOf(session), session.credential, [command], attempt, 0);
    CanonicalVersion(session, command, attempt);
  }

  /** A granted command heard before changes nothing: with a receipt of the same request the client stores what the
      receipt says, with any other it stores that its identifier was used for something else. */
  lemma HeardComesBackAgain(w: World, command: Command, session: Session, attempt: int, collation: string -> real)
    requires Awaits(w, command, session) && Canonical(session, command, attempt)
    requires RowLocks(w.server, w.user, session) && UpToDate(w.server, session.replicaId) && !Full(w.server, session)
    requires (w.user, command.resourceId) in w.server.grants && command.resourceId in w.server.resources
    requires Key(w.user, command.commandId) in w.server.receipts
    requires ReceiptShape(Key(w.user, command.commandId), w.server.receipts[Key(w.user, command.commandId)])
    requires SafePositive(w.server.receipts[Key(w.user, command.commandId)].currentVersion)
    ensures var next, receipt := Next(w, Reply(attempt), collation), w.server.receipts[Key(w.user, command.commandId)];
            var digest := Sha256(Binding(session.replicaId, session.epoch), command);
            && next.server.resources == w.server.resources && next.server.receipts == w.server.receipts
            && Stores(w, next,
                 if SameRequest(receipt, Binding(session.replicaId, session.epoch), command) then
                   TerminalResult(command.commandId, command.resourceId, digest, Served(receipt.state),
                     ServedCode(if receipt.code == AppliedCode then AlreadyApplied else receipt.code),
                     command.expectedVersion, receipt.currentVersion, attempt)
                 else
                   TerminalResult(command.commandId, command.resourceId, digest, Failed, IdempotencyMismatch,
                     command.expectedVersion, command.expectedVersion, 1))
  {
    hide Next, HandleCommand, RowLocks, UpToDate, Full, Execute, CanonicalEnvelope, Suits;
    ReplyStep(w, attempt, collation);
    var t := HandledExactly(w.server, w.user, session, command, attempt);
    WindowsAside(w.server, t, w.user, session, command);
    assert [command][0] == command;
    ReplayExactly(t, w.user, BindingOf(session), session.credential, [command], attempt);
    CanonicalVersion(session, command, attempt);
  }

  /** Whatever an answer says, the client stores nothing from it but a result of this very command and digest, with a
      code that suits its state; and from one with status 403 nothing but a denial. */
  lemma StoresOnlyOwn(command: Command, binding: Binding, answer: Answer)
    ensures var verdict := Judge(command, binding, answer);
            verdict.Terminal? ==>
              var result := verdict.result;
              && result.commandId == command.commandId && result.resourceId == command.resourceId
              && result.digest == Sha256(binding, command)
              && (match result.state
                  case Served(Applied) => result.code in {ServedCode(AppliedCode), ServedCode(AlreadyApplied)}
                  case Served(Conflict) => result.code in {ServedCode(OptimisticConflict), ServedCode(StaleIncarnation)}
                  case Served(Denied) => result.code == ServedCode(CommandDenied)
                  case Failed => result.code == IdempotencyMismatch)
              && (answer.Decided? && answer.reply.Answered? && answer.reply.status == 403 ==>
                    result.state == Served(Denied))
  {
  }

  // ---- the reset is learnt of ---

  /** The queue holds this identifier. */
  ghost predicate Queued(disk: Disk, id: string) {
    exists j :: 0 <= j < |disk.queue| && disk.queue[j].commandId == id
  }

  /** The orphans are the overlays without a queue entry, each once. */
  ghost predicate Orphans(disk: Disk, orphans: seq<Command>) {
    && (forall i :: 0 <= i < |orphans| ==>
          var id := orphans[i].commandId;
          id in disk.app.overlays && disk.app.overlays[id].command == orphans[i] && !Queued(disk, id))
    && (forall i, j :: 0 <= i < j < |orphans| ==> orphans[i].commandId != orphans[j].commandId)
    && (forall id :: id in disk.app.overlays && !Queued(disk, id) ==>
          exists i :: 0 <= i < |orphans| && orphans[i].commandId == id)
  }

  /** The queue is in order and agrees with the overlays, and nothing in it or among the orphans is in the quarantine
      file, which reads back without intents. */
  ghost predicate Coherent(disk: Disk, orphans: seq<Command>) {
    && (forall i :: 0 <= i < |disk.queue| ==>
          var c := disk.queue[i];
          && 1 <= c.expectedVersion <= 9_007_199_254_740_991 && (c.kind.ResourceUpdate? <==> c.payload.Some?)
          && (c.commandId in disk.app.overlays ==> disk.app.overlays[c.commandId].command == c))
    && ReadBack(disk.quarantine).Ok? && ReadBack(disk.quarantine).value.pending == []
    && (forall i, k :: 0 <= i < |disk.queue + orphans| && 0 <= k < |ReadBack(disk.quarantine).value.finalized| ==>
          (disk.queue + orphans)[i].commandId != ReadBack(disk.quarantine).value.finalized[k].entry.id)
  }

  lemma OrphansExactly(disk: Disk, orphans: seq<Command>)
    ensures Orphans(disk, orphans) <==> ListsOrphans(orphans, disk)
  {
    hide Ids;
    forall id ensures id in Ids(disk.queue) <==> Queued(disk, id) {
      IdsMember(disk.queue, id);
    }
    forall id ensures id in Ids(orphans) <==> exists j :: 0 <= j < |orphans| && orphans[j].commandId == id {
      IdsMember(orphans, id);
    }
    hide Queued;
  }

  lemma CoherentExactly(disk: Disk, orphans: seq<Command>)
    ensures Coherent(disk, orphans) <==> Snapshotable(disk, disk.queue + orphans)
  {
    hide ReadBack;
    if ReadBack(disk.quarantine).Ok? {
      var finalized := ReadBack(disk.quarantine).value.finalized;
      var ids := FinalizedIds(finalized);
      assert forall k :: 0 <= k < |ids| ==> ids[k] == finalized[k].entry.id;
      assert forall id :: id in ids <==> exists k :: 0 <= k < |ids| && ids[k] == id;
    }
  }

  /** A client at rest begins a reset exactly when the server asked for one, none is written down, and its disk is
      coherent: it then asks about the queue and the orphans in this order, and in any other case nothing happens. */
  lemma ResetBeginsExactly(w: World, orphans: seq<Command>, collation: string -> real)
    requires w.process.Up? && w.process.mem.pc.Idle? && w.process.mem.upload.Resting?
    ensures var begun := Next(w, BeginReset(orphans), collation);
            if w.process.mem.needsReset && w.disk.reset.None? && Orphans(w.disk, orphans) &&
               Coherent(w.disk, orphans)
            then
              && begun.disk == w.disk && begun.server == w.server && begun.process.Up?
              && begun.process.mem.pc.Asking? && begun.process.mem.pc.pending == []
              && begun.process.mem.pc.candidates == w.disk.queue + orphans
            else begun == w
  {
    hide Next, ListsOrphans, ReadBack, Snapshotable, Orphans, Coherent;
    OrphansExactly(w.disk, orphans);
    CoherentExactly(w.disk, orphans);
    BeginStep(w, orphans, collation);
  }

  lemma IdsMember(commands: seq<Command>, id: string)
    ensures id in Ids(commands) <==> exists j :: 0 <= j < |commands| && commands[j].commandId == id
  {
    if id in Ids(commands) {
      var j :| 0 <= j < |Ids(commands)| && Ids(commands)[j] == id;
    }
    if j :| 0 <= j < |commands| && commands[j].commandId == id {
      assert Ids(commands)[j] == id;
    }
  }

  /** A session that locks but is not up to date any more: the client is told, keeps everything, and the next reset call
      over a disk that can be snapshotted starts asking. */
  lemma StaleSessionMustReset(w: World, command: Command, session: Session, attempt: int, orphans: seq<Command>,
      collation: string -> real)
    requires Awaits(w, command, session) && Canonical(session, command, attempt) && w.process.mem.pc.Idle?
    requires RowLocks(w.server, w.user, session) && !UpToDate(w.server, session.replicaId)
    ensures var told := Next(w, Reply(attempt), collation);
            && told == w.(process := Up(w.process.mem.(needsReset := true, upload := Resting)))
            && (w.disk.reset.None? && Orphans(w.disk, orphans) && Coherent(w.disk, orphans) ==>
                  var begun := Next(told, BeginReset(orphans), collation);
                  && begun.disk == w.disk && begun.server == w.server && begun.process.Up?
                  && begun.process.mem.pc.Asking? && begun.process.mem.pc.pending == []
                  && begun.process.mem.pc.candidates == w.disk.queue + orphans)
  {
    hide Next, Orphans, Coherent, RowLocks, UpToDate, Canonical;
    ToldToReset(w, command, session, attempt, collation);
    ResetBeginsExactly(Next(w, Reply(attempt), collation), orphans, collation);
  }

  lemma ToldToReset(w: World, command: Command, session: Session, attempt: int, collation: string -> real)
    requires Awaits(w, command, session) && Canonical(session, command, attempt)
    requires RowLocks(w.server, w.user, session) && !UpToDate(w.server, session.replicaId)
    ensures Next(w, Reply(attempt), collation) ==
        w.(process := Up(w.process.mem.(needsReset := true, upload := Resting)))
  {
    hide Next, HandleCommand, RowLocks, UpToDate, Full, Execute, CanonicalEnvelope;
    ReplyStep(w, attempt, collation);
    var t := HandledExactly(w.server, w.user, session, command, attempt);
  }

  /** A session that does not lock is refused without a trace. */
  lemma UnlockedIsRefused(w: World, command: Command, session: Session, attempt: int, collation: string -> real)
    requires Awaits(w, command, session) && Canonical(session, command, attempt)
    requires !RowLocks(w.server, w.user, session)
    ensures Next(w, Reply(attempt), collation) == w.(process := Up(w.process.mem.(upload := Resting)))
  {
    hide Next, HandleCommand, RowLocks, UpToDate, Full, Execute, CanonicalEnvelope;
    ReplyStep(w, attempt, collation);
    var t := HandledExactly(w.server, w.user, session, command, attempt);
  }

  // ---- trying again ---

  /** One more try: it gets lost, or the server's window is full. */
  datatype Round = Round(attempt: int, lost: bool)

  function AttemptsOf(app: App, id: string): nat {
    if id in app.attempts then app.attempts[id] else 0
  }

  /** The client is at rest with this command at the head of its queue. */
  ghost predicate Heads(w: World, command: Command) {
    && w.process.Up? && w.process.mem.pc.Idle? && w.process.mem.upload.Resting?
    && w.disk.queue != [] && w.disk.queue[0] == command && ValidQueued(command)
  }

  /** A full window at the server, for this client's session. */
  ghost predicate Limits(w: World, command: Command, attempt: int) {
    w.process.Up? && var session := w.process.mem.session;
    && Canonical(session, command, attempt)
    && RowLocks(w.server, w.user, session) && UpToDate(w.server, session.replicaId) && Full(w.server, session)
  }

  ghost function AfterRound(w: World, round: Round, collation: string -> real): World {
    Next(Next(w, Send(round.attempt), collation), if round.lost then LoseReply else Reply(round.attempt), collation)
  }

  ghost function AfterRounds(w: World, rounds: seq<Round>, collation: string -> real): World
    decreases |rounds|
  {
    if rounds == [] then w
    else AfterRound(AfterRounds(w, rounds[..|rounds| - 1], collation), rounds[|rounds| - 1], collation)
  }

  /** The client after its n-th failure in all: the counter at n, everything stored as before, and at the fifth the
      result of an exhausted command on its way. */
  ghost predicate FailedTimes(w: World, t: World, command: Command, n: nat) {
    && w.process.Up? && t.process.Up? && t.server == w.server
    && t.disk == w.disk.(app := t.disk.app) && t.disk.app == w.disk.app.(attempts := t.disk.app.attempts)
    && AttemptsOf(t.disk.app, command.commandId) == n
    && t.disk.app.attempts - {command.commandId} == w.disk.app.attempts - {command.commandId}
    && t.process.mem == w.process.mem.(upload := t.process.mem.upload)
    && t.process.mem.upload ==
         if n < 5 then Resting
         else Persisting(TerminalResult(command.commandId, command.resourceId,
                Sha256(Binding(w.process.mem.session.replicaId, w.process.mem.session.epoch), command), Failed,
                RetryExhausted, command.expectedVersion, command.expectedVersion, 5))
  }

  lemma SendStep(w: World, command: Command, attempt: int, collation: string -> real)
    requires Heads(w, command)
    ensures var sent := Next(w, Send(attempt), collation);
            && Awaits(sent, command, w.process.mem.session) && sent.disk == w.disk && sent.server == w.server
            && sent.user == w.user
            && sent.process.mem == w.process.mem.(upload := Waiting(command, w.process.mem.session))
  {
  }

  lemma FailureStep(w: World, command: Command, session: Session, round: Round, collation: string -> real)
    requires Awaits(w, command, session)
    requires round.lost || Canonical(session, command, round.attempt)
    requires round.lost || (RowLocks(w.server, w.user, session) && UpToDate(w.server, session.replicaId))
    requires round.lost || Full(w.server, session)
    ensures var next := Next(w, if round.lost then LoseReply else Reply(round.attempt), collation);
            var counted := CountFailure(w.disk, w.process.mem, command, session);
            next == w.(disk := counted.0, process := Up(counted.1))
  {
    hide CountFailure, HandleCommand, RowLocks, UpToDate, Full, Execute, CanonicalEnvelope;
    if !round.lost {
      ReplyStep(w, round.attempt, collation);
      var t := HandledExactly(w.server, w.user, session, command, round.attempt);
    }
  }

  lemma CountedFailure(disk: Disk, mem: Memory, command: Command, session: Session)
    requires AttemptsOf(disk.app, command.commandId) < 5
    ensures var (next, after) := CountFailure(disk, mem, command, session);
            var n := AttemptsOf(disk.app, command.commandId) + 1;
            && next == disk.(app := disk.app.(attempts := disk.app.attempts[command.commandId := n]))
            && after == mem.(upload :=
                 if n < 5 then Resting
                 else Persisting(TerminalResult(command.commandId, command.resourceId,
                        Sha256(Binding(session.replicaId, session.epoch), command), Failed, RetryExhausted,
                        command.expectedVersion, command.expectedVersion, 5)))
  {
  }

  lemma RoundFails(w: World, t: World, command: Command, round: Round, n: nat, collation: string -> real)
    requires Heads(w, command) && FailedTimes(w, t, command, n) && n < 5 && t.user == w.user
    requires !round.lost ==> Limits(w, command, round.attempt)
    ensures FailedTimes(w, AfterRound(t, round, collation), command, n + 1)
    ensures AfterRound(t, round, collation).user == w.user
  {
    hide Next, CountFailure, Canonical, RowLocks, UpToDate, Full;
    var session := w.process.mem.session;
    SendStep(t, command, round.attempt, collation);
    var sent := Next(t, Send(round.attempt), collation);
    FailureStep(sent, command, session, round, collation);
    CountedFailure(sent.disk, sent.process.mem, command, session);
  }

  /** However the tries fail, lost on the way or turned away by a full window: up to the fourth the queue, the overlays
      and the results are as they were, only the counter of this command has grown, and the client rests; at the fifth,
      and not before, the command is exhausted. */
  lemma {:induction false} FiveTries(w: World, command: Command, rounds: seq<Round>, collation: string -> real)
    requires Heads(w, command) && AttemptsOf(w.disk.app, command.commandId) + |rounds| <= 5
    requires AttemptsOf(w.disk.app, command.commandId) < 5
    requires forall i :: 0 <= i < |rounds| && !rounds[i].lost ==> Limits(w, command, rounds[i].attempt)
    ensures FailedTimes(w, AfterRounds(w, rounds, collation), command,
        AttemptsOf(w.disk.app, command.commandId) + |rounds|)
    ensures AfterRounds(w, rounds, collation).user == w.user
    decreases |rounds|
  {
    hide AfterRound, Limits;
    if rounds != [] {
      var n := |rounds| - 1;
      FiveTries(w, command, rounds[..n], collation);
      hide FailedTimes, Heads;
      RoundFails(w, AfterRounds(w, rounds[..n], collation), command, rounds[n],
          AttemptsOf(w.disk.app, command.commandId) + n, collation);
    }
  }

  // ---- settled ---

  /** A result that fits what its overlay holds is stored, finished, marked and acknowledged in five steps, and nothing
      of the command is left on the client but the effect on its replica. */
  lemma StoredThenGone(w: World, command: Command, result: TerminalResult, collation: string -> real)
    requires w.process.Up? && w.process.mem.pc.Idle? && w.process.mem.upload == Persisting(result)
    requires w.disk.queue != [] && w.disk.queue[0] == command && result.commandId == command.commandId
    requires command.commandId in w.disk.app.overlays && command.commandId !in w.disk.app.results
    requires w.disk.app.overlays[command.commandId].reserved >= 512 && CompactResult(result)
    ensures var id := command.commandId;
            var t := After(w, [Persist, Complete, Mark, AcknowledgeResult(id)], collation);
            && t.server == w.server && t.disk.queue == w.disk.queue[1..]
            && t.disk.app.overlays == w.disk.app.overlays - {id} && t.disk.app.attempts == w.disk.app.attempts - {id}
            && t.disk.app.results == w.disk.app.results && id !in t.disk.app.results
  {
    hide Next, CompactResult;
    var id := command.commandId;
    var p := Next(w, Persist, collation);
    PersistedStep(w, command, result, collation);
    var c := Next(p, Complete, collation);
    var m := Next(c, Mark, collation);
    FinishedSteps(p, id, collation);
    AfterTwo(c, Mark, AcknowledgeResult(id), collation);
    AfterMore(p, Complete, [Mark, AcknowledgeResult(id)], collation);
    AfterMore(w, Persist, [Complete] + [Mark, AcknowledgeResult(id)], collation);
    assert [Persist] + ([Complete] + [Mark, AcknowledgeResult(id)]) ==
           [Persist, Complete, Mark, AcknowledgeResult(id)];
  }

  lemma PersistedStep(w: World, command: Command, result: TerminalResult, collation: string -> real)
    requires w.process.Up? && w.process.mem.pc.Idle? && w.process.mem.upload == Persisting(result)
    requires result.commandId == command.commandId
    requires command.commandId in w.disk.app.overlays && command.commandId !in w.disk.app.results
    requires w.disk.app.overlays[command.commandId].reserved >= 512 && CompactResult(result)
    ensures var id, p := command.commandId, Next(w, Persist, collation);
            && p.process == Up(w.process.mem.(upload := Completing(id))) && p.server == w.server
            && p.disk == w.disk.(app := p.disk.app)
            && p.disk.app == w.disk.app.(results := p.disk.app.results, overlays := w.disk.app.overlays - {id},
                 attempts := w.disk.app.attempts - {id})
            && id in p.disk.app.results && p.disk.app.results - {id} == w.disk.app.results
            && p.disk.app.results[id].result == result && !p.disk.app.results[id].completed
  {
    hide CompactResult, ResultBytes, CapacityUsage, PersistAll, PersistOne;
    PersistedApp(w.disk.app, result);
  }

  lemma PersistedApp(app: App, result: TerminalResult)
    requires result.commandId in app.overlays && result.commandId !in app.results
    requires app.overlays[result.commandId].reserved >= 512 && CompactResult(result)
    ensures var id, stored := result.commandId, PersistAll(app, [result]);
            && stored.Ok?
            && stored.value == app.(results := stored.value.results, overlays := app.overlays - {id},
                 attempts := app.attempts - {id})
            && id in stored.value.results && stored.value.results - {id} == app.results
            && stored.value.results[id].result == result && !stored.value.results[id].completed
  {
    ResultFits(result);
    assert [result][..|[result]| - 1] == [];
    assert PersistAll(app, [result]) == PersistOne(app, result);
    hide CompactResult, ResultBytes, CapacityUsage, PersistAll;
  }

  lemma FinishedSteps(p: World, id: string, collation: string -> real)
    requires p.process.Up? && p.process.mem.pc.Idle? && p.process.mem.upload == Completing(id) && p.disk.queue != []
    requires id in p.disk.app.results
    ensures var t := Next(Next(Next(p, Complete, collation), Mark, collation), AcknowledgeResult(id), collation);
            && t.server == p.server && t.disk.queue == p.disk.queue[1..]
            && t.disk.app == p.disk.app.(results := p.disk.app.results - {id})
  {
    hide Next;
    CompleteNext(p, id, collation);
    MarkNext(Next(p, Complete, collation), id, collation);
    AcknowledgeNext(Next(Next(p, Complete, collation), Mark, collation), id, collation);
  }

  lemma CompleteNext(p: World, id: string, collation: string -> real)
    requires p.process.Up? && p.process.mem.pc.Idle? && p.process.mem.upload == Completing(id) && p.disk.queue != []
    ensures Next(p, Complete, collation) ==
        p.(disk := p.disk.(queue := p.disk.queue[1..]), process := Up(p.process.mem.(upload := Marking(id))))
  {
  }

  lemma MarkNext(p: World, id: string, collation: string -> real)
    requires p.process.Up? && p.process.mem.pc.Idle? && p.process.mem.upload == Marking(id) && id in p.disk.app.results
    ensures var marked := p.disk.app.results[id := p.disk.app.results[id].(completed := true)];
            Next(p, Mark, collation) == p.(disk := p.disk.(app := p.disk.app.(results := marked)),
                process := Up(p.process.mem.(upload := Resting)))
  {
    hide MarkAll;
    MarkedOne(p.disk.app, id);
  }

  lemma MarkedOne(app: App, id: string)
    requires id in app.results
    ensures MarkAll(app, [id]) == Ok(app.(results := app.results[id := app.results[id].(completed := true)]))
  {
    assert [id][..|[id]| - 1] == [];
    assert MarkAll(app, []) == Ok(app);
  }

  lemma AcknowledgeNext(p: World, id: string, collation: string -> real)
    requires p.process.Up? && p.process.mem.pc.Idle? && id in p.disk.app.results && p.disk.app.results[id].completed
    ensures Next(p, AcknowledgeResult(id), collation) ==
        p.(disk := p.disk.(app := p.disk.app.(results := p.disk.app.results - {id})))
  {
  }

  /** End to end: a queued command that fits, sent by a client whose session is up to date, changes its row on the
      server as it says, and six steps later nothing of it is left on the client. */
  lemma FittingCommandSettles(w: World, command: Command, attempt: int, collation: string -> real)
    requires Heads(w, command) && Canonical(w.process.mem.session, command, attempt)
    requires RowLocks(w.server, w.user, w.process.mem.session) && UpToDate(w.server, w.process.mem.session.replicaId)
    requires !Full(w.server, w.process.mem.session) && Suits(w.server, w.user, [command])
    requires command.commandId in w.disk.app.overlays && command.commandId !in w.disk.app.results
    requires w.disk.app.overlays[command.commandId].reserved >= 512
    ensures var id := command.commandId;
            var t := After(w, [Send(attempt), Reply(attempt), Persist, Complete, Mark, AcknowledgeResult(id)],
                collation);
            && command.resourceId in w.server.resources && command.resourceId in t.server.resources
            && RowAfter(w.server.resources[command.resourceId], t.server.resources[command.resourceId], command)
            && t.disk.queue == w.disk.queue[1..] && t.disk.app.results == w.disk.app.results
            && t.disk.app.overlays == w.disk.app.overlays - {id} && t.disk.app.attempts == w.disk.app.attempts - {id}
  {
    hide Next, Canonical, RowLocks, UpToDate, Full, Suits, RowAfter;
    var id, session := command.commandId, w.process.mem.session;
    SendStep(w, command, attempt, collation);
    var sent := Next(w, Send(attempt), collation);
    FittingIsApplied(sent, command, session, attempt, collation);
    var replied := Next(sent, Reply(attempt), collation);
    CanonicalVersion(session, command, attempt);
    CanonicalAttempt(session, command, attempt);
    StoredThenGone(replied, command, replied.process.mem.upload.result, collation);
    var rest := [Persist, Complete, Mark, AcknowledgeResult(id)];
    AfterMore(sent, Reply(attempt), rest, collation);
    AfterMore(w, Send(attempt), [Reply(attempt)] + rest, collation);
    assert [Send(attempt)] + ([Reply(attempt)] + rest) ==
           [Send(attempt), Reply(attempt), Persist, Complete, Mark, AcknowledgeResult(id)];
  }

  lemma CanonicalAttempt(session: Session, command: Command, attempt: int)
    requires Canonical(session, command, attempt)
    ensures SafePositive(attempt)
  {
  }

  // ---- queueing ---

  /** There is room for one more command: at most 64 outstanding ones, with at most 65,536 bytes held in all. */
  ghost predicate Room(w: World, command: Command) {
    && w.process.Up?
    && |w.disk.app.results| + |w.disk.app.overlays| + |w.process.mem.finalized| < 64
    && Total(ResultReservations(w.disk.app)) + Total(OverlayReservations(w.disk.app)) +
         FinalizedTotal(w.process.mem.finalized) + Max(CommandBytes(command), 512) <= 65_536
  }

  /** The identifier is not in use on this client, and the command has an incarnation and a version. */
  ghost predicate Unused(w: World, command: Command) {
    && w.process.Up?
    && command.commandId !in w.disk.app.results && command.commandId !in w.disk.app.overlays
    && (forall i :: 0 <= i < |w.process.mem.finalized| ==> w.process.mem.finalized[i].entry.id != command.commandId)
    && 1 <= command.expectedVersion <= 9_007_199_254_740_991 && command.incarnationId != ""
  }

  /** A command is taken exactly when there is room and its identifier is unused: then its overlay is stored, it
      becomes the last in the queue, a deletion without its payload, and nothing else changes. If its insertion fails,
      or it is not taken, everything is as it was. */
  lemma QueuedExactly(w: World, command: Command, collation: string -> real)
    requires w.process.Up? && w.process.mem.pc.Idle?
    ensures var taken := Next(w, Queue(command), collation);
            if Room(w, command) && Unused(w, command) then
              var done, failed := Next(taken, InsertQueued, collation), Next(taken, InsertFails, collation);
              var sent := if command.kind.ResourceUpdate? then command else command.(payload := None);
              var overlay := Overlay(command, Max(CommandBytes(command), 512), CommandBytes(command));
              && done == w.(disk := w.disk.(queue := w.disk.queue + [sent],
                   app := w.disk.app.(overlays := w.disk.app.overlays[command.commandId := overlay])))
              && failed == w
            else taken == w
  {
    hide Next, Room, Unused;
    AdmitsExactly(w, command);
    QueueNext(w, command, collation);
    if Room(w, command) && Unused(w, command) {
      InsertNext(Next(w, Queue(command), collation), command, collation);
      UnusedOverlay(w, command, Overlay(command, Max(CommandBytes(command), 512), CommandBytes(command)));
    }
  }

  lemma AdmitsExactly(w: World, command: Command)
    requires w.process.Up?
    ensures Admits(w.disk.app, w.process.mem.finalized, command) <==> Room(w, command) && Unused(w, command)
  {
    hide Total, FinalizedTotal, CommandBytes, ResultReservations, OverlayReservations;
    var ids := FinalizedIds(w.process.mem.finalized);
    assert command.commandId in ids <==> exists i :: 0 <= i < |ids| && ids[i] == command.commandId;
    assert forall i :: 0 <= i < |ids| ==> ids[i] == w.process.mem.finalized[i].entry.id;
  }

  lemma UnusedOverlay(w: World, command: Command, overlay: Overlay)
    requires Unused(w, command)
    ensures command.commandId !in w.disk.app.overlays
    ensures w.disk.app.overlays[command.commandId := overlay] - {command.commandId} == w.disk.app.overlays
  {
  }

  lemma QueueNext(w: World, command: Command, collation: string -> real)
    requires w.process.Up? && w.process.mem.pc.Idle?
    ensures var taken := Next(w, Queue(command), collation);
            var overlay := Overlay(command, Max(CommandBytes(command), 512), CommandBytes(command));
            if Admits(w.disk.app, w.process.mem.finalized, command) then
              taken == w.(disk := w.disk.(app := w.disk.app.(overlays :=
                  w.disk.app.overlays[command.commandId := overlay])),
                process := Up(w.process.mem.(pc := Inserting(command))))
            else taken == w
  {
    hide Admits, CommandBytes;
    if Admits(w.disk.app, w.process.mem.finalized, command) {
      AdmittedApart(w.disk.app, w.process.mem.finalized, command);
      assert [OverlayFor(command)][..|[OverlayFor(command)]| - 1] == [];
      assert AddAll(w.disk.app, [OverlayFor(command)]) == AddOne(w.disk.app, {}, OverlayFor(command));
    }
  }

  lemma AdmittedApart(app: App, finalized: seq<Finalized>, command: Command)
    requires Admits(app, finalized, command)
    ensures command.commandId !in app.results && command.commandId !in app.overlays
  {
    hide CommandBytes, CapacityUsage, FinalizedTotal, OverlayFor;
  }

  lemma InsertNext(w: World, command: Command, collation: string -> real)
    requires w.process.Up? && w.process.mem.pc == Inserting(command)
    ensures Next(w, InsertQueued, collation) == w.(disk := w.disk.(queue := w.disk.queue +
        [if command.kind.ResourceUpdate? then command else command.(payload := None)]),
        process := Up(w.process.mem.(pc := Idle)))
    ensures Next(w, InsertFails, collation) == w.(disk := w.disk.(app := w.disk.app.(overlays :=
        w.disk.app.overlays - {command.commandId})), process := Up(w.process.mem.(pc := Idle)))
  {
    hide RemoveAll;
    RemovedOne(w.disk.app, command.commandId);
  }

  lemma RemovedOne(app: App, id: string)
    ensures RemoveAll(app, [id]) == app.(overlays := app.overlays - {id})
  {
    assert [id][..|[id]| - 1] == [];
    assert RemoveAll(app, []) == app;
  }

  // ---- opening ---

  ghost predicate FinalizedApart(finalized: seq<Finalized>, app: App) {
    forall i :: 0 <= i < |finalized| ==>
      finalized[i].entry.id !in app.results && finalized[i].entry.id !in app.overlays
  }

  /** The stores contradict one another, or hold more than they may. */
  ghost predicate Contradictory(disk: Disk) {
    || disk.app.session.None?
    || (exists id :: id in disk.app.results && id in disk.app.overlays)
    || ReadBack(disk.quarantine).Err?
    || (disk.reset.Some? && disk.quarantine.None?)
    || (ReadBack(disk.quarantine).Ok? && ReadBack(disk.quarantine).value.pending != [] && disk.reset.None?)
    || (ReadBack(disk.quarantine).Ok? && !FinalizedApart(ReadBack(disk.quarantine).value.finalized, disk.app))
    || (ReadBack(disk.quarantine).Ok? &&
          |disk.app.results| + |disk.app.overlays| + |ReadBack(disk.quarantine).value.finalized| > 64)
    || (ReadBack(disk.quarantine).Ok? && Total(ResultReservations(disk.app)) + Total(OverlayReservations(disk.app)) +
          FinalizedTotal(ReadBack(disk.quarantine).value.finalized) > 65_536)
  }

  /** The stored session is none of those the reset file allows. */
  ghost predicate Mismatched(disk: Disk) {
    disk.app.session.Some? && disk.reset.Some? && match disk.reset.value
      case Quarantined(_, previous) => disk.app.session.value.session != previous
      case SessionStaged(_, previous, next) =>
        disk.app.session.value.session != previous && disk.app.session.value.session != next
      case Cleared(_, _, next) => disk.app.session.value.session != next
  }

  /** Something about the stored state is not as every way of stopping would leave it. */
  ghost predicate Corrupted(disk: Disk) {
    Contradictory(disk) || Mismatched(disk)
  }

  lemma ChecksExactly(disk: Disk)
    ensures OpenChecks(disk) <==> !Contradictory(disk)
  {
    hide ReadBack, Total, FinalizedTotal, ResultReservations, OverlayReservations;
  }

  /** A client opens exactly on a state that is not corrupted, with the stored session and count, and goes on where the
      reset file says. */
  lemma OpensExactly(w: World, collation: string -> real)
    requires w.process.Down?
    ensures var after := Next(w, Open, collation);
            && after.disk == w.disk && after.server == w.server
            && (after.process.Down? <==> Corrupted(w.disk))
            && (after.process.Up? ==>
                  && w.disk.app.session.Some? && ReadBack(w.disk.quarantine).Ok?
                  && after.process.mem.session == w.disk.app.session.value.session
                  && after.process.mem.resetCount == w.disk.app.session.value.resetCount
                  && after.process.mem.finalized == ReadBack(w.disk.quarantine).value.finalized
                  && !after.process.mem.needsReset && after.process.mem.upload.Resting?
                  && after.process.mem.pc ==
                       match w.disk.reset
                       case None => Challenging
                       case Some(Quarantined(_, _)) => Resetting
                       case Some(SessionStaged(_, previous, next)) =>
                         if w.disk.app.session.value.session == previous then Storing(next) else Acknowledging
                       case Some(Cleared(_, _, _)) => Challenging)
  {
    hide Next, OpenProcess, Corrupted, ReadBack;
    OpenStep(w, collation);
    OpenedExactly(w.disk);
  }

  lemma OpenedExactly(disk: Disk)
    ensures var process := OpenProcess(disk);
            && (process.Down? <==> Corrupted(disk))
            && (process.Up? ==>
                  && disk.app.session.Some? && ReadBack(disk.quarantine).Ok?
                  && process.mem.session == disk.app.session.value.session
                  && process.mem.resetCount == disk.app.session.value.resetCount
                  && process.mem.finalized == ReadBack(disk.quarantine).value.finalized
                  && !process.mem.needsReset && process.mem.upload.Resting?
                  && process.mem.pc ==
                       match disk.reset
                       case None => Challenging
                       case Some(Quarantined(_, _)) => Resetting
                       case Some(SessionStaged(_, previous, next)) =>
                         if disk.app.session.value.session == previous then Storing(next) else Acknowledging
                       case Some(Cleared(_, _, _)) => Challenging)
  {
    hide ReadBack, Contradictory, OpenChecks;
    ChecksExactly(disk);
    ChecksGive(disk);
  }

  lemma ChecksGive(disk: Disk)
    ensures OpenChecks(disk) ==> disk.app.session.Some? && ReadBack(disk.quarantine).Ok?
  {
    hide ReadBack, WithinCapacity;
  }

  /** A client that has just observed a challenge is, at that moment, up to date for the server: the only way an opening
      or a reset goes on. */
  lemma ObservedIsUpToDate(w: World, token: string, collation: string -> real)
    requires w.process.Up? && w.process.mem.pc.Observing?
    ensures var next, session := Next(w, Program(token), collation), w.process.mem.session;
            next.process.Up? ==>
              && RowLocks(next.server, w.user, session) && UpToDate(next.server, session.replicaId)
              && next.server.replicas[session.replicaId].observedAt == Some(w.server.now)
              && !next.process.mem.needsReset && (next.process.mem.pc.Idle? || next.process.mem.pc.Finalizing?)
              && (next.process.mem.pc.Idle? <==> w.disk.reset.None?)
  {
    hide Next, Advance, Stale, ReadBack;
    ReplicaReset.ProgramStep(w, token, collation);
    ObservedStep(w, w.process.mem, token, collation);
  }

  lemma ObservedStep(w: World, mem: Memory, token: string, collation: string -> real)
    requires w.process == Up(mem) && mem.pc.Observing?
    ensures var next, session := Advance(w, mem, token, collation), mem.session;
            next.process.Up? ==>
              && RowLocks(next.server, w.user, session) && UpToDate(next.server, session.replicaId)
              && next.server.replicas[session.replicaId].observedAt == Some(w.server.now)
              && !next.process.mem.needsReset && (next.process.mem.pc.Idle? || next.process.mem.pc.Finalizing?)
              && (next.process.mem.pc.Idle? <==> w.disk.reset.None?)
  {
    hide ReadBack;
  }
}
