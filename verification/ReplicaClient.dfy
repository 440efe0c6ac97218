/** The whole protocol as a state machine: a server, the client's four durable stores, and a process that
    may stop between any two commits. Every SQLite transaction, SDK transaction, atomic rename and server
    transaction is one step. */
module ReplicaClient {
  import opened Basics
  import opened CommandProtocol
  import opened Reservations
  import opened ServerState
  import opened ServerRuns
  import opened ApplicationState
  import opened QuarantineStore

  datatype ResetFile =
    | Quarantined(requestId: string, previous: Session)
    | SessionStaged(requestId: string, previous: Session, next: Session)
    | Cleared(requestId: string, previous: Session, next: Session)

  /** Durable client state. `rows` are the live (resource, incarnation) pairs of the local replica; the
      quarantine file is kept as it was written and read back through the reader. */
  datatype Disk = Disk(
    queue: seq<Command>, app: App, quarantine: Option<Store>, reset: Option<ResetFile>, rows: set<(string, string)>)

  /** Where the one serialized application call, or the opening of the client, currently is. */
  datatype Pc =
    | Idle
    | Inserting(command: Command)
    | Asking(prior: seq<Finalized>, candidates: seq<Command>, pending: seq<Intent>)
    | Snapshotted(candidates: seq<Command>)
    | Resetting
    | Staging(next: Session)
    | Storing(next: Session)
    | Acknowledging
    | Clearing
    | Uncovering
    | Closing
    | Challenging
    | Observing(challengeId: string)
    | Finalizing(retained: Store, additions: seq<Finalized>, asked: Option<bool>)
    | Unlinking

  /** Where the upload callback currently is. */
  datatype Upload =
    | Resting
    | Waiting(command: Command, session: Session)
    | Persisting(result: TerminalResult)
    | Completing(id: string)
    | Marking(id: string)

  datatype Memory = Memory(
    session: Session, resetCount: int, finalized: seq<Finalized>, needsReset: bool, pc: Pc, upload: Upload)

  datatype Process = Down | Up(mem: Memory)

  /** A request may reach the server late, or several times. */
  datatype Request =
    | CommandRequest(session: Session, command: Command, attempt: int)
    | ResetRequest(session: Session, requestId: string)
    | ResetAckRequest(session: Session, requestId: string)

  datatype World = World(user: string, server: Server, disk: Disk, process: Process, sent: set<Request>)

  datatype Step =
    | Environment(action: Action)
    | Deliver(request: Request)
    | Replicate(rows: set<(string, string)>)
    | Crash
    | Open
    | Queue(command: Command)
    | InsertQueued
    | InsertFails
    | AcknowledgeResult(id: string)
    | AcknowledgeQuarantined(id: string)
    | BeginReset(orphans: seq<Command>)
    | Program(token: string)
    | Send(attempt: int)
    | Reply(attempt: int)
    | LoseReply
    | Persist
    | Complete
    | Mark

  function BindingOf(session: Session): Binding {
    Binding(session.replicaId, session.epoch)
  }

  // ---- the server's side ---

  /** What the client can tell apart in an answer to a command request. */
  datatype Answer = ResetNeeded | Retryable | Refused | Decided(reply: Reply)

  /** The SDK's transaction number, which only travels along. */
  const LOCAL_TRANSACTION := "1"

  function UploadBody(session: Session, command: Command): Raw<EnvelopeMembers> {
    EnvelopeObject(Envelope(BindingOf(session), LOCAL_TRANSACTION, [command]))
  }

  /** A command request: what does not parse is refused before the rate window, and what does is executed as parsed. */
  function HandleCommand(s: Server, user: string, session: Session, command: Command, attempt: int): (Server, Answer) {
    match ParseCommandEnvelope(UploadBody(session, command))
    case Err(_) => (s, Refused)
    case Ok(envelope) =>
      ParsedEnvelopeIsCanonical(UploadBody(session, command));
      HandleParsed(s, user, envelope.binding, session.credential, envelope.commands[0], attempt)
  }

  function HandleParsed(s: Server, user: string, binding: Binding, credential: Credential, command: Command,
      attempt: int): (Server, Answer) {
    var rate := ConsumeRate(s, user, binding, credential);
    match rate.1
    case RateInvalid => (s, Refused)
    case RateStale => (s, ResetNeeded)
    case RateLimited => (s, Retryable)
    case RateAccepted =>
      OneIsABatch(command);
      var outcome := Execute(rate.0, user, binding, credential, [command], attempt);
      (outcome.0, if outcome.1 == Rejected(428, ReplicaResetRequired) then ResetNeeded else Decided(outcome.1))
  }

  lemma OneIsABatch(command: Command)
    ensures WellFormedBatch([command])
  {
  }

  function Handle(s: Server, user: string, request: Request): Server {
    match request
    case CommandRequest(session, command, attempt) => HandleCommand(s, user, session, command, attempt).0
    case ResetRequest(session, requestId) => ResetReplica(s, user, BindingOf(session), session.credential, requestId).0
    case ResetAckRequest(session, requestId) => AcknowledgeReset(s, user, BindingOf(session), session.credential, requestId).0
  }

  // ---- files and capacity ---

  function ReadBack(file: Option<Store>): Result<Store, QuarantineError> {
    match file
    case None => Ok(Store([], []))
    case Some(store) =>
      match ReadStore(WriteStore(store))
      case Err(error) => Err(error)
      case Ok((read, _)) => Ok(read)
  }

  function FinalizedTotal(items: seq<Finalized>): nat {
    if items == [] then 0 else FinalizedTotal(items[..|items| - 1]) + items[|items| - 1].reserved
  }

  function PendingTotal(items: seq<Intent>): nat {
    if items == [] then 0 else PendingTotal(items[..|items| - 1]) + items[|items| - 1].reserved
  }

  /** assertCombinedOutstandingCapacity over results, overlays and finalized quarantine. */
  ghost predicate WithinCapacity(app: App, finalized: seq<Finalized>) {
    && CapacityUsage(app).count + |finalized| <= MAX_OUTSTANDING
    && CapacityUsage(app).bytes + FinalizedTotal(finalized) <= MAX_BYTES
  }

  /** assertResetCapacity: results and the whole quarantine store; overlays are already in the store. */
  ghost predicate ResetCapacity(app: App, store: Store) {
    && |app.results| + |store.finalized| + |store.pending| <= MAX_OUTSTANDING
    && Total(ResultReservations(app)) + FinalizedTotal(store.finalized) + PendingTotal(store.pending) <= MAX_BYTES
  }

  function EntryOf(command: Command): Entry {
    Entry(command.commandId, command.resourceId, command.incarnationId, KindName(command.kind), command.payload,
      Some(command.expectedVersion))
  }

  // ---- opening ---

  /** The sidecar checks every open makes before it trusts any local state. */
  ghost predicate OpenChecks(disk: Disk) {
    && Disjoint(disk.app)
    && ReadBack(disk.quarantine).Ok?
    && var store := ReadBack(disk.quarantine).value;
       && (store.pending != [] ==> disk.reset.Some?)
       && (disk.reset.Some? ==> disk.quarantine.Some?)
       && (forall i :: 0 <= i < |store.finalized| ==> store.finalized[i].entry.id !in Active(disk.app))
       && WithinCapacity(disk.app, store.finalized)
       && disk.app.session.Some?
  }

  /** Where a resumed open continues, by the phase of the reset file and the stored session. */
  function ResumePc(disk: Disk): Option<Pc>
    requires disk.app.session.Some?
  {
    var current := disk.app.session.value.session;
    match disk.reset
    case None => Some(Challenging)
    case Some(Quarantined(_, previous)) => if current == previous then Some(Resetting) else None
    case Some(SessionStaged(_, previous, next)) =>
      if current == previous then Some(Storing(next)) else if current == next then Some(Acknowledging) else None
    case Some(Cleared(_, _, next)) => if current == next then Some(Challenging) else None
  }

  ghost function OpenProcess(disk: Disk): Process {
    if !OpenChecks(disk) || ResumePc(disk).None? then Down
    else
      Up(Memory(disk.app.session.value.session, disk.app.session.value.resetCount,
          ReadBack(disk.quarantine).value.finalized,
        false, ResumePc(disk).value, Resting))
  }

  // ---- queueing ---

  /** A delete is queued without the payload its overlay may carry. */
  function QueuedForm(command: Command): Command {
    if command.kind.ResourceUpdate? then command else command.(payload := None)
  }

  function OverlayFor(command: Command): Overlay {
    Overlay(command, OutstandingReservation(CommandBytes(command)), CommandBytes(command))
  }

  ghost predicate Admits(app: App, finalized: seq<Finalized>, command: Command) {
    && SafePositive(command.expectedVersion) && command.incarnationId != ""
    && command.commandId !in FinalizedIds(finalized) && command.commandId !in Active(app)
    && CapacityUsage(app).count + |finalized| + 1 <= MAX_OUTSTANDING
    && CapacityUsage(app).bytes + FinalizedTotal(finalized) + OverlayFor(command).reserved <= MAX_BYTES
  }

  ghost function QueueOverlay(disk: Disk, mem: Memory, command: Command): (Disk, Memory) {
    if !mem.pc.Idle? || !Admits(disk.app, mem.finalized, command) then (disk, mem)
    else
      match AddAll(disk.app, [OverlayFor(command)])
      case Err(_) => (disk, mem)
      case Ok(app) => (disk.(app := app), mem.(pc := Inserting(command)))
  }

  // ---- the reset program ---

  predicate ValidQueued(command: Command) {
    && SafePositive(command.expectedVersion)
    && (command.kind.ResourceUpdate? <==> command.payload.Some?)
  }

  function Ids(commands: seq<Command>): seq<string> {
    seq(|commands|, i requires 0 <= i < |commands| => commands[i].commandId)
  }

  /** The orphans are the overlays without a queue entry, each once; the reset lists them by id. */
  ghost predicate ListsOrphans(orphans: seq<Command>, disk: Disk) {
    && (forall i :: 0 <= i < |orphans| ==>
          && orphans[i].commandId in disk.app.overlays && disk.app.overlays[orphans[i].commandId].command == orphans[i]
          && orphans[i].commandId !in Ids(disk.queue))
    && (forall i, j :: 0 <= i < j < |orphans| ==> orphans[i].commandId != orphans[j].commandId)
    && (forall id :: id in disk.app.overlays && id !in Ids(disk.queue) ==> id in Ids(orphans))
  }

  ghost predicate Snapshotable(disk: Disk, candidates: seq<Command>) {
    && (forall i :: 0 <= i < |disk.queue| ==> ValidQueued(disk.queue[i]))
    && (forall i :: 0 <= i < |disk.queue| && disk.queue[i].commandId in disk.app.overlays ==>
          disk.app.overlays[disk.queue[i].commandId].command == disk.queue[i])
    && ReadBack(disk.quarantine).Ok? && ReadBack(disk.quarantine).value.pending == []
    && (forall i :: 0 <= i < |candidates| ==>
          candidates[i].commandId !in FinalizedIds(ReadBack(disk.quarantine).value.finalized))
  }

  /** Takes the snapshot and disconnects, with no upload in flight; any refusal leaves everything as it was. */
  ghost function BeginSnapshot(disk: Disk, mem: Memory, orphans: seq<Command>): Memory {
    var candidates := disk.queue + orphans;
    if !mem.pc.Idle? || !mem.upload.Resting? || !mem.needsReset || disk.reset.Some? || !ListsOrphans(orphans, disk) ||
        !Snapshotable(disk, candidates) then mem
    else mem.(pc := Asking(ReadBack(disk.quarantine).value.finalized, candidates, []))
  }

  /** The intent written for one candidate; a denied one loses its payload before it is stored. */
  function IntentFor(app: App, command: Command, authorized: bool): Intent {
    var entry := if authorized then EntryOf(command) else EntryOf(command).(payload := None);
    var covered := if command.commandId in app.overlays then app.overlays[command.commandId].reserved else 0;
    Intent(entry, authorized, Max(covered, EntryReservation(entry)))
  }

  ghost function AdvanceAsking(w: World, mem: Memory): World
    requires mem.pc.Asking?
  {
    var pc := mem.pc;
    if |pc.pending| < |pc.candidates| then
      var command := pc.candidates[|pc.pending|];
      var preserve := Classify(w.server, w.user, BindingOf(mem.session), mem.session.credential, command.resourceId,
          command.incarnationId);
      var intent := IntentFor(w.disk.app, command, preserve == Some(true));
      w.(process := Up(mem.(pc := pc.(pending := pc.pending + [intent]))))
    else
      var store := Store(pc.prior, pc.pending);
      if ResetCapacity(w.disk.app, store) then
        w.(disk := w.disk.(quarantine := Some(store)), process := Up(mem.(pc := Snapshotted(pc.candidates))))
      else w.(process := Down)
  }

  ghost function AdvanceRotation(w: World, mem: Memory, token: string): World
    requires mem.pc.Snapshotted? || ((mem.pc.Resetting? || mem.pc.Staging?) && w.disk.reset.Some? &&
        w.disk.reset.value.Quarantined?)
  {
    match mem.pc
    case Snapshotted(_) =>
      w.(disk := w.disk.(reset := Some(Quarantined(token, mem.session))), process := Up(mem.(pc := Resetting)),
         sent := w.sent + {ResetRequest(mem.session, token)})
    case Staging(next) =>
      var file := w.disk.reset.value;
      if !CheckedStore(w.disk) then w.(process := Down)
      else w.(disk := w.disk.(reset := Some(SessionStaged(file.requestId, file.previous, next))),
          process := Up(mem.(pc := Storing(next))))
    case _ =>
      var file := w.disk.reset.value;
      var outcome := ResetReplica(w.server, w.user, BindingOf(file.previous), file.previous.credential, file.requestId);
      w.(server := outcome.0,
         process := if outcome.1.ResetDone? then Up(mem.(pc := Staging(outcome.1.session))) else Down)
  }

  /** The quarantine file reads back and still fits together with the results. */
  ghost predicate CheckedStore(disk: Disk) {
    ReadBack(disk.quarantine).Ok? && ResetCapacity(disk.app, ReadBack(disk.quarantine).value)
  }

  ghost function AdvanceClearing(w: World, mem: Memory): World
    requires mem.pc.Storing? || mem.pc.Acknowledging? || mem.pc.Clearing? || mem.pc.Uncovering? || mem.pc.Closing?
    requires w.disk.reset.Some? && w.disk.reset.value.SessionStaged?
  {
    var file := w.disk.reset.value;
    match mem.pc
    case Storing(next) =>
      w.(disk := w.disk.(app := StoreSession(w.disk.app, next, mem.resetCount + 1)),
         process := Up(mem.(session := next, resetCount := mem.resetCount + 1, pc := Acknowledging)),
         sent := w.sent + {ResetAckRequest(next, file.requestId)})
    case Acknowledging =>
      var outcome := AcknowledgeReset(w.server, w.user, BindingOf(file.next), file.next.credential, file.requestId);
      w.(server := outcome.0, process := if outcome.1 then Up(mem.(pc := Clearing)) else Down)
    case Clearing =>
      if !CheckedStore(w.disk) then w.(process := Down)
      else w.(disk := w.disk.(queue := []), process := Up(mem.(pc := Uncovering)))
    case Uncovering =>
      w.(disk := w.disk.(app := ClearAll(w.disk.app)), process := Up(mem.(pc := Closing)))
    case _ =>
      w.(disk := w.disk.(reset := Some(Cleared(file.requestId, file.previous, file.next))),
          process := Up(mem.(pc := Challenging)))
  }

  /** Challenge, connect, acknowledge; only now does a connector exist that could upload. */
  ghost function AdvanceObserving(w: World, mem: Memory, token: string): World
    requires mem.pc.Challenging? || mem.pc.Observing?
  {
    match mem.pc
    case Observing(challengeId) =>
      var outcome := AcknowledgeChallenge(w.server, w.user, BindingOf(mem.session), mem.session.credential,
          challengeId);
      if !outcome.1.AckDone? then w.(server := outcome.0, process := Down)
      else
        var disk := w.disk.(app := StoreSession(w.disk.app, mem.session, mem.resetCount));
        if disk.reset.None? then w.(server := outcome.0, disk := disk,
            process := Up(mem.(pc := Idle, needsReset := false)))
        else if ReadBack(disk.quarantine).Err? then w.(server := outcome.0, disk := disk, process := Down)
        else
          w.(server := outcome.0, disk := disk,
             process := Up(mem.(pc := Finalizing(ReadBack(disk.quarantine).value, [], None), needsReset := false)))
    case _ =>
      var outcome := IssueChallenge(w.server, w.user, BindingOf(mem.session), mem.session.credential, token);
      w.(server := outcome.0, process := if outcome.1 then Up(mem.(pc := Observing(token))) else Down)
  }

  /** One intent takes two steps: the server classifies it again, then the local replica is consulted. */
  ghost function AdvanceFinalizing(w: World, mem: Memory, collation: string -> real): World
    requires mem.pc.Finalizing?
  {
    var pc := mem.pc;
    if |pc.additions| < |pc.retained.pending| then
      var item := pc.retained.pending[|pc.additions|];
      match pc.asked
      case None =>
        var preserve := Classify(w.server, w.user, BindingOf(mem.session), mem.session.credential,
          item.entry.resourceId, item.entry.incarnationId);
        w.(process := Up(mem.(pc := pc.(asked := Some(preserve == Some(true))))))
      case Some(authorized) =>
        var visible := item.authorized && authorized &&
            (item.entry.resourceId, item.entry.incarnationId) in w.disk.rows;
        if FinalizedBytes(item.entry, visible, item.reserved) > item.reserved then w.(process := Down)
        else w.(process := Up(mem.(pc := pc.(additions := pc.additions + [Finalize(item, visible)], asked := None))))
    else
      var all := pc.retained.finalized + pc.additions;
      var merged := SortById(all, collation);
      if !UniqueIds(FinalizedIds(all)) || !ResetCapacity(w.disk.app, Store(merged, [])) then w.(process := Down)
      else
        w.(disk := w.disk.(quarantine := Some(Store(merged, []))),
            process := Up(mem.(finalized := merged, pc := Unlinking)))
  }

  /** The next commit or call of the running reset or open. A failing one ends the process. */
  ghost function Advance(w: World, mem: Memory, token: string, collation: string -> real): World {
    if mem.pc.Asking? then AdvanceAsking(w, mem)
    else if mem.pc.Snapshotted? then AdvanceRotation(w, mem, token)
    else if (mem.pc.Resetting? || mem.pc.Staging?) && w.disk.reset.Some? && w.disk.reset.value.Quarantined? then
        AdvanceRotation(w, mem, token)
    else if (mem.pc.Storing? || mem.pc.Acknowledging? || mem.pc.Clearing? || mem.pc.Uncovering? || mem.pc.Closing?) &&
            w.disk.reset.Some? && w.disk.reset.value.SessionStaged? then AdvanceClearing(w, mem)
    else if mem.pc.Challenging? || mem.pc.Observing? then AdvanceObserving(w, mem, token)
    else if mem.pc.Finalizing? then AdvanceFinalizing(w, mem, collation)
    else if mem.pc.Unlinking? then w.(disk := w.disk.(reset := None), process := Up(mem.(pc := Idle)))
    else w
  }

  // ---- uploading ---

  /** parseCommandResponse on a single command: the server's structured results, already decoded. */
  predicate Accepts(command: Command, binding: Binding, results: seq<CommandResult>) {
    && |results| == 1
    && results[0].commandId == command.commandId && results[0].resourceId == command.resourceId
    && results[0].digest == CommandDigest(command, binding)
    && (match results[0].state
        case Applied => results[0].code == AppliedCode || results[0].code == AlreadyApplied
        case Conflict => results[0].code == OptimisticConflict || results[0].code == StaleIncarnation
        case Denied => results[0].code == CommandDenied)
    && SafePositive(results[0].previousVersion) && SafePositive(results[0].currentVersion) &&
        SafePositive(results[0].attemptNumber)
  }

  datatype Verdict = MustReset | TryAgain | Throws | Terminal(result: TerminalResult)

  /** What uploadData makes of an answer. */
  function Judge(command: Command, binding: Binding, answer: Answer): Verdict {
    match answer
    case ResetNeeded => MustReset
    case Retryable => TryAgain
    case Refused => Throws
    case Decided(Rejected(409, IdempotencyConflict)) => Terminal(LocalFailure(command, binding, IdempotencyMismatch, 1))
    case Decided(Rejected(_, _)) => Throws
    case Decided(Answered(status, results)) =>
      if !Accepts(command, binding, results) || (status == 403 && results[0].state != Denied) then Throws
      else Terminal(FromServer(results[0]))
  }

  /** A transient failure is counted; the fifth one turns into a terminal result. */
  function CountFailure(disk: Disk, mem: Memory, command: Command, session: Session): (Disk, Memory) {
    match RecordFailure(disk.app, command.commandId)
    case Err(_) => (disk, mem.(upload := Resting))
    case Ok((app, failures)) =>
      (disk.(app := app),
       mem.(upload := if failures >= MAX_ATTEMPTS
                      then Persisting(LocalFailure(command, BindingOf(session), RetryExhausted, failures))
                          else Resting))
  }

  function ReceiveReply(w: World, mem: Memory, attempt: int): World
    requires mem.upload.Waiting?
  {
    var command, session := mem.upload.command, mem.upload.session;
    var handled := HandleCommand(w.server, w.user, session, command, attempt);
    var t := w.(server := handled.0);
    match Judge(command, BindingOf(session), handled.1)
    case MustReset => t.(process := Up(mem.(needsReset := true, upload := Resting)))
    case TryAgain =>
      var counted := CountFailure(w.disk, mem, command, session);
      t.(disk := counted.0, process := Up(counted.1))
    case Throws => t.(process := Up(mem.(upload := Resting)))
    case Terminal(result) => t.(process := Up(mem.(upload := Persisting(result))))
  }

  predicate Connected(pc: Pc) {
    pc.Idle? || pc.Inserting?
  }

  ghost function UploadStep(w: World, mem: Memory, step: Step): World {
    match (step, mem.upload)
    case (Send(attempt), Resting) =>
      if w.disk.queue == [] || !ValidQueued(w.disk.queue[0]) then w
      else
        w.(process := Up(mem.(upload := Waiting(w.disk.queue[0], mem.session))),
           sent := w.sent + {CommandRequest(mem.session, w.disk.queue[0], attempt)})
    case (Reply(attempt), Waiting(_, _)) => ReceiveReply(w, mem, attempt)
    case (LoseReply, Waiting(command, session)) =>
      var counted := CountFailure(w.disk, mem, command, session);
      w.(disk := counted.0, process := Up(counted.1))
    case (Persist, Persisting(result)) => (
      match PersistAll(w.disk.app, [result])
      case Err(_) => w.(process := Up(mem.(upload := Resting)))
      case Ok(app) => w.(disk := w.disk.(app := app), process := Up(mem.(upload := Completing(result.commandId)))))
    case (Complete, Completing(id)) =>
      if w.disk.queue == [] then w
      else w.(disk := w.disk.(queue := w.disk.queue[1..]), process := Up(mem.(upload := Marking(id))))
    case (Mark, Marking(id)) => (
      match MarkAll(w.disk.app, [id])
      case Err(_) => w.(process := Up(mem.(upload := Resting)))
      case Ok(app) => w.(disk := w.disk.(app := app), process := Up(mem.(upload := Resting))))
    case _ => w
  }

  // ---- one step ---

  /** The environment holds no credential of this replica, so it never speaks for it. */
  predicate Foreign(a: Action, replicaId: string) {
    match a
    case ExecuteCommands(_, binding, _, _, _) => binding.replicaId != replicaId
    case ConsumeWindow(_, binding, _) => binding.replicaId != replicaId
    case Challenged(_, binding, _, _) => binding.replicaId != replicaId
    case Observed(_, binding, _, _) => binding.replicaId != replicaId
    case Reset(_, binding, _, _) => binding.replicaId != replicaId
    case ResetAcknowledged(_, binding, _, _) => binding.replicaId != replicaId
    case _ => true
  }

  ghost function Surroundings(w: World, step: Step): World {
    match step
    case Environment(a) =>
      if Enabled(w.server, a) && w.disk.app.session.Some? && Foreign(a, w.disk.app.session.value.session.replicaId)
      then w.(server := ServerRuns.Step(w.server, a)) else w
    case Deliver(request) => if request in w.sent then w.(server := Handle(w.server, w.user, request)) else w
    case Replicate(rows) => w.(disk := w.disk.(rows := rows))
    case Crash => w.(process := Down)
    case Open => if w.process.Down? then w.(process := OpenProcess(w.disk)) else w
    case _ => w
  }

  ghost function ApplicationCall(w: World, mem: Memory, step: Step, collation: string -> real): World {
    match step
    case Queue(command) =>
      var next := QueueOverlay(w.disk, mem, command);
      w.(disk := next.0, process := Up(next.1))
    case InsertQueued =>
      if !mem.pc.Inserting? then w
      else w.(disk := w.disk.(queue := w.disk.queue + [QueuedForm(mem.pc.command)]), process := Up(mem.(pc := Idle)))
    case InsertFails =>
      if !mem.pc.Inserting? then w
      else w.(disk := w.disk.(app := RemoveAll(w.disk.app, [mem.pc.command.commandId])),
          process := Up(mem.(pc := Idle)))
    case AcknowledgeResult(id) =>
      if !mem.pc.Idle? then w else w.(disk := w.disk.(app := AcknowledgeOne(w.disk.app, id).0))
    case AcknowledgeQuarantined(id) =>
      if !mem.pc.Idle? then w
      else (
        match Acknowledge(mem.finalized, id)
        case None => w
        case Some(store) =>
          w.(disk := w.disk.(quarantine := Some(store)), process := Up(mem.(finalized := store.finalized))))
    case BeginReset(orphans) => w.(process := Up(BeginSnapshot(w.disk, mem, orphans)))
    case Program(token) => Advance(w, mem, token, collation)
    case _ => if Connected(mem.pc) then UploadStep(w, mem, step) else w
  }

  ghost function Next(w: World, step: Step, collation: string -> real): World {
    if step.Environment? || step.Deliver? || step.Replicate? || step.Crash? || step.Open? then Surroundings(w, step)
    else if w.process.Down? then w
    else ApplicationCall(w, w.process.mem, step, collation)
  }

  ghost predicate IsExecution(worlds: seq<World>, steps: seq<Step>, collation: string -> real) {
    && |worlds| == |steps| + 1
    && (forall i :: 0 <= i < |steps| ==> worlds[i + 1] == Next(worlds[i], steps[i], collation))
  }

  /** The server row of a session that no reset is in progress for. */
  ghost predicate Settled(server: Server, user: string, session: Session) {
    && session.replicaId in server.replicas
    && server.replicas[session.replicaId].userId == user
    && server.replicas[session.replicaId].epoch == session.epoch
    && server.replicas[session.replicaId].digest == CredentialDigest(session.credential)
    && server.replicas[session.replicaId].previousDigest.None?
    && server.replicas[session.replicaId].stagedReset.None?
  }

  /** A client that has completed its first open and holds nothing yet. */
  ghost predicate Fresh(w: World) {
    && w.disk.queue == [] && w.disk.app.results == map[] && w.disk.app.overlays == map[] && w.disk.app.attempts == map[]
    && w.disk.quarantine.None? && w.disk.reset.None? && w.sent == {}
    && w.disk.app.session.Some? && w.disk.app.session.value.resetCount == 0
    && w.process == Up(Memory(w.disk.app.session.value.session, 0, [], false, Idle, Resting))
    && Settled(w.server, w.user, w.disk.app.session.value.session)
    && Inv(w.server)
  }
}
