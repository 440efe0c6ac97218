/** The tables behind command-server.ts, and each of its transactions as a function from one committed
    state to the next. A transaction that rolls back leaves the state as it was. */
module ServerState {
  import opened Basics
  import opened CommandProtocol
  import opened RateWindow

  const NINETY_DAYS := 90 * 24 * 60 * MINUTE

  const CHALLENGE_LIFETIME := 5 * MINUTE

  const MAX_REPLICAS_PER_USER := 16

  /** A credential is random at registration and an HMAC of its reset request afterwards. */
  datatype Credential = Issued(serial: int) | Rotated(replicaId: string, requestId: string, epoch: int)

  /** SHA-256 of a credential, as an injective constructor. */
  datatype CredentialDigest = CredentialDigest(credential: Credential)

  datatype Session = Session(replicaId: string, epoch: int, credential: Credential)

  datatype Resource = Resource(incarnationId: string, version: int, deleted: bool, payload: Option<string>)

  datatype Receipt = Receipt(
    binding: Binding, resourceId: string, digest: Digest, state: ResultState, code: ResultCode,
    previousVersion: int, currentVersion: int)

  /** Receipts have the primary key (user_id, command_id). */
  datatype Key = Key(userId: string, commandId: string)

  datatype ChangeEvent = ChangeEvent(key: Key, resourceId: string, ordinal: nat, kind: CommandKind,
      resultingVersion: int)

  datatype Replica = Replica(
    userId: string, digest: CredentialDigest, epoch: int, disabled: bool,
    previousDigest: Option<CredentialDigest>, stagedReset: Option<string>, acknowledgedReset: Option<string>,
    observedAt: Option<int>, acknowledgedSequence: Option<int>)

  datatype Challenge = Challenge(replicaId: string, epoch: int, target: int, expiresAt: int, acknowledged: bool)

  datatype Server = Server(
    replicas: map<string, Replica>,
    resources: map<string, Resource>,
    grants: set<(string, string)>,
    receipts: map<Key, Receipt>,
    events: seq<ChangeEvent>,
    windows: map<string, Window>,
    challenges: map<string, Challenge>,
    now: int,
    floor: int,
    nextDeletion: int)

  datatype ServerError =
    | InvalidReplica | ReplicaResetRequired | IdempotencyConflict | PartialIdempotencyMatch | TargetDenied

  datatype Reply = Rejected(status: int, error: ServerError) | Answered(status: int, results: seq<CommandResult>)

  // ---- replicas ---

  /** ps8_replica_reset_required. */
  predicate Stale(s: Server, replica: Replica) {
    || replica.observedAt.None?
    || replica.acknowledgedSequence.None?
    || s.now > replica.observedAt.value + NINETY_DAYS
    || replica.acknowledgedSequence.value < s.floor
  }

  function LockReplica(s: Server, userId: string, binding: Binding, credential: Credential): Option<Replica> {
    if binding.replicaId !in s.replicas then None
    else
      var row := s.replicas[binding.replicaId];
      if row.userId != userId || row.disabled || row.epoch != binding.epoch ||
          row.digest != CredentialDigest(credential) then None
      else Some(row)
  }

  datatype RateOutcome = RateAccepted | RateInvalid | RateStale | RateLimited

  function ConsumeRate(s: Server, userId: string, binding: Binding, credential: Credential): (Server, RateOutcome) {
    var row := LockReplica(s, userId, binding, credential);
    if row.None? then (s, RateInvalid)
    else if Stale(s, row.value) then (s, RateStale)
    else
      var current := if binding.replicaId in s.windows then Some(s.windows[binding.replicaId]) else None;
      match Consume(current, binding.epoch, s.now)
      case None => (s, RateLimited)
      case Some(next) => (s.(windows := s.windows[binding.replicaId := next]), RateAccepted)
  }

  function Register(s: Server, userId: string, replicaId: string, credential: Credential): (Server, Option<Session>) {
    var owned := set id | id in s.replicas && s.replicas[id].userId == userId;
    if |owned| >= MAX_REPLICAS_PER_USER || replicaId in s.replicas then (s, None)
    else
      (s.(replicas := s.replicas[replicaId :=
         Replica(userId, CredentialDigest(credential), 1, false, None, None, None, None, None)]),
       Some(Session(replicaId, 1, credential)))
  }

  function IssueChallenge(s: Server, userId: string, binding: Binding, credential: Credential,
      challengeId: string): (Server, bool) {
    if LockReplica(s, userId, binding, credential).None? then (s, false)
    else
      var others := map id | id in s.challenges && s.challenges[id].replicaId != binding.replicaId :: s.challenges[id];
      (s.(challenges := others[challengeId :=
         Challenge(binding.replicaId, binding.epoch, s.nextDeletion, s.now + CHALLENGE_LIFETIME, false)]), true)
  }

  datatype AckOutcome = AckInvalid | AckRejected | AckDone

  function AcknowledgeChallenge(s: Server, userId: string, binding: Binding, credential: Credential,
      challengeId: string): (Server, AckOutcome) {
    var row := LockReplica(s, userId, binding, credential);
    if row.None? then (s, AckInvalid)
    else if challengeId !in s.challenges then (s, AckRejected)
    else
      var challenge := s.challenges[challengeId];
      if challenge.replicaId != binding.replicaId || challenge.epoch != binding.epoch || challenge.acknowledged ||
         s.now > challenge.expiresAt || challenge.target < s.floor then (s, AckRejected)
      else
        (s.(challenges := s.challenges[challengeId := challenge.(acknowledged := true)],
            replicas := s.replicas[binding.replicaId :=
              row.value.(observedAt := Some(s.now), acknowledgedSequence := Some(challenge.target))]),
         AckDone)
  }

  datatype ResetOutcome = ResetInvalid | ResetCurrent | ResetDone(session: Session)

  function RotatedSession(binding: Binding, requestId: string): Session {
    Session(binding.replicaId, binding.epoch + 1, Rotated(binding.replicaId, requestId, binding.epoch + 1))
  }

  /** The row already carries the outcome of this very request. */
  predicate AlreadyReset(row: Replica, binding: Binding, credential: Credential, requestId: string) {
    && row.epoch == binding.epoch + 1
    && row.stagedReset == Some(requestId)
    && row.previousDigest == Some(CredentialDigest(credential))
    && row.digest == CredentialDigest(RotatedSession(binding, requestId).credential)
  }

  function ResetReplica(s: Server, userId: string, binding: Binding, credential: Credential,
      requestId: string): (Server, ResetOutcome) {
    if binding.replicaId !in s.replicas || s.replicas[binding.replicaId].userId != userId ||
        s.replicas[binding.replicaId].disabled then
      (s, ResetInvalid)
    else
      var row := s.replicas[binding.replicaId];
      var session := RotatedSession(binding, requestId);
      if AlreadyReset(row, binding, credential, requestId) then (s, ResetDone(session))
      else if row.epoch != binding.epoch || row.digest != CredentialDigest(credential) then (s, ResetInvalid)
      else if !Stale(s, row) then (s, ResetCurrent)
      else
        (s.(replicas := s.replicas[binding.replicaId := row.(
               epoch := binding.epoch + 1, previousDigest := Some(row.digest),
               digest := CredentialDigest(session.credential), stagedReset := Some(requestId),
               observedAt := None, acknowledgedSequence := None)],
            windows := s.windows - {binding.replicaId}),
         ResetDone(session))
  }

  function AcknowledgeReset(s: Server, userId: string, binding: Binding, credential: Credential,
      requestId: string): (Server, bool) {
    var row := LockReplica(s, userId, binding, credential);
    if row.None? then (s, false)
    else if row.value.acknowledgedReset == Some(requestId) && row.value.previousDigest.None? then (s, true)
    else if row.value.stagedReset != Some(requestId) || row.value.previousDigest.None? then (s, false)
    else
      (s.(replicas := s.replicas[binding.replicaId :=
         row.value.(previousDigest := None, stagedReset := None, acknowledgedReset := Some(requestId))]), true)
  }

  /** The user may still see this incarnation of the resource. */
  predicate Authorized(s: Server, userId: string, resourceId: string, incarnationId: string) {
    && (userId, resourceId) in s.grants
    && resourceId in s.resources
    && s.resources[resourceId].incarnationId == incarnationId
  }

  function Classify(s: Server, userId: string, binding: Binding, credential: Credential, resourceId: string,
      incarnationId: string): Option<bool> {
    if LockReplica(s, userId, binding, credential).None? then None
    else Some(Authorized(s, userId, resourceId, incarnationId))
  }

  // ---- commands ---

  /** What parseCommandEnvelope guarantees of a batch. */
  ghost predicate WellFormedBatch(commands: seq<Command>) {
    && commands != []
    && DistinctIds(commands)
    && (forall i, j :: 0 <= i < j < |commands| ==> commands[i].resourceId != commands[j].resourceId)
  }

  predicate ReceiptMatches(receipt: Receipt, binding: Binding, command: Command) {
    && receipt.binding == binding
    && receipt.resourceId == command.resourceId
    && receipt.digest == CommandDigest(command, binding)
  }

  function ReplayedResult(key: Key, receipt: Receipt, attempt: int): CommandResult {
    CommandResult(key.commandId, receipt.resourceId, receipt.digest, receipt.state,
      if receipt.code == AppliedCode then AlreadyApplied else receipt.code,
      receipt.previousVersion, receipt.currentVersion, attempt)
  }

  /** After revocation a replay exposes only a denial, whatever the receipt says. */
  function DeniedResult(key: Key, receipt: Receipt, attempt: int): CommandResult {
    CommandResult(key.commandId, receipt.resourceId, receipt.digest, Denied, CommandDenied,
      receipt.previousVersion, receipt.currentVersion, attempt)
  }

  function FreshResult(key: Key, receipt: Receipt, attempt: int): CommandResult {
    CommandResult(key.commandId, receipt.resourceId, receipt.digest, receipt.state, receipt.code,
      receipt.previousVersion, receipt.currentVersion, attempt)
  }

  function DenialReceipt(binding: Binding, command: Command): Receipt {
    Receipt(binding, command.resourceId, CommandDigest(command, binding), Denied, CommandDenied,
      command.expectedVersion, command.expectedVersion)
  }

  function ConflictReceipt(binding: Binding, command: Command, code: ResultCode, current: int): Receipt {
    Receipt(binding, command.resourceId, CommandDigest(command, binding), Conflict, code, command.expectedVersion,
        current)
  }

  function AppliedReceipt(binding: Binding, command: Command): Receipt {
    Receipt(binding, command.resourceId, CommandDigest(command, binding), Applied, AppliedCode,
      command.expectedVersion, command.expectedVersion + 1)
  }

  function ExecuteDenied(s: Server, userId: string, binding: Binding, command: Command, attempt: int): (Server, Reply) {
    var key := Key(userId, command.commandId);
    if key in s.receipts then
      if ReceiptMatches(s.receipts[key], binding, command) then
        (s, Answered(403, [DeniedResult(key, s.receipts[key], attempt)]))
      else (s, Rejected(409, IdempotencyConflict))
    else
      var receipt := DenialReceipt(binding, command);
      (s.(receipts := s.receipts[key := receipt]), Answered(403, [DeniedResult(key, receipt, attempt)]))
  }

  /** Conflict receipts for the first n commands. */
  function RefuseFirst(s: Server, userId: string, binding: Binding, commands: seq<Command>, code: ResultCode,
      n: nat): (r: Server)
    requires n <= |commands| && AllPresent(s, commands)
    ensures r.(receipts := s.receipts) == s
  {
    if n == 0 then s
    else
      var t := RefuseFirst(s, userId, binding, commands, code, n - 1);
      var command := commands[n - 1];
      t.(receipts := t.receipts[Key(userId, command.commandId) :=
        ConflictReceipt(binding, command, code, s.resources[command.resourceId].version)])
  }

  function ApplyToResource(resource: Resource, command: Command): Resource {
    match command.kind
    case ResourceUpdate => resource.(payload := command.payload, version := command.expectedVersion + 1)
    case ResourceSoftDelete => resource.(deleted := true, version := command.expectedVersion + 1)
  }

  /** One command's row update, change event and receipt; a soft delete also draws a graveyard number. */
  function ApplyOne(s: Server, userId: string, binding: Binding, command: Command, ordinal: nat): (r: Server)
    requires command.resourceId in s.resources
    ensures r.resources.Keys == s.resources.Keys
  {
    var key := Key(userId, command.commandId);
    s.(resources := s.resources[command.resourceId := ApplyToResource(s.resources[command.resourceId], command)],
       nextDeletion := if command.kind.ResourceSoftDelete? then s.nextDeletion + 1 else s.nextDeletion,
       events := s.events + [ChangeEvent(key, command.resourceId, ordinal, command.kind, command.expectedVersion + 1)],
       receipts := s.receipts[key := AppliedReceipt(binding, command)])
  }

  function ApplyFirst(s: Server, userId: string, binding: Binding, commands: seq<Command>, n: nat): (r: Server)
    requires n <= |commands| && AllPresent(s, commands)
    ensures r.resources.Keys == s.resources.Keys
  {
    if n == 0 then s
    else ApplyOne(ApplyFirst(s, userId, binding, commands, n - 1), userId, binding, commands[n - 1], n - 1)
  }

  function Results(s: Server, userId: string, commands: seq<Command>, attempt: int, replay: bool): seq<CommandResult>
    requires AllReceipts(s, userId, commands)
  {
    seq(|commands|, i requires 0 <= i < |commands| =>
      var key := Key(userId, commands[i].commandId);
      if replay then ReplayedResult(key, s.receipts[key], attempt) else FreshResult(key, s.receipts[key], attempt))
  }

  predicate AllGranted(s: Server, userId: string, commands: seq<Command>) {
    forall i | 0 <= i < |commands| :: (userId, commands[i].resourceId) in s.grants
  }

  predicate AllPresent(s: Server, commands: seq<Command>) {
    forall i | 0 <= i < |commands| :: commands[i].resourceId in s.resources
  }

  predicate AnyReceipt(s: Server, userId: string, commands: seq<Command>) {
    exists i | 0 <= i < |commands| :: Key(userId, commands[i].commandId) in s.receipts
  }

  predicate AllReceipts(s: Server, userId: string, commands: seq<Command>) {
    forall i | 0 <= i < |commands| :: Key(userId, commands[i].commandId) in s.receipts
  }

  predicate AllMatch(s: Server, userId: string, binding: Binding, commands: seq<Command>)
    requires AllReceipts(s, userId, commands)
  {
    forall i | 0 <= i < |commands| :: ReceiptMatches(s.receipts[Key(userId, commands[i].commandId)], binding,
        commands[i])
  }

  predicate AnyStaleIncarnation(s: Server, commands: seq<Command>)
    requires AllPresent(s, commands)
  {
    exists i | 0 <= i < |commands| :: s.resources[commands[i].resourceId].incarnationId != commands[i].incarnationId
  }

  predicate AnyConflict(s: Server, commands: seq<Command>)
    requires AllPresent(s, commands)
  {
    exists i | 0 <= i < |commands| ::
      s.resources[commands[i].resourceId].deleted ||
          s.resources[commands[i].resourceId].version != commands[i].expectedVersion
  }

  /** A receipt the transaction wrote for command i, and where any other receipt came from. */
  lemma {:induction false} RefusedReceipt(s: Server, userId: string, binding: Binding, commands: seq<Command>,
      code: ResultCode, n: nat, i: nat)
    requires i < n <= |commands| && AllPresent(s, commands) && DistinctIds(commands)
    ensures var t, key := RefuseFirst(s, userId, binding, commands, code, n), Key(userId, commands[i].commandId);
            key in t.receipts &&
            t.receipts[key] == ConflictReceipt(binding, commands[i], code, s.resources[commands[i].resourceId].version)
  {
    if i < n - 1 {
      RefusedReceipt(s, userId, binding, commands, code, n - 1, i);
    }
  }

  lemma {:induction false} RefusedOrigin(s: Server, userId: string, binding: Binding, commands: seq<Command>,
      code: ResultCode, n: nat, key: Key)
    returns (i: nat)
    requires n <= |commands| && AllPresent(s, commands)
    requires key in RefuseFirst(s, userId, binding, commands, code, n).receipts && key !in s.receipts
    ensures i < n && key == Key(userId, commands[i].commandId)
  {
    i := n - 1;
    if key != Key(userId, commands[i].commandId) {
      i := RefusedOrigin(s, userId, binding, commands, code, n - 1, key);
    }
  }

  lemma {:induction false} AppliedReceiptAt(s: Server, userId: string, binding: Binding, commands: seq<Command>, n: nat,
      i: nat)
    requires i < n <= |commands| && AllPresent(s, commands) && DistinctIds(commands)
    ensures var t, key := ApplyFirst(s, userId, binding, commands, n), Key(userId, commands[i].commandId);
            key in t.receipts && t.receipts[key] == AppliedReceipt(binding, commands[i])
  {
    if i < n - 1 {
      AppliedReceiptAt(s, userId, binding, commands, n - 1, i);
    }
  }

  lemma {:induction false} AppliedOrigin(s: Server, userId: string, binding: Binding, commands: seq<Command>, n: nat,
      key: Key) returns (i: nat)
    requires n <= |commands| && AllPresent(s, commands)
    requires key in ApplyFirst(s, userId, binding, commands, n).receipts && key !in s.receipts
    ensures i < n && key == Key(userId, commands[i].commandId)
  {
    i := n - 1;
    if key != Key(userId, commands[i].commandId) {
      i := AppliedOrigin(s, userId, binding, commands, n - 1, key);
    }
  }

  lemma AllRefused(s: Server, userId: string, binding: Binding, commands: seq<Command>, code: ResultCode)
    requires AllPresent(s, commands) && DistinctIds(commands)
    ensures AllReceipts(RefuseFirst(s, userId, binding, commands, code, |commands|), userId, commands)
  {
    forall i | 0 <= i < |commands|
      ensures Key(userId, commands[i].commandId) in RefuseFirst(s, userId, binding, commands, code, |commands|).receipts
    {
      RefusedReceipt(s, userId, binding, commands, code, |commands|, i);
    }
  }

  lemma AllApplied(s: Server, userId: string, binding: Binding, commands: seq<Command>)
    requires AllPresent(s, commands) && DistinctIds(commands)
    ensures AllReceipts(ApplyFirst(s, userId, binding, commands, |commands|), userId, commands)
  {
    forall i | 0 <= i < |commands|
      ensures Key(userId, commands[i].commandId) in ApplyFirst(s, userId, binding, commands, |commands|).receipts
    {
      AppliedReceiptAt(s, userId, binding, commands, |commands|, i);
    }
  }

  function Refuse(s: Server, userId: string, binding: Binding, commands: seq<Command>, attempt: int,
      code: ResultCode): (Server, Reply)
    requires AllPresent(s, commands) && DistinctIds(commands)
  {
    var t := RefuseFirst(s, userId, binding, commands, code, |commands|);
    AllRefused(s, userId, binding, commands, code);
    (t, Answered(200, Results(t, userId, commands, attempt, false)))
  }

  function Apply(s: Server, userId: string, binding: Binding, commands: seq<Command>, attempt: int): (Server, Reply)
    requires AllPresent(s, commands) && DistinctIds(commands)
  {
    var t := ApplyFirst(s, userId, binding, commands, |commands|);
    AllApplied(s, userId, binding, commands);
    (t, Answered(200, Results(t, userId, commands, attempt, false)))
  }

  /** The command transaction: replica, staleness, authority, targets, receipts, then the effect. */
  function Execute(s: Server, userId: string, binding: Binding, credential: Credential, commands: seq<Command>,
      attempt: int): (Server, Reply)
    requires WellFormedBatch(commands)
  {
    var replica := LockReplica(s, userId, binding, credential);
    if replica.None? then (s, Rejected(403, InvalidReplica))
    else if Stale(s, replica.value) then (s, Rejected(428, ReplicaResetRequired))
    else if !AllGranted(s, userId, commands) then ExecuteDenied(s, userId, binding, commands[0], attempt)
    else if !AllPresent(s, commands) then (s, Rejected(403, TargetDenied))
    else if AnyReceipt(s, userId, commands) then
      if !AllReceipts(s, userId, commands) then (s, Rejected(409, PartialIdempotencyMatch))
      else if !AllMatch(s, userId, binding, commands) then (s, Rejected(409, IdempotencyConflict))
      else (s, Answered(200, Results(s, userId, commands, attempt, true)))
    else if AnyStaleIncarnation(s, commands) then Refuse(s, userId, binding, commands, attempt, StaleIncarnation)
    else if AnyConflict(s, commands) then Refuse(s, userId, binding, commands, attempt, OptimisticConflict)
    else Apply(s, userId, binding, commands, attempt)
  }
}
