/** The command server itself: tables as fields, each handler one transaction on them. */
module CommandServer {
  import opened Basics
  import opened CommandProtocol
  import opened RateWindow
  import opened ServerState

  function FirstResults(userId: string, receipts: seq<Receipt>, commands: seq<Command>, attempt: int,
      n: nat): seq<CommandResult>
    requires n <= |commands| == |receipts|
  {
    if n == 0 then []
    else FirstResults(userId, receipts, commands, attempt, n - 1) +
         [FreshResult(Key(userId, commands[n - 1].commandId), receipts[n - 1], attempt)]
  }

  lemma {:induction false} FirstResultsAt(userId: string, receipts: seq<Receipt>, commands: seq<Command>, attempt: int,
      n: nat)
    requires n <= |commands| == |receipts|
    ensures |FirstResults(userId, receipts, commands, attempt, n)| == n
    ensures forall i :: 0 <= i < n ==> FirstResults(userId, receipts, commands, attempt, n)[i] ==
                                         FreshResult(Key(userId, commands[i].commandId), receipts[i], attempt)
  {
    if n > 0 {
      FirstResultsAt(userId, receipts, commands, attempt, n - 1);
    }
  }

  lemma CollectedResults(t: Server, userId: string, receipts: seq<Receipt>, commands: seq<Command>, attempt: int)
    requires |receipts| == |commands| && AllReceipts(t, userId, commands)
    requires forall i :: 0 <= i < |commands| ==> t.receipts[Key(userId, commands[i].commandId)] == receipts[i]
    ensures FirstResults(userId, receipts, commands, attempt, |commands|) == Results(t, userId, commands, attempt,
        false)
  {
    FirstResultsAt(userId, receipts, commands, attempt, |commands|);
  }

  function ConflictReceipts(s: Server, binding: Binding, commands: seq<Command>, code: ResultCode): seq<Receipt>
    requires AllPresent(s, commands)
  {
    seq(|commands|, i requires 0 <= i < |commands| =>
      ConflictReceipt(binding, commands[i], code, s.resources[commands[i].resourceId].version))
  }

  function AppliedReceipts(binding: Binding, commands: seq<Command>): seq<Receipt> {
    seq(|commands|, i requires 0 <= i < |commands| => AppliedReceipt(binding, commands[i]))
  }

  lemma RefusedResults(s: Server, userId: string, binding: Binding, commands: seq<Command>, attempt: int,
      code: ResultCode)
    requires AllPresent(s, commands) && DistinctIds(commands)
    ensures Refuse(s, userId, binding, commands, attempt, code).1 ==
              Answered(200, FirstResults(userId, ConflictReceipts(s, binding, commands, code), commands, attempt,
                  |commands|))
  {
    AllRefused(s, userId, binding, commands, code);
    var t := RefuseFirst(s, userId, binding, commands, code, |commands|);
    forall i | 0 <= i < |commands|
      ensures t.receipts[Key(userId, commands[i].commandId)] == ConflictReceipts(s, binding, commands, code)[i]
    {
      RefusedReceipt(s, userId, binding, commands, code, |commands|, i);
    }
    CollectedResults(t, userId, ConflictReceipts(s, binding, commands, code), commands, attempt);
  }

  lemma AppliedResults(s: Server, userId: string, binding: Binding, commands: seq<Command>, attempt: int)
    requires AllPresent(s, commands) && DistinctIds(commands)
    ensures Apply(s, userId, binding, commands, attempt).1 ==
              Answered(200, FirstResults(userId, AppliedReceipts(binding, commands), commands, attempt, |commands|))
  {
    AllApplied(s, userId, binding, commands);
    var t := ApplyFirst(s, userId, binding, commands, |commands|);
    forall i | 0 <= i < |commands|
      ensures t.receipts[Key(userId, commands[i].commandId)] == AppliedReceipts(binding, commands)[i]
    {
      AppliedReceiptAt(s, userId, binding, commands, |commands|, i);
    }
    CollectedResults(t, userId, AppliedReceipts(binding, commands), commands, attempt);
  }

  class CommandServer {
    var replicas: map<string, Replica>
    var resources: map<string, Resource>
    var grants: set<(string, string)>
    var receipts: map<Key, Receipt>
    var events: seq<ChangeEvent>
    var windows: map<string, Window>
    var challenges: map<string, Challenge>
    var now: int
    var floor: int
    var nextDeletion: int

    constructor (state: Server)
      ensures State() == state
    {
      replicas, resources, grants, receipts := state.replicas, state.resources, state.grants, state.receipts;
      events, windows, challenges := state.events, state.windows, state.challenges;
      now, floor, nextDeletion := state.now, state.floor, state.nextDeletion;
    }

    function State(): Server
      reads this
    {
      Server(replicas, resources, grants, receipts, events, windows, challenges, now, floor, nextDeletion)
    }

    /** Refuses the whole batch, leaving one conflict receipt for each command. */
    method RefuseAll(userId: string, binding: Binding, commands: seq<Command>, attempt: int, code: ResultCode)
      returns (results: seq<CommandResult>)
      requires WellFormedBatch(commands) && AllPresent(State(), commands)
      modifies this`receipts
      ensures (State(), Answered(200, results)) == Refuse(old(State()), userId, binding, commands, attempt, code)
    {
      hide DistinctIds;
      ghost var s := State();
      ghost var written := ConflictReceipts(s, binding, commands, code);
      results := [];
      for i := 0 to |commands|
        invariant State() == RefuseFirst(s, userId, binding, commands, code, i)
        invariant results == FirstResults(userId, written, commands, attempt, i)
      {
        var command := commands[i];
        var key := Key(userId, command.commandId);
        var receipt := ConflictReceipt(binding, command, code, resources[command.resourceId].version);
        receipts := receipts[key := receipt];
        results := results + [FreshResult(key, receipt, attempt)];
      }
      RefusedResults(s, userId, binding, commands, attempt, code);
    }

    /** Row update, change event and receipt for one command. */
    method ApplyCommand(userId: string, binding: Binding, command: Command, ordinal: nat,
        attempt: int) returns (result: CommandResult)
      requires command.resourceId in resources
      modifies this`resources, this`events, this`receipts, this`nextDeletion
      ensures State() == ApplyOne(old(State()), userId, binding, command, ordinal)
      ensures result == FreshResult(Key(userId, command.commandId), AppliedReceipt(binding, command), attempt)
    {
      var key := Key(userId, command.commandId);
      var resource := resources[command.resourceId];
      var current := command.expectedVersion + 1;
      match command.kind {
        case ResourceUpdate =>
          resources := resources[command.resourceId := resource.(payload := command.payload, version := current)];
        case ResourceSoftDelete =>
          resources := resources[command.resourceId := resource.(deleted := true, version := current)];
          nextDeletion := nextDeletion + 1;
      }
      events := events + [ChangeEvent(key, command.resourceId, ordinal, command.kind, current)];
      var receipt := AppliedReceipt(binding, command);
      receipts := receipts[key := receipt];
      return FreshResult(key, receipt, attempt);
    }

    /** Applies the whole batch: row, change event and receipt for each command in order. */
    method ApplyAll(userId: string, binding: Binding, commands: seq<Command>,
        attempt: int) returns (results: seq<CommandResult>)
      requires WellFormedBatch(commands) && AllPresent(State(), commands)
      modifies this`resources, this`events, this`receipts, this`nextDeletion
      ensures (State(), Answered(200, results)) == Apply(old(State()), userId, binding, commands, attempt)
    {
      hide DistinctIds, ApplyOne;
      ghost var s := State();
      ghost var written := AppliedReceipts(binding, commands);
      results := [];
      for ordinal := 0 to |commands|
        invariant State() == ApplyFirst(s, userId, binding, commands, ordinal)
        invariant results == FirstResults(userId, written, commands, attempt, ordinal)
      {
        var result := ApplyCommand(userId, binding, commands[ordinal], ordinal, attempt);
        results := results + [result];
      }
      AppliedResults(s, userId, binding, commands, attempt);
    }

    method ExecuteCommands(userId: string, binding: Binding, credential: Credential, commands: seq<Command>,
        attempt: int)
      returns (reply: Reply)
      requires WellFormedBatch(commands)
      modifies this
      ensures (State(), reply) == Execute(old(State()), userId, binding, credential, commands, attempt)
    {
      var replica := LockReplica(State(), userId, binding, credential);
      if replica.None? {
        return Rejected(403, InvalidReplica);
      }
      if Stale(State(), replica.value) {
        return Rejected(428, ReplicaResetRequired);
      }
      if !AllGranted(State(), userId, commands) {
        var key := Key(userId, commands[0].commandId);
        if key !in receipts {
          receipts := receipts[key := DenialReceipt(binding, commands[0])];
        } else if !ReceiptMatches(receipts[key], binding, commands[0]) {
          return Rejected(409, IdempotencyConflict);
        }
        return Answered(403, [DeniedResult(key, receipts[key], attempt)]);
      }
      if !AllPresent(State(), commands) {
        return Rejected(403, TargetDenied);
      }
      if AnyReceipt(State(), userId, commands) {
        if !AllReceipts(State(), userId, commands) {
          return Rejected(409, PartialIdempotencyMatch);
        }
        if !AllMatch(State(), userId, binding, commands) {
          return Rejected(409, IdempotencyConflict);
        }
        return Answered(200, Results(State(), userId, commands, attempt, true));
      }
      var results: seq<CommandResult>;
      if AnyStaleIncarnation(State(), commands) {
        results := RefuseAll(userId, binding, commands, attempt, StaleIncarnation);
      } else if AnyConflict(State(), commands) {
        results := RefuseAll(userId, binding, commands, attempt, OptimisticConflict);
      } else {
        results := ApplyAll(userId, binding, commands, attempt);
      }
      return Answered(200, results);
    }

    method ConsumeCommandRateWindow(userId: string, binding: Binding,
        credential: Credential) returns (outcome: RateOutcome)
      modifies this`windows
      ensures (State(), outcome) == ConsumeRate(old(State()), userId, binding, credential)
    {
      var replica := LockReplica(State(), userId, binding, credential);
      if replica.None? {
        return RateInvalid;
      }
      if Stale(State(), replica.value) {
        return RateStale;
      }
      var current := if binding.replicaId in windows then Some(windows[binding.replicaId]) else None;
      var next := Consume(current, binding.epoch, now);
      if next.None? {
        return RateLimited;
      }
      windows := windows[binding.replicaId := next.value];
      return RateAccepted;
    }

    method ReplicaReset(userId: string, binding: Binding, credential: Credential,
        requestId: string) returns (outcome: ResetOutcome)
      modifies this`replicas, this`windows
      ensures (State(), outcome) == ResetReplica(old(State()), userId, binding, credential, requestId)
    {
      if binding.replicaId !in replicas || replicas[binding.replicaId].userId != userId ||
          replicas[binding.replicaId].disabled {
        return ResetInvalid;
      }
      var row := replicas[binding.replicaId];
      var session := RotatedSession(binding, requestId);
      if AlreadyReset(row, binding, credential, requestId) {
        return ResetDone(session);
      }
      if row.epoch != binding.epoch || row.digest != CredentialDigest(credential) {
        return ResetInvalid;
      }
      if !Stale(State(), row) {
        return ResetCurrent;
      }
      replicas := replicas[binding.replicaId := row.(
        epoch := session.epoch, previousDigest := Some(row.digest), digest := CredentialDigest(session.credential),
        stagedReset := Some(requestId), observedAt := None, acknowledgedSequence := None)];
      windows := windows - {binding.replicaId};
      return ResetDone(session);
    }

    method ReplicaResetAck(userId: string, binding: Binding, credential: Credential,
        requestId: string) returns (acknowledged: bool)
      modifies this`replicas
      ensures (State(), acknowledged) == AcknowledgeReset(old(State()), userId, binding, credential, requestId)
    {
      var replica := LockReplica(State(), userId, binding, credential);
      if replica.None? {
        return false;
      }
      var row := replica.value;
      if row.acknowledgedReset == Some(requestId) && row.previousDigest.None? {
        return true;
      }
      if row.stagedReset != Some(requestId) || row.previousDigest.None? {
        return false;
      }
      replicas := replicas[binding.replicaId :=
        row.(previousDigest := None, stagedReset := None, acknowledgedReset := Some(requestId))];
      return true;
    }

    method ReplicaChallenge(userId: string, binding: Binding, credential: Credential,
        challengeId: string) returns (issued: bool)
      modifies this`challenges
      ensures (State(), issued) == IssueChallenge(old(State()), userId, binding, credential, challengeId)
    {
      var replica := LockReplica(State(), userId, binding, credential);
      if replica.None? {
        return false;
      }
      challenges := map id | id in challenges && challenges[id].replicaId != binding.replicaId :: challenges[id];
      challenges := challenges[challengeId :=
        Challenge(binding.replicaId, binding.epoch, nextDeletion, now + CHALLENGE_LIFETIME, false)];
      return true;
    }

    method ReplicaAck(userId: string, binding: Binding, credential: Credential,
        challengeId: string) returns (outcome: AckOutcome)
      modifies this`challenges, this`replicas
      ensures (State(), outcome) == AcknowledgeChallenge(old(State()), userId, binding, credential, challengeId)
    {
      var replica := LockReplica(State(), userId, binding, credential);
      if replica.None? {
        return AckInvalid;
      }
      if challengeId !in challenges {
        return AckRejected;
      }
      var challenge := challenges[challengeId];
      if challenge.replicaId != binding.replicaId || challenge.epoch != binding.epoch || challenge.acknowledged ||
         now > challenge.expiresAt || challenge.target < floor {
        return AckRejected;
      }
      challenges := challenges[challengeId := challenge.(acknowledged := true)];
      replicas := replicas[binding.replicaId :=
        replica.value.(observedAt := Some(now), acknowledgedSequence := Some(challenge.target))];
      return AckDone;
    }
  }
}
