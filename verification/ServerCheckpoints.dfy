/** Which replicas may have an effect at all: only those that acknowledged a checkpoint in their current epoch, not long
    ago, and not behind what the server has already purged. */
module ServerCheckpoints {
  import opened Basics
  import opened CommandProtocol
  import opened ServerState
  import opened ServerRuns

  // ---- commands leave replicas alone ---

  lemma ExecuteKeepsReplicas(s: Server, user: string, binding: Binding, credential: Credential, commands: seq<Command>,
      attempt: int)
    requires WellFormedBatch(commands)
    ensures var t := Execute(s, user, binding, credential, commands, attempt).0;
            t.replicas == s.replicas && t.windows == s.windows && t.now == s.now
  {
    hide Stale, LockReplica, AllGranted, AnyStaleIncarnation, AnyConflict, AllMatch, RefuseFirst, ApplyFirst, Results;
    if AllPresent(s, commands) {
      RefuseKeepsReplicas(s, user, binding, commands, StaleIncarnation);
      RefuseKeepsReplicas(s, user, binding, commands, OptimisticConflict);
      ApplyKeepsReplicas(s, user, binding, commands, |commands|);
    }
  }

  lemma RefuseKeepsReplicas(s: Server, user: string, binding: Binding, commands: seq<Command>, code: ResultCode)
    requires AllPresent(s, commands)
    ensures var t := RefuseFirst(s, user, binding, commands, code, |commands|);
            t.replicas == s.replicas && t.windows == s.windows && t.now == s.now
  {
    var t := RefuseFirst(s, user, binding, commands, code, |commands|);
    assert t.(receipts := s.receipts) == s;
  }

  lemma {:induction false} ApplyKeepsReplicas(s: Server, user: string, binding: Binding, commands: seq<Command>, n: nat)
    requires n <= |commands| && AllPresent(s, commands)
    ensures var t := ApplyFirst(s, user, binding, commands, n);
            t.replicas == s.replicas && t.windows == s.windows && t.now == s.now
  {
    if n > 0 {
      ApplyKeepsReplicas(s, user, binding, commands, n - 1);
    }
  }

  // ---- where a checkpoint comes from ---

  /** This transaction acknowledges a challenge of the replica. */
  ghost predicate Checkpoints(s: Server, a: Action, id: string) {
    && a.Observed? && a.binding.replicaId == id
    && AcknowledgeChallenge(s, a.userId, a.binding, a.credential, a.challengeId).1.AckDone?
    && a.challengeId in s.challenges
  }

  ghost predicate Observed(s: Server, id: string) {
    id in s.replicas && s.replicas[id].observedAt.Some?
  }

  ghost predicate SameCheckpoint(s: Server, t: Server, id: string) {
    && id in s.replicas && id in t.replicas
    && s.replicas[id].observedAt == t.replicas[id].observedAt && s.replicas[id].epoch == t.replicas[id].epoch
    && s.replicas[id].acknowledgedSequence == t.replicas[id].acknowledgedSequence
  }

  /** What an acknowledged challenge writes. */
  ghost predicate CheckpointOf(s: Server, a: Action, t: Server, id: string) {
    && Checkpoints(s, a, id) && id in t.replicas
    && t.replicas[id].observedAt == Some(s.now) && t.replicas[id].epoch == a.binding.epoch
    && t.replicas[id].acknowledgedSequence == Some(s.challenges[a.challengeId].target)
    && s.floor <= s.challenges[a.challengeId].target
  }

  lemma CheckpointStep(s: Server, a: Action, id: string)
    requires Enabled(s, a) && Observed(Step(s, a), id)
    ensures SameCheckpoint(s, Step(s, a), id) || CheckpointOf(s, a, Step(s, a), id)
  {
    hide Stale, WellFormedBatch, Execute;
    if a.ExecuteCommands? {
      ExecuteKeepsReplicas(s, a.userId, a.binding, a.credential, a.commands, a.attempt);
    }
  }

  ghost predicate NoCheckpoints(s: Server) {
    forall id :: id in s.replicas ==> s.replicas[id].observedAt.None?
  }

  lemma {:induction false} CheckpointOrigin(states: seq<Server>, actions: seq<Action>, i: nat,
      id: string) returns (j: nat)
    requires IsRun(states, actions) && NoCheckpoints(states[0]) && i < |states| && Observed(states[i], id)
    ensures j < i && CheckpointOf(states[j], actions[j], states[j + 1], id) &&
        SameCheckpoint(states[j + 1], states[i], id)
  {
    hide Step, Enabled;
    CheckpointStep(states[i - 1], actions[i - 1], id);
    if CheckpointOf(states[i - 1], actions[i - 1], states[i], id) {
      j := i - 1;
    } else {
      j := CheckpointOrigin(states, actions, i - 1, id);
    }
  }

  /** A refused replica changes nothing. */
  lemma GateShut(s: Server, user: string, binding: Binding, credential: Credential, commands: seq<Command>,
      attempt: int)
    requires WellFormedBatch(commands)
    requires LockReplica(s, user, binding, credential).None? ||
        Stale(s, LockReplica(s, user, binding, credential).value)
    ensures Execute(s, user, binding, credential, commands, attempt).0 == s
  {
    hide Stale, LockReplica, WellFormedBatch;
  }

  lemma EffectIsGated(s: Server, a: Action, key: Key)
    requires Enabled(s, a) && Changes(s, a, key)
    ensures a.ExecuteCommands? && LockReplica(s, a.userId, a.binding, a.credential).Some?
    ensures !Stale(s, LockReplica(s, a.userId, a.binding, a.credential).value)
  {
    hide Stale, LockReplica, Execute, WellFormedBatch;
    var row := LockReplica(s, a.userId, a.binding, a.credential);
    if row.None? || Stale(s, row.value) {
      GateShut(s, a.userId, a.binding, a.credential, a.commands, a.attempt);
    }
  }

  /** A command has an effect only if its replica acknowledged a checkpoint earlier in the run, in the very epoch the
      command is bound to, at most ninety days before, and with a target the graveyard floor has not passed since. */
  lemma EffectsNeedCheckpoint(states: seq<Server>, actions: seq<Action>, i: nat, key: Key) returns (j: nat)
    requires IsRun(states, actions) && NoCheckpoints(states[0]) && i < |actions| && Changes(states[i], actions[i], key)
    ensures j < i && Checkpoints(states[j], actions[j], actions[i].binding.replicaId)
    ensures actions[j].binding == actions[i].binding
    ensures states[i].now <= states[j].now + NINETY_DAYS
    ensures states[i].floor <= states[j].challenges[actions[j].challengeId].target
  {
    hide Step, Enabled, Changes, AcknowledgeChallenge;
    EffectIsGated(states[i], actions[i], key);
    j := CheckpointOrigin(states, actions, i, actions[i].binding.replicaId);
  }

  /** Resetting a replica takes its checkpoint away: until it acknowledges another one, nothing it sends has an
      effect. */
  lemma ResetShutsGate(s: Server, user: string, binding: Binding, credential: Credential, requestId: string)
    ensures var (t, outcome) := ResetReplica(s, user, binding, credential, requestId);
            outcome.ResetDone? && t != s ==>
              binding.replicaId in t.replicas && !Observed(t, binding.replicaId) &&
                  Stale(t, t.replicas[binding.replicaId])
  {
  }

  // ---- challenges and acknowledgements, one call at a time ---

  /** A challenge replaces every earlier one of its replica, asks for what has been deleted so far, and leaves the
      challenges of other replicas alone. */
  lemma ChallengeReplaces(s: Server, user: string, binding: Binding, credential: Credential, challengeId: string,
      other: string)
    requires challengeId in s.challenges ==> s.challenges[challengeId].replicaId == binding.replicaId
    ensures var (t, issued) := IssueChallenge(s, user, binding, credential, challengeId);
            if !issued then t == s
            else if other in s.challenges && s.challenges[other].replicaId != binding.replicaId
            then other in t.challenges && t.challenges[other] == s.challenges[other]
            else (other in t.challenges <==> other == challengeId) &&
                 t.challenges[challengeId].target == s.nextDeletion && !t.challenges[challengeId].acknowledged
  {
    hide LockReplica;
  }

  /** A challenge counts once: acknowledging it again, at once or at any later time, is refused and changes nothing. */
  lemma AcknowledgedOnce(s: Server, user: string, binding: Binding, credential: Credential, challengeId: string,
      now: int)
    requires AcknowledgeChallenge(s, user, binding, credential, challengeId).1.AckDone?
    ensures var t := AcknowledgeChallenge(s, user, binding, credential, challengeId).0.(now := now);
            AcknowledgeChallenge(t, user, binding, credential, challengeId) == (t, AckRejected)
  {
  }

  /** Exactly when an acknowledgement counts, and that it touches no other replica and no other challenge. */
  lemma AcknowledgedExactly(s: Server, user: string, binding: Binding, credential: Credential, challengeId: string)
    ensures var (t, outcome) := AcknowledgeChallenge(s, user, binding, credential, challengeId);
            && (outcome.AckDone? <==>
                  && LockReplica(s, user, binding, credential).Some? && challengeId in s.challenges
                  && s.challenges[challengeId].replicaId == binding.replicaId
                  && s.challenges[challengeId].epoch == binding.epoch && !s.challenges[challengeId].acknowledged
                  && s.floor <= s.challenges[challengeId].target && s.now <= s.challenges[challengeId].expiresAt)
            && (!outcome.AckDone? ==> t == s)
            && (forall id :: id in s.replicas && id != binding.replicaId ==> id in t.replicas && t.replicas[id] == s.replicas[id])
            && (forall id :: id in s.challenges && id != challengeId ==>
                  id in t.challenges && t.challenges[id] == s.challenges[id])
            && (outcome.AckDone? ==> !Stale(t, t.replicas[binding.replicaId]))
  {
  }

  /** Acknowledging a reset again succeeds and changes nothing. */
  lemma ResetAckIdempotent(s: Server, user: string, binding: Binding, credential: Credential, requestId: string)
    requires AcknowledgeReset(s, user, binding, credential, requestId).1
    ensures var t := AcknowledgeReset(s, user, binding, credential, requestId).0;
            AcknowledgeReset(t, user, binding, credential, requestId) == (t, true)
  {
  }

  /** Repeating a reset request before its acknowledgement gives the same session and changes nothing. */
  lemma ResetIdempotent(s: Server, user: string, binding: Binding, credential: Credential, requestId: string)
    requires ResetReplica(s, user, binding, credential, requestId).1.ResetDone?
    ensures var (t, outcome) := ResetReplica(s, user, binding, credential, requestId);
            ResetReplica(t, user, binding, credential, requestId) == (t, outcome)
  {
  }
}
