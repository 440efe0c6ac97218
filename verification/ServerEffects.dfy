/** The command transaction told by its tables: which of them let a batch take effect, what it then writes into each
    row, event and receipt, and what every refusal leaves behind. */
module ServerEffects {
  import opened Basics
  import opened CommandProtocol
  import opened RateWindow
  import opened ServerState
  import opened ServerRuns

  // ---- who may speak, and when ---

  /** The replica row of this session is enabled and carries its user, epoch and credential. */
  ghost predicate RowLocks(s: Server, user: string, session: Session) {
    && session.replicaId in s.replicas
    && var row := s.replicas[session.replicaId];
       row.userId == user && !row.disabled && row.epoch == session.epoch &&
       row.digest == CredentialDigest(session.credential)
  }

  /** The replica has acknowledged a checkpoint no more than ninety days ago and not below the graveyard floor. */
  ghost predicate UpToDate(s: Server, replicaId: string) {
    && replicaId in s.replicas
    && var row := s.replicas[replicaId];
       && row.observedAt.Some? && s.now - row.observedAt.value <= 7_776_000_000
       && row.acknowledgedSequence.Some? && s.floor <= row.acknowledgedSequence.value
  }

  /** The user holds the grant, and the resource still is the incarnation the command was made for. */
  ghost predicate Entitled(s: Server, user: string, resourceId: string, incarnationId: string) {
    && (user, resourceId) in s.grants
    && resourceId in s.resources && s.resources[resourceId].incarnationId == incarnationId
  }

  /** Every command is granted, meets a live row of its incarnation and version, and has no receipt yet. */
  ghost predicate Suits(s: Server, user: string, commands: seq<Command>) {
    forall i :: 0 <= i < |commands| ==>
      var c := commands[i];
      && Entitled(s, user, c.resourceId, c.incarnationId)
      && s.resources[c.resourceId].version == c.expectedVersion && !s.resources[c.resourceId].deleted
      && Key(user, c.commandId) !in s.receipts
  }

  lemma LockExactly(s: Server, user: string, binding: Binding, credential: Credential)
    ensures LockReplica(s, user, binding, credential).Some? <==>
        RowLocks(s, user, Session(binding.replicaId, binding.epoch, credential))
    ensures LockReplica(s, user, binding, credential).Some? ==>
        (!Stale(s, LockReplica(s, user, binding, credential).value) <==> UpToDate(s, binding.replicaId))
  {
  }

  // ---- what an effect writes ---

  /** The row of one applied command, field by field. */
  ghost predicate RowAfter(row: Resource, next: Resource, c: Command) {
    && next.incarnationId == row.incarnationId && next.version == row.version + 1
    && match c.kind
       case ResourceUpdate => next.payload == c.payload && next.deleted == row.deleted
       case ResourceSoftDelete => next.deleted && next.payload == row.payload
  }

  ghost predicate AppliedNote(receipt: Receipt, binding: Binding, c: Command) {
    && receipt.binding == binding && receipt.resourceId == c.resourceId
    && receipt.digest == Sha256(binding, c) && receipt.state == Applied && receipt.code == AppliedCode
    && receipt.previousVersion == c.expectedVersion && receipt.currentVersion == c.expectedVersion + 1
  }

  ghost predicate AppliedResult(result: CommandResult, binding: Binding, c: Command, attempt: int) {
    result == CommandResult(c.commandId, c.resourceId, Sha256(binding, c), Applied, AppliedCode, c.expectedVersion,
      c.expectedVersion + 1, attempt)
  }

  ghost predicate WrittenRows(before: map<string, Resource>, after: map<string, Resource>, commands: seq<Command>,
      n: nat)
    requires n <= |commands|
  {
    && after.Keys == before.Keys
    && (forall i :: 0 <= i < n && commands[i].resourceId in before ==>
          RowAfter(before[commands[i].resourceId], after[commands[i].resourceId], commands[i]))
    && (forall id :: id in before && (forall i :: 0 <= i < n ==> commands[i].resourceId != id) ==>
          after[id] == before[id])
  }

  ghost predicate WrittenEvents(before: seq<ChangeEvent>, after: seq<ChangeEvent>, user: string, commands: seq<Command>,
      n: nat)
    requires n <= |commands|
  {
    && |after| == |before| + n && after[..|before|] == before
    && (forall i :: 0 <= i < n ==>
          after[|before| + i] == ChangeEvent(Key(user, commands[i].commandId), commands[i].resourceId, i,
            commands[i].kind, commands[i].expectedVersion + 1))
  }

  ghost predicate WrittenReceipts(before: map<Key, Receipt>, after: map<Key, Receipt>, user: string, binding: Binding,
      commands: seq<Command>, n: nat)
    requires n <= |commands|
  {
    && (forall i :: 0 <= i < n ==>
          && Key(user, commands[i].commandId) in after
          && AppliedNote(after[Key(user, commands[i].commandId)], binding, commands[i]))
    && (forall key :: key in before && (forall i :: 0 <= i < n ==> Key(user, commands[i].commandId) != key) ==>
          key in after && after[key] == before[key])
    && (forall key :: key in after && key !in before ==>
          exists i :: 0 <= i < n && Key(user, commands[i].commandId) == key)
  }

  /** The tables after the first n commands, each table by itself. */
  ghost predicate WrittenFirst(s: Server, t: Server, user: string, binding: Binding, commands: seq<Command>, n: nat)
    requires n <= |commands|
  {
    && WrittenRows(s.resources, t.resources, commands, n)
    && WrittenEvents(s.events, t.events, user, commands, n)
    && WrittenReceipts(s.receipts, t.receipts, user, binding, commands, n)
    && t.nextDeletion == s.nextDeletion + Deletes(commands, n)
    && t.(resources := s.resources, events := s.events, receipts := s.receipts, nextDeletion := s.nextDeletion) == s
  }

  /** How many graveyard numbers the first n commands draw. */
  function Deletes(commands: seq<Command>, n: nat): nat
    requires n <= |commands|
  {
    if n == 0 then 0 else Deletes(commands, n - 1) + if commands[n - 1].kind.ResourceSoftDelete? then 1 else 0
  }

  lemma OneRow(before: map<string, Resource>, after: map<string, Resource>, commands: seq<Command>, n: nat)
    requires n < |commands| && WrittenRows(before, after, commands, n) && commands[n].resourceId in before
    requires forall i :: 0 <= i < n ==> commands[i].resourceId != commands[n].resourceId
    requires before[commands[n].resourceId].version == commands[n].expectedVersion
    ensures var id := commands[n].resourceId;
            WrittenRows(before, after[id := ApplyToResource(after[id], commands[n])], commands, n + 1)
  {
    var id := commands[n].resourceId;
    assert after[id] == before[id];
    assert RowAfter(before[id], ApplyToResource(after[id], commands[n]), commands[n]);
    hide RowAfter, ApplyToResource;
  }

  lemma OneEvent(before: seq<ChangeEvent>, after: seq<ChangeEvent>, user: string, commands: seq<Command>, n: nat)
    requires n < |commands| && WrittenEvents(before, after, user, commands, n)
    ensures WrittenEvents(before, after + [ChangeEvent(Key(user, commands[n].commandId), commands[n].resourceId, n,
        commands[n].kind, commands[n].expectedVersion + 1)], user, commands, n + 1)
  {
  }

  lemma OneReceipt(before: map<Key, Receipt>, after: map<Key, Receipt>, user: string, binding: Binding,
      commands: seq<Command>, n: nat)
    requires n < |commands| && DistinctIds(commands) && WrittenReceipts(before, after, user, binding, commands, n)
    ensures WrittenReceipts(before, after[Key(user, commands[n].commandId) := AppliedReceipt(binding, commands[n])],
        user, binding, commands, n + 1)
  {
    var own := Key(user, commands[n].commandId);
    var next := after[own := AppliedReceipt(binding, commands[n])];
    assert AppliedNote(next[own], binding, commands[n]);
    hide AppliedNote, AppliedReceipt;
    forall key | key in next && key !in before
      ensures exists i :: 0 <= i < n + 1 && Key(user, commands[i].commandId) == key
    {
      if key != own {
        var i :| 0 <= i < n && Key(user, commands[i].commandId) == key;
      }
    }
  }

  lemma OneWritten(s: Server, t: Server, user: string, binding: Binding, commands: seq<Command>, n: nat)
    requires n < |commands| && AllPresent(s, commands) && WellFormedBatch(commands) && Suits(s, user, commands)
    requires WrittenFirst(s, t, user, binding, commands, n) && commands[n].resourceId in t.resources
    ensures WrittenFirst(s, ApplyOne(t, user, binding, commands[n], n), user, binding, commands, n + 1)
  {
    assert s.resources[commands[n].resourceId].version == commands[n].expectedVersion;
    hide WrittenRows, WrittenEvents, WrittenReceipts, ApplyToResource, AppliedReceipt, DistinctIds, Suits;
    OneRow(s.resources, t.resources, commands, n);
    OneEvent(s.events, t.events, user, commands, n);
    OneReceipt(s.receipts, t.receipts, user, binding, commands, n);
  }

  lemma {:induction false} AppliedWrites(s: Server, user: string, binding: Binding, commands: seq<Command>, n: nat)
    requires n <= |commands| && AllPresent(s, commands) && WellFormedBatch(commands) && Suits(s, user, commands)
    ensures WrittenFirst(s, ApplyFirst(s, user, binding, commands, n), user, binding, commands, n)
  {
    hide WrittenFirst, ApplyOne, WellFormedBatch, Suits;
    if n == 0 {
      NothingWritten(s, user, binding, commands);
    } else {
      AppliedWrites(s, user, binding, commands, n - 1);
      OneWritten(s, ApplyFirst(s, user, binding, commands, n - 1), user, binding, commands, n - 1);
    }
  }

  lemma NothingWritten(s: Server, user: string, binding: Binding, commands: seq<Command>)
    requires AllPresent(s, commands)
    ensures WrittenFirst(s, s, user, binding, commands, 0)
  {
  }

  lemma SuitsAdmits(s: Server, user: string, commands: seq<Command>)
    requires WellFormedBatch(commands)
    ensures Suits(s, user, commands) <==>
              && AllGranted(s, user, commands) && AllPresent(s, commands) && !AnyReceipt(s, user, commands)
              && !AnyStaleIncarnation(s, commands) && !AnyConflict(s, commands)
  {
  }

  /** A batch takes effect exactly when its replica locks and is up to date and every command fits: then every row,
      event and receipt is written as listed, and otherwise no row, event or graveyard number changes at all. */
  lemma EffectExactly(s: Server, user: string, binding: Binding, credential: Credential, commands: seq<Command>,
      attempt: int)
    requires WellFormedBatch(commands)
    ensures var (t, reply) := Execute(s, user, binding, credential, commands, attempt);
            if RowLocks(s, user, Session(binding.replicaId, binding.epoch, credential)) &&
               UpToDate(s, binding.replicaId) && Suits(s, user, commands)
            then
              && AllPresent(s, commands) && WrittenFirst(s, t, user, binding, commands, |commands|)
              && reply.Answered? && reply.status == 200 && |reply.results| == |commands|
              && (forall i :: 0 <= i < |commands| ==> AppliedResult(reply.results[i], binding, commands[i], attempt))
            else t.resources == s.resources && t.events == s.events && t.nextDeletion == s.nextDeletion
  {
    hide Stale, LockReplica, RowLocks, UpToDate, AnyConflict, AnyStaleIncarnation, AnyReceipt, AllGranted, Suits,
        WrittenFirst, RefuseFirst, ApplyFirst, WellFormedBatch, AllMatch, AllReceipts;
    BatchIds(commands);
    LockExactly(s, user, binding, credential);
    SuitsAdmits(s, user, commands);
    if Suits(s, user, commands) {
      AppliedWrites(s, user, binding, commands, |commands|);
      AppliedAnswer(s, user, binding, commands, attempt);
    }
  }

  lemma BatchIds(commands: seq<Command>)
    requires WellFormedBatch(commands)
    ensures commands != [] && DistinctIds(commands)
  {
    hide DistinctIds;
  }

  lemma AppliedAnswer(s: Server, user: string, binding: Binding, commands: seq<Command>, attempt: int)
    requires AllPresent(s, commands) && DistinctIds(commands)
    ensures var reply := Apply(s, user, binding, commands, attempt).1;
            && reply.Answered? && reply.status == 200 && |reply.results| == |commands|
            && (forall i :: 0 <= i < |commands| ==> AppliedResult(reply.results[i], binding, commands[i], attempt))
  {
    hide DistinctIds, ApplyFirst;
    AllApplied(s, user, binding, commands);
    forall i | 0 <= i < |commands|
      ensures AppliedResult(Apply(s, user, binding, commands, attempt).1.results[i], binding, commands[i], attempt)
    {
      AppliedReceiptAt(s, user, binding, commands, |commands|, i);
    }
  }

  // ---- refusals ---

  /** The receipt of a denial: everything in it comes from the request. */
  ghost predicate DeniedNote(receipt: Receipt, binding: Binding, c: Command) {
    && receipt.binding == binding && receipt.resourceId == c.resourceId && receipt.digest == Sha256(binding, c)
    && receipt.state == Denied && receipt.code == CommandDenied
    && receipt.previousVersion == c.expectedVersion && receipt.currentVersion == c.expectedVersion
  }

  /** A batch with any ungranted resource changes nothing but, at most, a denied receipt for its first command; and from
      a replica that locks and is up to date it does leave that receipt and is answered with the denial. */
  lemma UngrantedIsDenied(s: Server, user: string, binding: Binding, credential: Credential, commands: seq<Command>,
      attempt: int, i: nat)
    requires WellFormedBatch(commands) && i < |commands| && (user, commands[i].resourceId) !in s.grants
    ensures var (t, reply) := Execute(s, user, binding, credential, commands, attempt);
            var key := Key(user, commands[0].commandId);
            var open := RowLocks(s, user, Session(binding.replicaId, binding.epoch, credential)) &&
                UpToDate(s, binding.replicaId);
            && (open && key !in s.receipts ==> reply.Answered? && key in t.receipts)
            && t.(receipts := s.receipts) == s
            && (forall k :: k in s.receipts ==> k in t.receipts && t.receipts[k] == s.receipts[k])
            && (forall k :: k in t.receipts && k !in s.receipts ==> k == key)
            && (key in t.receipts && key !in s.receipts ==> DeniedNote(t.receipts[key], binding, commands[0]))
            && (reply.Answered? ==>
                  reply.status == 403 && |reply.results| == 1 && reply.results[0].state == Denied &&
                  reply.results[0].code == CommandDenied && reply.results[0].commandId == commands[0].commandId)
  {
    hide Stale, LockReplica, RowLocks, UpToDate, WellFormedBatch;
    BatchIds(commands);
    LockExactly(s, user, binding, credential);
    assert !AllGranted(s, user, commands);
  }

  /** The receipt of a conflict: the version asked for, and the one that was there. */
  ghost predicate ConflictNote(receipt: Receipt, binding: Binding, c: Command, code: ResultCode, found: int) {
    && receipt.binding == binding && receipt.resourceId == c.resourceId && receipt.digest == Sha256(binding, c)
    && receipt.state == Conflict && receipt.code == code
    && receipt.previousVersion == c.expectedVersion && receipt.currentVersion == found
  }

  ghost predicate GrantedThere(s: Server, user: string, commands: seq<Command>) {
    forall i :: 0 <= i < |commands| ==>
        (user, commands[i].resourceId) in s.grants && commands[i].resourceId in s.resources
  }

  /** Some command was made for another incarnation. */
  ghost predicate Moved(s: Server, commands: seq<Command>)
    requires forall i :: 0 <= i < |commands| ==> commands[i].resourceId in s.resources
  {
    !forall i :: 0 <= i < |commands| ==>
        s.resources[commands[i].resourceId].incarnationId == commands[i].incarnationId
  }

  ghost predicate Unheard(s: Server, user: string, commands: seq<Command>) {
    forall i :: 0 <= i < |commands| ==> Key(user, commands[i].commandId) !in s.receipts
  }

  /** A granted batch that is new and meets a wrong incarnation, version or deleted row is answered with one conflict
      for each command: a stale incarnation anywhere names all of them so, and each receipt shows the version found.
      */
  lemma ConflictExactly(s: Server, user: string, binding: Binding, credential: Credential, commands: seq<Command>,
      attempt: int, i: nat)
    requires WellFormedBatch(commands) && i < |commands|
    requires RowLocks(s, user, Session(binding.replicaId, binding.epoch, credential)) && UpToDate(s, binding.replicaId)
    requires GrantedThere(s, user, commands) && Unheard(s, user, commands) && !Suits(s, user, commands)
    ensures var (t, reply) := Execute(s, user, binding, credential, commands, attempt);
            var code := if Moved(s, commands) then StaleIncarnation else OptimisticConflict;
            var key, found := Key(user, commands[i].commandId), s.resources[commands[i].resourceId].version;
            && t.(receipts := s.receipts) == s
            && key in t.receipts && ConflictNote(t.receipts[key], binding, commands[i], code, found)
            && reply.Answered? && reply.status == 200 && |reply.results| == |commands|
            && reply.results[i] == CommandResult(commands[i].commandId, commands[i].resourceId,
                 Sha256(binding, commands[i]), Conflict, code, commands[i].expectedVersion, found, attempt)
  {
    hide Stale, LockReplica, RowLocks, UpToDate, AnyConflict, AnyReceipt, Suits, RefuseFirst, ApplyFirst, DistinctIds;
    LockExactly(s, user, binding, credential);
    SuitsAdmits(s, user, commands);
    UnheardExactly(s, user, commands);
    assert AllGranted(s, user, commands) && AllPresent(s, commands);
    var code := if AnyStaleIncarnation(s, commands) then StaleIncarnation else OptimisticConflict;
    AllRefused(s, user, binding, commands, code);
    RefusedReceipt(s, user, binding, commands, code, |commands|, i);
  }

  lemma UnheardExactly(s: Server, user: string, commands: seq<Command>)
    ensures Unheard(s, user, commands) <==> !AnyReceipt(s, user, commands)
  {
  }

  ghost predicate SameRequest(receipt: Receipt, binding: Binding, c: Command) {
    receipt.binding == binding && receipt.resourceId == c.resourceId && receipt.digest == Sha256(binding, c)
  }

  /** A granted batch that was heard before changes nothing. It is answered from the receipts exactly when all its
      commands have one and every one is of this very request; an applied command then reads as already applied. */
  lemma ReplayExactly(s: Server, user: string, binding: Binding, credential: Credential, commands: seq<Command>,
      attempt: int)
    requires WellFormedBatch(commands)
    requires RowLocks(s, user, Session(binding.replicaId, binding.epoch, credential)) && UpToDate(s, binding.replicaId)
    requires GrantedThere(s, user, commands) && !Unheard(s, user, commands)
    ensures var (t, reply) := Execute(s, user, binding, credential, commands, attempt);
            var all := forall i :: 0 <= i < |commands| ==> Key(user, commands[i].commandId) in s.receipts;
            var same := all && forall i :: 0 <= i < |commands| ==>
                SameRequest(s.receipts[Key(user, commands[i].commandId)], binding, commands[i]);
            && t == s
            && (!all ==> reply == Rejected(409, PartialIdempotencyMatch))
            && (all && !same ==> reply == Rejected(409, IdempotencyConflict))
            && (same ==>
                  && reply.Answered? && reply.status == 200 && |reply.results| == |commands|
                  && forall i :: 0 <= i < |commands| ==>
                       var receipt := s.receipts[Key(user, commands[i].commandId)];
                       reply.results[i] == CommandResult(commands[i].commandId, receipt.resourceId, receipt.digest,
                         receipt.state, if receipt.code == AppliedCode then AlreadyApplied else receipt.code,
                         receipt.previousVersion, receipt.currentVersion, attempt))
  {
    hide Stale, LockReplica, RowLocks, UpToDate, AnyConflict, AnyStaleIncarnation, AnyReceipt, RefuseFirst, ApplyFirst,
        DistinctIds;
    LockExactly(s, user, binding, credential);
    UnheardExactly(s, user, commands);
    assert AllGranted(s, user, commands) && AllPresent(s, commands);
  }

  /** Before any of that: a session whose row does not lock, one that is not up to date, and a missing target. */
  lemma GateExactly(s: Server, user: string, binding: Binding, credential: Credential, commands: seq<Command>,
      attempt: int)
    requires WellFormedBatch(commands)
    ensures var (t, reply) := Execute(s, user, binding, credential, commands, attempt);
            && (reply == Rejected(403, InvalidReplica) <==>
                  !RowLocks(s, user, Session(binding.replicaId, binding.epoch, credential)))
            && (reply == Rejected(428, ReplicaResetRequired) <==>
                  RowLocks(s, user, Session(binding.replicaId, binding.epoch, credential)) &&
                  !UpToDate(s, binding.replicaId))
            && (reply == Rejected(403, TargetDenied) <==>
                  && RowLocks(s, user, Session(binding.replicaId, binding.epoch, credential))
                  && UpToDate(s, binding.replicaId)
                  && (forall i :: 0 <= i < |commands| ==> (user, commands[i].resourceId) in s.grants)
                  && exists i :: 0 <= i < |commands| && commands[i].resourceId !in s.resources)
            && (reply.Rejected? ==> t == s)
  {
    hide Stale, LockReplica, RowLocks, UpToDate, AnyConflict, AnyStaleIncarnation, AnyReceipt, RefuseFirst, ApplyFirst,
        DistinctIds, AllMatch, AllReceipts, Results;
    LockExactly(s, user, binding, credential);
  }

  // ---- sessions ---

  /** A reset rotates exactly a session that locks and is not up to date any more: one epoch on, a credential derived
      from this very request, the old digest kept, the checkpoint and the rate window gone, and no other row touched. */
  lemma ResetExactly(s: Server, user: string, session: Session, requestId: string)
    ensures var id, epoch := session.replicaId, session.epoch;
            var (t, outcome) := ResetReplica(s, user, Binding(id, epoch), session.credential, requestId);
            var next := Session(id, epoch + 1, Rotated(id, requestId, epoch + 1));
            if RowLocks(s, user, session) && !UpToDate(s, id) then
              && outcome == ResetDone(next) && RowLocks(t, user, next)
              && t.replicas[id].previousDigest == Some(CredentialDigest(session.credential))
              && t.replicas[id].stagedReset == Some(requestId)
              && t.replicas[id].observedAt.None? && t.replicas[id].acknowledgedSequence.None?
              && t.replicas - {id} == s.replicas - {id} && t.windows == s.windows - {id}
              && t.(replicas := s.replicas, windows := s.windows) == s
            else
              && t == s && (outcome.ResetCurrent? <==> RowLocks(s, user, session))
              && (outcome.ResetDone? ==> outcome.session == next)
              && (outcome.ResetDone? ==> RowStillStaged(s, user, session, next, requestId))
  {
  }

  /** The row is already in the next epoch, by this very request of this very session, and not acknowledged yet. */
  ghost predicate RowStillStaged(s: Server, user: string, session: Session, next: Session, requestId: string) {
    && RowLocks(s, user, next)
    && s.replicas[next.replicaId].previousDigest == Some(CredentialDigest(session.credential))
    && s.replicas[next.replicaId].stagedReset == Some(requestId)
  }

  /** An acknowledgement clears what was staged exactly when it names the staged request; a repeat is answered alike. */
  lemma ResetAckExactly(s: Server, user: string, session: Session, requestId: string)
    ensures var id := session.replicaId;
            var (t, done) := AcknowledgeReset(s, user, Binding(id, session.epoch), session.credential, requestId);
            && (done ==> RowLocks(s, user, session) && RowLocks(t, user, session))
            && (done ==> t.replicas[id].previousDigest.None? && t.replicas[id].acknowledgedReset == Some(requestId))
            && (done ==> t.replicas - {id} == s.replicas - {id} && t.(replicas := s.replicas) == s)
            && (!done ==> t == s)
            && (RowLocks(s, user, session) ==>
                  (done <==>
                    || (s.replicas[id].acknowledgedReset == Some(requestId) && s.replicas[id].previousDigest.None?)
                    || (s.replicas[id].stagedReset == Some(requestId) && s.replicas[id].previousDigest.Some?)))
  {
  }

  /** A user registers a new replica exactly while fewer than sixteen are registered; it starts in epoch one, enabled,
      without a checkpoint, and no other row changes. */
  lemma RegisterExactly(s: Server, user: string, replicaId: string, credential: Credential)
    ensures var (t, session) := Register(s, user, replicaId, credential);
            var owned := set id | id in s.replicas && s.replicas[id].userId == user;
            if replicaId !in s.replicas && |owned| < 16 then
              && session == Some(Session(replicaId, 1, credential)) && RowLocks(t, user, session.value)
              && !UpToDate(t, replicaId) && t.replicas[replicaId].stagedReset.None?
              && t.replicas[replicaId].previousDigest.None? && t.replicas - {replicaId} == s.replicas
              && t.(replicas := s.replicas) == s
            else session.None? && t == s
  {
  }

  // ---- runs ---

  /** In every run a command transaction changes a row only for a command of its batch that is granted, meets that
      incarnation and version alive, and has no receipt; and then it changes the row as that command says. */
  lemma EveryEffectIsEntitled(states: seq<Server>, actions: seq<Action>, i: nat, id: string) returns (c: nat)
    requires IsRun(states, actions) && i < |actions| && actions[i].ExecuteCommands?
    requires id in states[i].resources && id in states[i + 1].resources
    requires states[i + 1].resources[id] != states[i].resources[id]
    ensures c < |actions[i].commands| && actions[i].commands[c].resourceId == id
    ensures var a, command, s := actions[i], actions[i].commands[c], states[i];
            && RowLocks(s, a.userId, Session(a.binding.replicaId, a.binding.epoch, a.credential))
            && UpToDate(s, a.binding.replicaId)
            && Entitled(s, a.userId, id, command.incarnationId)
            && s.resources[id].version == command.expectedVersion && !s.resources[id].deleted
            && Key(a.userId, command.commandId) !in s.receipts
            && RowAfter(s.resources[id], states[i + 1].resources[id], command)
  {
    var a, s, t := actions[i], states[i], states[i + 1];
    RunStep(states, actions, i);
    hide IsRun, Enabled, RowLocks, UpToDate, Execute, AppliedNote, RowAfter, DistinctIds;
    EffectExactly(s, a.userId, a.binding, a.credential, a.commands, a.attempt);
    assert exists j :: 0 <= j < |a.commands| && a.commands[j].resourceId == id;
    c :| 0 <= c < |a.commands| && a.commands[c].resourceId == id;
  }

  lemma RunStep(states: seq<Server>, actions: seq<Action>, i: nat)
    requires IsRun(states, actions) && i < |actions| && actions[i].ExecuteCommands?
    ensures var a := actions[i];
            && |states| == |actions| + 1 && WellFormedBatch(a.commands)
            && states[i + 1] == Execute(states[i], a.userId, a.binding, a.credential, a.commands, a.attempt).0
  {
    hide WellFormedBatch, Execute;
  }
}
