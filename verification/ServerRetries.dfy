/** Sending the same batch again changes nothing and reports the same outcome. */
module ServerRetries {
  import opened Basics
  import opened CommandProtocol
  import opened ServerState

  /** The same outcome, told a second time: an applied command now reads as already applied. */
  predicate SameStory(first: CommandResult, second: CommandResult) {
    && second.commandId == first.commandId && second.resourceId == first.resourceId && second.digest == first.digest
    && second.state == first.state && second.previousVersion == first.previousVersion &&
        second.currentVersion == first.currentVersion
    && second.code == if first.code == AppliedCode then AlreadyApplied else first.code
  }

  ghost predicate SameStories(first: seq<CommandResult>, second: seq<CommandResult>) {
    |first| == |second| && forall i :: 0 <= i < |first| ==> SameStory(first[i], second[i])
  }

  /** What the checks before the effect read. */
  ghost predicate SameGate(s: Server, t: Server) {
    && t.replicas == s.replicas && t.grants == s.grants && t.now == s.now && t.floor == s.floor
    && t.resources.Keys == s.resources.Keys
  }

  ghost predicate AllRecorded(t: Server, userId: string, binding: Binding, commands: seq<Command>) {
    AllReceipts(t, userId, commands) && AllMatch(t, userId, binding, commands)
  }

  lemma {:induction false} RefuseGate(s: Server, userId: string, binding: Binding, commands: seq<Command>,
      code: ResultCode)
    requires AllPresent(s, commands)
    ensures SameGate(s, RefuseFirst(s, userId, binding, commands, code, |commands|))
  {
    var t := RefuseFirst(s, userId, binding, commands, code, |commands|);
    assert t.(receipts := s.receipts) == s;
  }

  lemma {:induction false} ApplyGate(s: Server, userId: string, binding: Binding, commands: seq<Command>, n: nat)
    requires n <= |commands| && AllPresent(s, commands)
    ensures SameGate(s, ApplyFirst(s, userId, binding, commands, n))
  {
    if n > 0 {
      ApplyGate(s, userId, binding, commands, n - 1);
    }
  }

  lemma RefuseRecords(s: Server, userId: string, binding: Binding, commands: seq<Command>, code: ResultCode)
    requires AllPresent(s, commands) && DistinctIds(commands)
    ensures AllRecorded(RefuseFirst(s, userId, binding, commands, code, |commands|), userId, binding, commands)
  {
    hide DistinctIds, RefuseFirst;
    AllRefused(s, userId, binding, commands, code);
    forall i | 0 <= i < |commands| {
      RefusedReceipt(s, userId, binding, commands, code, |commands|, i);
    }
  }

  lemma ApplyRecords(s: Server, userId: string, binding: Binding, commands: seq<Command>)
    requires AllPresent(s, commands) && DistinctIds(commands)
    ensures AllRecorded(ApplyFirst(s, userId, binding, commands, |commands|), userId, binding, commands)
  {
    hide DistinctIds, ApplyFirst;
    AllApplied(s, userId, binding, commands);
    forall i | 0 <= i < |commands| {
      AppliedReceiptAt(s, userId, binding, commands, |commands|, i);
    }
  }

  lemma ReplayStories(t: Server, userId: string, commands: seq<Command>, first: int, second: int)
    requires AllReceipts(t, userId, commands)
    ensures SameStories(Results(t, userId, commands, first, false), Results(t, userId, commands, second, true))
  {
  }

  /** Once every command of the batch has its receipt, the transaction only replays. */
  lemma RecordedReplays(s: Server, t: Server, userId: string, binding: Binding, credential: Credential,
      commands: seq<Command>, attempt: int)
    requires WellFormedBatch(commands) && SameGate(s, t)
    requires LockReplica(s, userId, binding, credential).Some? &&
        !Stale(s, LockReplica(s, userId, binding, credential).value)
    requires AllGranted(s, userId, commands) && AllPresent(s, commands) && AllRecorded(t, userId, binding, commands)
    ensures Execute(t, userId, binding, credential, commands, attempt) == (t,
        Answered(200, Results(t, userId, commands, attempt, true)))
  {
    hide DistinctIds, Results, RefuseFirst, ApplyFirst, ReceiptMatches;
    assert AllPresent(t, commands);
    assert AllGranted(t, userId, commands);
    assert Key(userId, commands[0].commandId) in t.receipts;
    assert AnyReceipt(t, userId, commands);
  }

  /** A batch that was answered and is sent again leaves the server exactly as it was and gets the same
      outcome, as long as authority and replica are unchanged in between. */
  lemma RetryChangesNothing(s: Server, userId: string, binding: Binding, credential: Credential, commands: seq<Command>,
      first: int, second: int)
    requires WellFormedBatch(commands)
    ensures var (t, reply) := Execute(s, userId, binding, credential, commands, first);
            var (u, again) := Execute(t, userId, binding, credential, commands, second);
            && u == t
            && (reply.Answered? && reply.status == 200 && !AnyReceipt(s, userId, commands) ==>
                  again.Answered? && again.status == 200 && SameStories(reply.results, again.results))
            && (reply.Rejected? ==> again == reply)
  {
    hide Results, RefuseFirst, ApplyFirst, ReceiptMatches, AllRecorded, SameGate, SameStories, AnyConflict,
        AnyStaleIncarnation, AllMatch,
      AllGranted, AllReceipts, DistinctIds, Stale, LockReplica;
    if AllPresent(s, commands) && LockReplica(s, userId, binding, credential).Some? &&
       !Stale(s, LockReplica(s, userId, binding, credential).value) && AllGranted(s, userId, commands) {
      if !AnyReceipt(s, userId, commands) {
        FreshRetry(s, userId, binding, credential, commands, first, second);
      }
    }
  }

  lemma FreshRetry(s: Server, userId: string, binding: Binding, credential: Credential, commands: seq<Command>,
      first: int, second: int)
    requires WellFormedBatch(commands)
    requires LockReplica(s, userId, binding, credential).Some? &&
        !Stale(s, LockReplica(s, userId, binding, credential).value)
    requires AllGranted(s, userId, commands) && AllPresent(s, commands) && !AnyReceipt(s, userId, commands)
    ensures var (t, reply) := Execute(s, userId, binding, credential, commands, first);
            var (u, again) := Execute(t, userId, binding, credential, commands, second);
            u == t && reply.Answered? && again.Answered? && again.status == 200 &&
                SameStories(reply.results, again.results)
  {
    hide Results, RefuseFirst, ApplyFirst, ReceiptMatches, SameGate, SameStories, AnyConflict, AnyStaleIncarnation,
      AllGranted, DistinctIds, Stale, LockReplica, AllPresent, AnyReceipt, AllReceipts, AllMatch;
    var t := Execute(s, userId, binding, credential, commands, first).0;
    RefuseGate(s, userId, binding, commands, StaleIncarnation);
    RefuseGate(s, userId, binding, commands, OptimisticConflict);
    ApplyGate(s, userId, binding, commands, |commands|);
    RefuseRecords(s, userId, binding, commands, StaleIncarnation);
    RefuseRecords(s, userId, binding, commands, OptimisticConflict);
    ApplyRecords(s, userId, binding, commands);
    RecordedReplays(s, t, userId, binding, credential, commands, second);
    ReplayStories(t, userId, commands, first, second);
  }
}
