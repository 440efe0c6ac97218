/** The end-to-end statement about a reset: every command is accounted for once, and a payload survives only
    where authority was confirmed twice and the resource is still live locally. */
module ReplicaRetention {
  import opened Basics
  import opened CommandProtocol
  import opened Reservations
  import opened ServerState
  import opened ServerRuns
  import opened ApplicationState
  import opened QuarantineStore
  import opened ReplicaClient
  import opened ReplicaSafety
  import opened ReplicaOutcomes
  import opened ReplicaRotation
  import opened ReplicaGoal
  import opened ReplicaReset
  import opened ReplicaRecovery

  // ---- when was it authorized? ---

  /** This world is about to consult the local replica for the pair, with the server's consent in hand. */
  ghost predicate Consenting(w: World, pair: (string, string)) {
    && w.process.Up? && w.process.mem.pc.Finalizing? && w.process.mem.pc.asked == Some(true)
    && |w.process.mem.pc.additions| < |w.process.mem.pc.retained.pending|
    && var entry := w.process.mem.pc.retained.pending[|w.process.mem.pc.additions|].entry;
       pair == (entry.resourceId, entry.incarnationId)
  }

  ghost predicate Confirms(w: World, pair: (string, string)) {
    Authorized(w.server, w.user, pair.0, pair.1)
  }

  lemma {:induction false} ApprovedWhen(worlds: seq<World>, steps: seq<Step>, i: nat, n: nat,
      pair: (string, string)) returns (j: nat)
    requires |worlds| == |steps| + 1 && i <= n < |worlds|
    requires pair in Approved(worlds, steps, i, n)
    ensures i <= j < n && Consenting(worlds[j], pair) && pair in worlds[j].disk.rows
    decreases n
  {
    if pair in Approval(worlds[n - 1], steps[n - 1]) {
      j := n - 1;
    } else {
      hide Approval;
      j := ApprovedWhen(worlds, steps, i, n - 1, pair);
    }
  }

  /** Consent in hand was there before, or was just given by the server. */
  lemma ConsentOrigin(w: World, step: Step, collation: string -> real, pair: (string, string))
    requires Consenting(Next(w, step, collation), pair)
    ensures Consenting(w, pair) || Confirms(w, pair)
  {
    hide Next, Confirms, Advance;
    if step.Open? {
      OpenStep(w, collation);
      OpenedElsewhere(w.disk);
    } else if step.Program? && w.process.Up? {
      ProgramStep(w, step.token, collation);
      ProgramConsent(w, w.process.mem, step.token, collation, pair);
    } else if step.Program? {
      DownProgram(w, step, collation);
    } else if w.process.Up? && Connected(w.process.mem.pc) {
      ConnectedElsewhere(w, step, collation);
    } else {
      BusyStep(w, step, collation);
    }
  }

  lemma OpenedElsewhere(disk: Disk)
    ensures OpenProcess(disk).Up? ==> !OpenProcess(disk).mem.pc.Finalizing?
  {
    hide OpenChecks, ReadBack;
  }

  lemma ConnectedElsewhere(w: World, step: Step, collation: string -> real)
    requires w.process.Up? && Connected(w.process.mem.pc)
    ensures var next := Next(w, step, collation);
            next.process.Up? && step != Open ==> !next.process.mem.pc.Finalizing?
  {
    hide ServerRuns.Step, Enabled, Handle, OpenProcess, Admits, AddAll, OverlayFor, HandleCommand, Judge, PersistAll,
        MarkAll, CommandDigest,
      ListsOrphans, Snapshotable, ReadBack;
  }

  lemma ProgramConsent(w: World, mem: Memory, token: string, collation: string -> real, pair: (string, string))
    requires w.process == Up(mem) && Consenting(Advance(w, mem, token, collation), pair)
    ensures Consenting(w, pair) || Confirms(w, pair)
  {
    hide ResetReplica, AcknowledgeReset, IssueChallenge, AcknowledgeChallenge, ReadBack, ResetCapacity, CheckedStore,
      SortById, UniqueIds, FinalizedBytes, Finalize, FinalizedIds, IntentFor, LockReplica, Authorized;
  }

  lemma {:induction false} ConsentGiven(worlds: seq<World>, steps: seq<Step>, collation: string -> real, j: nat,
      pair: (string, string)) returns (k: nat)
    requires IsExecution(worlds, steps, collation) && j < |worlds|
    requires Consenting(worlds[j], pair) && !Consenting(worlds[0], pair)
    ensures k < j && Confirms(worlds[k], pair)
  {
    hide Next, Consenting, Confirms;
    k := j - 1;
    ConsentOrigin(worlds[j - 1], steps[j - 1], collation, pair);
    if !Confirms(worlds[j - 1], pair) {
      k := ConsentGiven(worlds, steps, collation, j - 1, pair);
    }
  }

  // ---- the first classification ---

  /** The k-th intent of a snapshot in progress is marked as authorized. */
  ghost predicate Marked(w: World, k: nat, pair: (string, string)) {
    && w.process.Up? && w.process.mem.pc.Asking?
    && k < |w.process.mem.pc.pending| && k < |w.process.mem.pc.candidates| && w.process.mem.pc.pending[k].authorized
    && pair == (w.process.mem.pc.candidates[k].resourceId, w.process.mem.pc.candidates[k].incarnationId)
  }

  lemma MarkOrigin(w: World, step: Step, collation: string -> real, k: nat, pair: (string, string))
    requires Marked(Next(w, step, collation), k, pair)
    ensures Marked(w, k, pair) || Confirms(w, pair)
  {
    hide Next, Confirms, Advance;
    if step.Open? {
      OpenStep(w, collation);
      OpenedPc(w.disk);
    } else if step.Program? && w.process.Up? {
      ProgramStep(w, step.token, collation);
      ProgramMark(w, w.process.mem, step.token, collation, k, pair);
    } else if step.Program? {
      DownProgram(w, step, collation);
    } else if w.process.Up? && step.BeginReset? {
      BeginStep(w, step.orphans, collation);
      BeginMarks(w.disk, w.process.mem, step.orphans);
    } else if w.process.Up? && Connected(w.process.mem.pc) {
      ConnectedStep(w, step, collation);
    } else {
      BusyStep(w, step, collation);
    }
  }

  lemma BeginMarks(disk: Disk, mem: Memory, orphans: seq<Command>)
    ensures var next := BeginSnapshot(disk, mem, orphans);
            next.pc == mem.pc || (next.pc.Asking? && next.pc.pending == [])
  {
    hide ListsOrphans, Snapshotable, ReadBack;
  }

  lemma ProgramMark(w: World, mem: Memory, token: string, collation: string -> real, k: nat, pair: (string, string))
    requires w.process == Up(mem) && Marked(Advance(w, mem, token, collation), k, pair)
    ensures Marked(w, k, pair) || Confirms(w, pair)
  {
    hide ResetReplica, AcknowledgeReset, IssueChallenge, AcknowledgeChallenge, ReadBack, ResetCapacity, CheckedStore,
      SortById, UniqueIds, FinalizedBytes, Finalize, FinalizedIds, EntryReservation, LockReplica, Authorized;
  }

  /** An intent is marked as authorized only if the server confirmed it while the snapshot was taken. */
  lemma {:induction false} MarkGiven(worlds: seq<World>, steps: seq<Step>, collation: string -> real, n: nat, k: nat,
      pair: (string, string)) returns (j: nat)
    requires IsExecution(worlds, steps, collation) && n < |worlds|
    requires Marked(worlds[n], k, pair) && !Marked(worlds[0], k, pair)
    ensures j < n && Confirms(worlds[j], pair)
  {
    hide Next, Marked, Confirms;
    j := n - 1;
    MarkOrigin(worlds[n - 1], steps[n - 1], collation, k, pair);
    if !Confirms(worlds[n - 1], pair) {
      j := MarkGiven(worlds, steps, collation, n - 1, k, pair);
    }
  }

  // ---- accounted for ---

  /** Exactly one finalized entry carries this identifier. */
  ghost predicate ExactlyOnce(m: seq<Finalized>, id: string) {
    && (exists i :: 0 <= i < |m| && m[i].entry.id == id)
    && DistinctEntries(m)
  }

  lemma RecordedIntent(m: seq<Finalized>, g: Goal, approved: set<(string, string)>, k: nat)
    requires Recorded(m, g, approved) && k < |g.pending|
    ensures ExactlyOnce(m, g.pending[k].entry.id)
  {
    hide AllFinalized, DistinctEntries, FinalizedTotal, PendingTotal;
    var adds :| |adds| == |g.pending| && FinalForms(adds, g.pending, approved) &&
        multiset(m) == multiset(g.prior) + multiset(adds);
    assert adds[k] in multiset(adds);
    assert adds[k] in multiset(m);
    var i :| 0 <= i < |m| && m[i] == adds[k];
    assert m[i].entry.id == g.pending[k].entry.id;
  }

  lemma RecordedPrior(m: seq<Finalized>, g: Goal, approved: set<(string, string)>, k: nat)
    requires Recorded(m, g, approved) && k < |g.prior|
    ensures g.prior[k] in m
  {
    hide AllFinalized, DistinctEntries, FinalizedTotal, PendingTotal;
    assert g.prior[k] in multiset(g.prior);
    assert g.prior[k] in multiset(m);
  }

  /** An entry that kept its payload belongs to an earlier reset, or its resource was approved in this one. */
  lemma RecordedPayload(m: seq<Finalized>, g: Goal, approved: set<(string, string)>, i: nat)
    requires Recorded(m, g, approved) && i < |m|
    ensures || m[i] in g.prior
            || (exists k :: 0 <= k < |g.pending| && m[i].entry.id == g.pending[k].entry.id &&
                  if m[i].state.PendingReview?
                  then g.pending[k].authorized && m[i].entry == g.pending[k].entry &&
                       (m[i].entry.resourceId, m[i].entry.incarnationId) in approved
                  else m[i].entry.payload.None?)
  {
    hide AllFinalized, DistinctEntries, FinalizedTotal, PendingTotal;
    var adds :| |adds| == |g.pending| && FinalForms(adds, g.pending, approved) &&
        multiset(m) == multiset(g.prior) + multiset(adds);
    assert m[i] in multiset(m);
    if m[i] !in g.prior {
      var k :| 0 <= k < |adds| && adds[k] == m[i];
      assert m[i].entry.id == g.pending[k].entry.id;
    }
  }

  /** Take any execution in which the reset file is written at step b and is gone at world n. Whatever
      happened in between, every command that was queued or overlaid at b is finalized exactly once at n,
      every earlier entry is still there, and nothing is queued or overlaid any more. */
  lemma EveryCommandAccountedFor(worlds: seq<World>, steps: seq<Step>, collation: string -> real, b: nat, n: nat,
      id: string)
    requires IsExecution(worlds, steps, collation) && Fresh(worlds[0]) && b < n < |worlds| && steps[b].Program?
    requires worlds[b].process.Up? && worlds[b].process.mem.pc.Snapshotted? &&
        Guarded(worlds[b].disk, worlds[b].process.mem.pc.candidates)
    requires ResetThroughout(worlds, b + 1, n) && worlds[n].disk.reset.None?
    ensures var m := worlds[n].disk.quarantine;
            && m.Some? && m.value.pending == []
            && (Listed(worlds[b].disk.queue, id) || id in worlds[b].disk.app.overlays ==>
                ExactlyOnce(m.value.finalized, id))
            && (forall k :: 0 <= k < |worlds[b].disk.quarantine.value.finalized| ==>
                  worlds[b].disk.quarantine.value.finalized[k] in m.value.finalized)
            && worlds[n].disk.queue == [] && worlds[n].disk.app.overlays == map[]
            && EpochOf(worlds[n]) == worlds[b].process.mem.session.epoch + 1
  {
    hide Fresh, Sound, Next, SnapshotOf, ResetCapacity, Guarded, Owed, IntentIds, Listed, Recorded, ExactlyOnce, Linked,
        Carried;
    ExecutionSound(worlds, steps, collation, b);
    ExecutionLinked(worlds, steps, collation, b);
    ExecutionSnapshot(worlds, steps, collation, b);
    SnapshotFile(worlds[b]);
    var g := GoalOf(worlds[b], steps[b].token);
    ResetStarts(worlds[b], steps[b].token, collation, EpochOf(worlds[0]));
    ResetFileGoesLast(worlds, steps, collation, g, b + 1, n);
    var m, approved := worlds[n].process.mem.finalized, Approved(worlds, steps, b + 1, n);
    if IntentIds(g.pending, id) {
      var k := IntentIndex(g.pending, id);
      RecordedIntent(m, g, approved, k);
    }
    forall k | 0 <= k < |g.prior| ensures g.prior[k] in m {
      RecordedPrior(m, g, approved, k);
    }
  }

  lemma SnapshotFile(w: World)
    requires SnapshotState(w.disk, w.process) && w.process.Up? && w.process.mem.pc.Snapshotted?
    ensures w.disk.quarantine.Some?
  {
    hide SnapshotOf, ResetCapacity;
  }

  lemma IntentIndex(pending: seq<Intent>, id: string) returns (k: nat)
    requires IntentIds(pending, id)
    ensures k < |pending| && pending[k].entry.id == id
  {
    k :| 0 <= k < |pending| && pending[k].entry.id == id;
  }

  /** A payload kept by the reset was authorized a second time by the server at some world k, and its
      incarnation was live in the local replica at a later world j, both after the reset file was written. */
  lemma PayloadConfirmed(worlds: seq<World>, steps: seq<Step>, collation: string -> real, b: nat, n: nat,
      pair: (string, string))
    returns (k: nat, j: nat)
    requires IsExecution(worlds, steps, collation) && b <= n < |worlds|
    requires pair in Approved(worlds, steps, b, n) && !Consenting(worlds[b], pair)
    ensures b <= k < j < n && Confirms(worlds[k], pair) && pair in worlds[j].disk.rows
  {
    hide Next, Approved, Consenting, Confirms;
    j := ApprovedWhen(worlds, steps, b, n, pair);
    assert IsExecution(worlds[b..], steps[b..], collation) by {
      forall i | 0 <= i < |steps[b..]| ensures worlds[b..][i + 1] == Next(worlds[b..][i], steps[b..][i], collation) {
        assert worlds[b + i + 1] == Next(worlds[b + i], steps[b + i], collation);
      }
    }
    var c := ConsentGiven(worlds[b..], steps[b..], collation, j - b, pair);
    k := b + c;
  }

  /** End to end: an entry the reset finalized with its payload was marked as authorized in the snapshot, was
      confirmed again by the server at world k, and its incarnation was live locally at world j. */
  lemma KeptPayloadWasConfirmed(worlds: seq<World>, steps: seq<Step>, collation: string -> real, b: nat, n: nat, i: nat)
    returns (k: nat, j: nat)
    requires IsExecution(worlds, steps, collation) && Fresh(worlds[0]) && b < n < |worlds| && steps[b].Program?
    requires worlds[b].process.Up? && worlds[b].process.mem.pc.Snapshotted? &&
        Guarded(worlds[b].disk, worlds[b].process.mem.pc.candidates)
    requires ResetThroughout(worlds, b + 1, n) && worlds[n].disk.reset.None?
    requires worlds[n].disk.quarantine.Some? && i < |worlds[n].disk.quarantine.value.finalized|
    requires var item := worlds[n].disk.quarantine.value.finalized[i];
             item.state.PendingReview? && item !in worlds[b].disk.quarantine.value.finalized
    ensures var item := worlds[n].disk.quarantine.value.finalized[i];
            && b < k < j < n
            && Confirms(worlds[k], (item.entry.resourceId, item.entry.incarnationId))
            && (item.entry.resourceId, item.entry.incarnationId) in worlds[j].disk.rows
            && (exists p :: 0 <= p < |worlds[b].disk.quarantine.value.pending| &&
                  worlds[b].disk.quarantine.value.pending[p].authorized &&
                      worlds[b].disk.quarantine.value.pending[p].entry == item.entry)
  {
    hide Fresh, Sound, Next, SnapshotOf, ResetCapacity, Guarded, Owed, IntentIds, Listed, Recorded, Linked, Carried,
        Consenting, Confirms, Approved;
    ExecutionSound(worlds, steps, collation, b);
    ExecutionLinked(worlds, steps, collation, b);
    ExecutionSnapshot(worlds, steps, collation, b);
    var g := GoalOf(worlds[b], steps[b].token);
    ResetStarts(worlds[b], steps[b].token, collation, EpochOf(worlds[0]));
    ResetFileGoesLast(worlds, steps, collation, g, b + 1, n);
    var m, approved := worlds[n].process.mem.finalized, Approved(worlds, steps, b + 1, n);
    RecordedPayload(m, g, approved, i);
    var pair := (m[i].entry.resourceId, m[i].entry.incarnationId);
    StartedElsewhere(worlds[b], steps[b].token, collation, pair);
    k, j := PayloadConfirmed(worlds, steps, collation, b + 1, n, pair);
  }

  lemma StartedElsewhere(w: World, token: string, collation: string -> real, pair: (string, string))
    requires w.process.Up? && w.process.mem.pc.Snapshotted?
    ensures !Consenting(Next(w, Program(token), collation), pair)
  {
    hide Next, Advance;
    ProgramStep(w, token, collation);
    WrittenFile(w, w.process.mem, token, collation);
  }
}
