/** What the reset keeps: the marks of the snapshot are exactly what the server's tables said when each command was
    asked for, and a command that stays granted, unchanged in incarnation and present locally keeps its payload. */
module ReplicaKeeping {
  import opened Basics
  import opened CommandProtocol
  import opened Reservations
  import opened ServerState
  import opened ServerRuns
  import opened ServerEffects
  import opened ApplicationState
  import opened QuarantineStore
  import opened ReplicaClient
  import opened ReplicaSafety
  import opened ReplicaOutcomes
  import opened ReplicaRotation
  import opened ReplicaGoal
  import opened ReplicaReset
  import opened ReplicaRecovery
  import opened ReplicaRetention

  // ---- the marks of the snapshot ---

  /** The intent that stands for a command, with its payload only if it was entitled. */
  ghost predicate StandsFor(intent: Intent, command: Command, entitled: bool) {
    && intent.authorized == entitled
    && intent.entry.id == command.commandId && intent.entry.resourceId == command.resourceId
    && intent.entry.incarnationId == command.incarnationId
    && intent.entry.commandType == (if command.kind.ResourceUpdate? then "ps8.resource.update.v1"
                                    else "ps8.resource.soft_delete.v1")
    && intent.entry.expectedVersion == Some(command.expectedVersion)
    && intent.entry.payload == (if entitled then command.payload else None)
  }

  /** The intents noted so far by the snapshot, or by the quarantine file it has just written. */
  ghost function Notes(w: World): seq<Intent> {
    if w.process.Down? then []
    else
      match w.process.mem.pc
      case Asking(_, _, pending) => pending
      case Snapshotted(_) => if w.disk.quarantine.Some? then w.disk.quarantine.value.pending else []
      case _ => []
  }

  ghost function CandidatesOf(w: World): seq<Command> {
    if w.process.Down? then []
    else
      match w.process.mem.pc
      case Asking(_, candidates, _) => candidates
      case Snapshotted(candidates) => candidates
      case _ => []
  }

  /** The intent holds the larger of what the overlay of its command held and what its own entry needs. */
  ghost predicate Covers(app: App, command: Command, intent: Intent) {
    var held := if command.commandId in app.overlays then app.overlays[command.commandId].reserved else 0;
    && intent.reserved >= held && intent.reserved >= EntryReservation(intent.entry)
    && (intent.reserved == held || intent.reserved == EntryReservation(intent.entry))
  }

  /** This step asks the server about the k-th candidate and notes the answer. */
  ghost predicate Notices(w: World, k: nat, command: Command, intent: Intent) {
    && w.process.Up? && w.process.mem.pc.Asking? && k == |Notes(w)| < |CandidatesOf(w)|
    && command == CandidatesOf(w)[k] && Covers(w.disk.app, command, intent)
    && StandsFor(intent, command, RowLocks(w.server, w.user, w.process.mem.session) &&
         Entitled(w.server, w.user, command.resourceId, command.incarnationId))
  }

  lemma AskedNotice(w: World, mem: Memory)
    requires w.process == Up(mem) && mem.pc.Asking? && |mem.pc.pending| < |mem.pc.candidates|
    ensures var next := AdvanceAsking(w, mem);
            && next.process.Up? && next.process.mem.pc.Asking?
            && CandidatesOf(next) == mem.pc.candidates
            && |Notes(next)| == |mem.pc.pending| + 1 && Notes(next)[..|mem.pc.pending|] == mem.pc.pending
            && Notices(w, |mem.pc.pending|, mem.pc.candidates[|mem.pc.pending|], Notes(next)[|mem.pc.pending|])
  {
    hide EntryReservation;
  }

  lemma ProgramNotes(w: World, mem: Memory, token: string, collation: string -> real, k: nat)
    requires w.process == Up(mem)
    requires var next := Advance(w, mem, token, collation); k < |Notes(next)| && k < |CandidatesOf(next)|
    ensures var next := Advance(w, mem, token, collation);
            || (k < |Notes(w)| && k < |CandidatesOf(w)| && Notes(next)[k] == Notes(w)[k] &&
                CandidatesOf(next)[k] == CandidatesOf(w)[k])
            || Notices(w, k, CandidatesOf(next)[k], Notes(next)[k])
  {
    hide ResetReplica, AcknowledgeReset, IssueChallenge, AcknowledgeChallenge, Classify, ReadBack, ResetCapacity,
        CheckedStore, SortById, UniqueIds, FinalizedBytes, Finalize, FinalizedIds, IntentFor, StandsFor, RowLocks,
        Entitled;
    if mem.pc.Asking? && |mem.pc.pending| < |mem.pc.candidates| {
      AskedNotice(w, mem);
    }
  }

  lemma NoteOrigin(w: World, step: Step, collation: string -> real, k: nat)
    requires k < |Notes(Next(w, step, collation))| && k < |CandidatesOf(Next(w, step, collation))|
    ensures var next := Next(w, step, collation);
            || (k < |Notes(w)| && k < |CandidatesOf(w)| && Notes(next)[k] == Notes(w)[k] &&
                CandidatesOf(next)[k] == CandidatesOf(w)[k])
            || Notices(w, k, CandidatesOf(next)[k], Notes(next)[k])
  {
    hide Next, Advance, Notices;
    if step.Open? {
      OpenStep(w, collation);
      OpenedPc(w.disk);
    } else if step.Program? && w.process.Up? {
      ProgramStep(w, step.token, collation);
      ProgramNotes(w, w.process.mem, step.token, collation, k);
    } else if step.Program? {
      DownProgram(w, step, collation);
    } else if w.process.Up? && step.BeginReset? {
      BeginStep(w, step.orphans, collation);
      BeginMarks(w.disk, w.process.mem, step.orphans);
    } else if w.process.Up? && Connected(w.process.mem.pc) {
      ConnectedStep(w, step, collation);
    } else {
      BusyStep(w, step, collation);
    }
  }

  /** Every note of a snapshot covers what its overlay held and says what the server's tables said at one moment since
      the snapshot began: marked, and
      with its payload, if and only if the replica row locked, the grant was there and the incarnation was current. */
  lemma {:induction false} NotedExactly(worlds: seq<World>, steps: seq<Step>, collation: string -> real, a: nat, n: nat,
      k: nat) returns (j: nat)
    requires IsExecution(worlds, steps, collation) && a <= n < |worlds|
    requires k < |Notes(worlds[n])| && k < |CandidatesOf(worlds[n])| && k >= |Notes(worlds[a])|
    ensures a <= j < n && Notices(worlds[j], k, CandidatesOf(worlds[n])[k], Notes(worlds[n])[k])
    decreases n
  {
    hide Next, Notices, Notes, CandidatesOf;
    j := n - 1;
    NoteOrigin(worlds[n - 1], steps[n - 1], collation, k);
    if !Notices(worlds[n - 1], k, CandidatesOf(worlds[n])[k], Notes(worlds[n])[k]) {
      j := NotedExactly(worlds, steps, collation, a, n - 1, k);
    }
  }

  // ---- the second classification ---

  /** The store holds this intent finalized for review, with its whole entry. */
  ghost predicate Spared(m: seq<Finalized>, item: Intent) {
    exists i :: 0 <= i < |m| && m[i].entry == item.entry && m[i].state == PendingReview &&
        m[i].reserved == item.reserved
  }

  /** Whatever stage the reset is at, the p-th intent is not given up. */
  ghost predicate Keeping(w: World, g: Goal, p: nat)
    requires p < |g.pending|
  {
    && w.disk.quarantine.Some?
    && (w.disk.quarantine.value == Store(g.prior, g.pending) ||
        Spared(w.disk.quarantine.value.finalized, g.pending[p]))
    && (w.process.Up? ==> PcKeeping(w.process.mem, g, p))
  }

  ghost predicate PcKeeping(mem: Memory, g: Goal, p: nat)
    requires p < |g.pending|
  {
    match mem.pc
    case Finalizing(retained, additions, asked) =>
      if retained.pending == [] then Spared(retained.finalized, g.pending[p])
      else
        && retained == Store(g.prior, g.pending)
        && (|additions| > p ==> additions[p] == Finalized(g.pending[p].entry, PendingReview, g.pending[p].reserved))
        && (|additions| == p && asked.Some? ==> asked == Some(true))
    case Unlinking => Spared(mem.finalized, g.pending[p])
    case _ => true
  }

  /** The pair is entitled on the server and present in the local replica, and the replica is not disabled. */
  ghost predicate Favourable(w: World, pair: (string, string)) {
    && Entitled(w.server, w.user, pair.0, pair.1) && pair in w.disk.rows
    && (w.disk.app.session.Some? && Current(w.disk).replicaId in w.server.replicas ==>
          !w.server.replicas[Current(w.disk).replicaId].disabled)
  }

  function PairOf(item: Intent): (string, string) {
    (item.entry.resourceId, item.entry.incarnationId)
  }

  lemma RotationKeeps(w: World, mem: Memory, g: Goal, p: nat, token: string)
    requires w.process == Up(mem) && p < |g.pending| && Keeping(w, g, p) && (mem.pc.Resetting? || mem.pc.Staging?)
    requires w.disk.reset.Some? && w.disk.reset.value.Quarantined?
    ensures Keeping(AdvanceRotation(w, mem, token), g, p)
  {
    hide CheckedStore, ResetReplica, Spared;
  }

  lemma ClearingKeeps(w: World, mem: Memory, g: Goal, p: nat)
    requires w.process == Up(mem) && p < |g.pending| && Keeping(w, g, p)
    requires w.disk.reset.Some? && w.disk.reset.value.SessionStaged?
    requires mem.pc.Storing? || mem.pc.Acknowledging? || mem.pc.Clearing? || mem.pc.Uncovering? || mem.pc.Closing?
    ensures Keeping(AdvanceClearing(w, mem), g, p)
  {
    hide CheckedStore, AcknowledgeReset, Spared;
  }

  lemma ObservingKeeps(w: World, mem: Memory, g: Goal, approved: set<(string, string)>, p: nat, token: string)
    requires w.process == Up(mem) && p < |g.pending| && Keeping(w, g, p) && Owed(w, g, approved)
    requires mem.pc.Challenging? || mem.pc.Observing?
    ensures Keeping(AdvanceObserving(w, mem, token), g, p)
  {
    hide Intact, Carried, Recorded, IssueChallenge, AcknowledgeChallenge, ReadBack, Finalize, Spared;
    StageReads(w.disk, g, approved);
  }

  /** At this point of the program the stored session is the one the server's row carries. */
  lemma FinalizingLocks(w: World, base: int)
    requires Linked(w, base) && w.process.Up? && w.process.mem.pc.Finalizing? && w.disk.reset.Some?
    requires w.disk.reset.value.Cleared? && Current(w.disk).replicaId in w.server.replicas ==>
        !w.server.replicas[Current(w.disk).replicaId].disabled
    requires w.disk.reset.value.Cleared?
    ensures RowLocks(w.server, w.user, w.process.mem.session)
  {
  }

  /** An entitled resource is classified as such: the answer is the tables'. */
  lemma AskedAgain(w: World, mem: Memory, g: Goal, p: nat, collation: string -> real)
    requires w.process == Up(mem) && p < |g.pending| && Keeping(w, g, p) && mem.pc.Finalizing? && mem.pc.asked.None?
    requires |mem.pc.additions| < |mem.pc.retained.pending|
    requires RowLocks(w.server, w.user, mem.session) && Favourable(w, PairOf(g.pending[p]))
    ensures Keeping(AdvanceFinalizing(w, mem, collation), g, p)
  {
    hide Spared, FinalizedBytes, Finalize;
  }

  lemma Decided(w: World, mem: Memory, g: Goal, p: nat, collation: string -> real)
    requires w.process == Up(mem) && p < |g.pending| && Keeping(w, g, p) && mem.pc.Finalizing? && mem.pc.asked.Some?
    requires |mem.pc.additions| < |mem.pc.retained.pending|
    requires g.pending[p].authorized && Favourable(w, PairOf(g.pending[p]))
    ensures Keeping(AdvanceFinalizing(w, mem, collation), g, p)
  {
    hide Spared, FinalizedBytes;
  }

  lemma MergedSpared(retained: Store, additions: seq<Finalized>, item: Intent, collation: string -> real)
    requires Spared(retained.finalized, item) || Spared(additions, item)
    ensures Spared(SortById(retained.finalized + additions, collation), item)
  {
    hide SortById;
    var all := retained.finalized + additions;
    var kept := Finalized(item.entry, PendingReview, item.reserved);
    assert kept in all by {
      if Spared(retained.finalized, item) {
        var i :| 0 <= i < |retained.finalized| && retained.finalized[i] == kept;
        assert all[i] == kept;
      } else {
        var i :| 0 <= i < |additions| && additions[i] == kept;
        assert all[|retained.finalized| + i] == kept;
      }
    }
    SortOrdered(all, collation);
    assert kept in multiset(all);
    assert kept in multiset(SortById(all, collation));
  }

  lemma MergeKeeps(w: World, mem: Memory, g: Goal, p: nat, collation: string -> real)
    requires w.process == Up(mem) && p < |g.pending| && Keeping(w, g, p) && mem.pc.Finalizing?
    requires |mem.pc.additions| == |mem.pc.retained.pending|
    ensures Keeping(AdvanceFinalizing(w, mem, collation), g, p)
  {
    hide SortById, AdvanceFinalizing;
    MergeShape(w, mem, collation);
    if mem.pc.retained.pending != [] {
      assert mem.pc.additions[p] == Finalized(g.pending[p].entry, PendingReview, g.pending[p].reserved);
      assert Spared(mem.pc.additions, g.pending[p]);
    }
    MergedSpared(mem.pc.retained, mem.pc.additions, g.pending[p], collation);
  }

  lemma ProgramKeeps(w: World, g: Goal, approved: set<(string, string)>, base: int, p: nat, token: string,
      collation: string -> real)
    requires w.process.Up? && Owed(w, g, approved) && Linked(w, base) && PcSound(w.process.mem.pc, w.disk)
    requires p < |g.pending| && Keeping(w, g, p) && g.pending[p].authorized && Favourable(w, PairOf(g.pending[p]))
    ensures Keeping(Advance(w, w.process.mem, token, collation), g, p)
  {
    var mem := w.process.mem;
    OwedFile(w, g, approved);
    if mem.pc.Finalizing? {
      AdditionsBounded(w, g, approved);
    }
    hide Owed, AdvanceAsking, AdvanceRotation, AdvanceClearing, AdvanceObserving, AdvanceFinalizing, Linked, PcSound,
        Spared, RowLocks, Entitled;
    PhaseAt(mem.pc, w.disk);
    if mem.pc.Resetting? || mem.pc.Staging? {
      RotationKeeps(w, mem, g, p, token);
    } else if mem.pc.Storing? || mem.pc.Acknowledging? || mem.pc.Clearing? || mem.pc.Uncovering? || mem.pc.Closing? {
      ClearingKeeps(w, mem, g, p);
    } else if mem.pc.Challenging? || mem.pc.Observing? {
      ObservingKeeps(w, mem, g, approved, p, token);
    } else if mem.pc.Finalizing? {
      SessionStored(w, base);
      FinalizingLocks(w, base);
      if |mem.pc.additions| == |mem.pc.retained.pending| {
        MergeKeeps(w, mem, g, p, collation);
      } else if mem.pc.asked.None? {
        AskedAgain(w, mem, g, p, collation);
      } else {
        Decided(w, mem, g, p, collation);
      }
    }
  }

  lemma SessionStored(w: World, base: int)
    requires Linked(w, base)
    ensures w.disk.app.session.Some?
  {
  }

  lemma QuietKeeps(w: World, g: Goal, approved: set<(string, string)>, p: nat, step: Step, collation: string -> real)
    requires Owed(w, g, approved) && Sound(w.disk, w.process) && !(step.Program? && w.process.Up?)
    requires p < |g.pending| && Keeping(w, g, p)
    ensures Keeping(Next(w, step, collation), g, p)
  {
    OwedFile(w, g, approved);
    hide Owed, Sound, Next, Spared;
    if step.Open? {
      OpenStep(w, collation);
      OpenedKeeps(w.disk);
    } else if step.Program? {
      DownProgram(w, step, collation);
    } else {
      QuietStep(w, step, collation);
    }
  }

  lemma OpenedKeeps(disk: Disk)
    ensures OpenProcess(disk).Up? ==> !OpenProcess(disk).mem.pc.Finalizing? && !OpenProcess(disk).mem.pc.Unlinking?
  {
    hide OpenChecks, ReadBack;
  }

  /** As long as the tables and the local replica stay favourable, no step gives the intent up. */
  lemma StepKeeps(w: World, g: Goal, approved: set<(string, string)>, base: int, p: nat, step: Step,
      collation: string -> real)
    requires Owed(w, g, approved) && Linked(w, base) && Sound(w.disk, w.process)
    requires p < |g.pending| && Keeping(w, g, p) && g.pending[p].authorized && Favourable(w, PairOf(g.pending[p]))
    ensures Keeping(Next(w, step, collation), g, p)
  {
    hide Owed, Advance, Linked, PcSound, ResetSound, Sound, Next, Keeping, Favourable;
    if step.Program? && w.process.Up? {
      SoundParts(w.disk, w.process);
      ProgramStep(w, step.token, collation);
      ProgramKeeps(w, g, approved, base, p, step.token, collation);
    } else {
      QuietKeeps(w, g, approved, p, step, collation);
    }
  }

  ghost predicate FavourableFrom(worlds: seq<World>, a: nat, n: nat, pair: (string, string))
    requires n < |worlds|
  {
    forall k :: a <= k <= n ==> Favourable(worlds[k], pair)
  }

  lemma {:induction false} KeepingRun(worlds: seq<World>, steps: seq<Step>, collation: string -> real, g: Goal, p: nat,
      i: nat, n: nat)
    requires IsExecution(worlds, steps, collation) && Fresh(worlds[0]) && i <= n < |worlds|
    requires Owed(worlds[i], g, {}) && ResetThroughout(worlds, i, n)
    requires p < |g.pending| && g.pending[p].authorized && Keeping(worlds[i], g, p)
    requires FavourableFrom(worlds, i, n, PairOf(g.pending[p]))
    ensures Keeping(worlds[n], g, p)
    decreases n
  {
    hide Next, Fresh, Owed, Sound, Linked, Approval, EpochOf, Keeping, Favourable;
    if i < n {
      KeepingRun(worlds, steps, collation, g, p, i, n - 1);
      ResetRun(worlds, steps, collation, g, i, n - 1);
      ExecutionSound(worlds, steps, collation, n - 1);
      ExecutionLinked(worlds, steps, collation, n - 1);
      assert worlds[n - 1].disk.reset.Some?;
      assert !Finished(worlds[n - 1], g, Approved(worlds, steps, i, n - 1));
      hide Finished;
      StepKeeps(worlds[n - 1], g, Approved(worlds, steps, i, n - 1), EpochOf(worlds[0]), p, steps[n - 1], collation);
    }
  }

  // ---- end to end ---

  /** A finalized entry that still is the whole command, offered for review. */
  ghost predicate KeptWhole(m: seq<Finalized>, command: Command) {
    exists i :: 0 <= i < |m| && m[i].state == PendingReview && m[i].entry.id == command.commandId &&
        m[i].entry.resourceId == command.resourceId && m[i].entry.incarnationId == command.incarnationId &&
        m[i].entry.payload == command.payload && m[i].entry.expectedVersion == Some(command.expectedVersion)
  }

  lemma SparedWhole(m: seq<Finalized>, item: Intent, command: Command)
    requires Spared(m, item) && StandsFor(item, command, true)
    ensures KeptWhole(m, command)
  {
    var i :| 0 <= i < |m| && m[i].entry == item.entry && m[i].state == PendingReview && m[i].reserved == item.reserved;
  }

  lemma KeptAtEnd(w: World, g: Goal, p: nat, approved: set<(string, string)>)
    requires p < |g.pending| && Keeping(w, g, p) && Finished(w, g, approved)
    ensures w.disk.quarantine.Some? && Spared(w.disk.quarantine.value.finalized, g.pending[p])
  {
    hide Spared, Recorded, Carried;
  }

  lemma KeepingStarts(w: World, token: string, collation: string -> real, p: nat)
    requires w.process.Up? && w.process.mem.pc.Snapshotted? && w.disk.quarantine.Some?
    requires p < |w.disk.quarantine.value.pending|
    ensures Keeping(Next(w, Program(token), collation), GoalOf(w, token), p)
  {
    hide Next, Advance, Spared;
    ProgramStep(w, token, collation);
    WrittenFile(w, w.process.mem, token, collation);
  }

  lemma ConnectedLocks(w: World, base: int)
    requires Linked(w, base) && w.process.Up? && w.process.mem.pc.Asking? && w.disk.reset.None?
    requires Current(w.disk).replicaId in w.server.replicas ==> !w.server.replicas[Current(w.disk).replicaId].disabled
    ensures RowLocks(w.server, w.user, w.process.mem.session)
  {
  }

  /** While the snapshot is taken there is no reset file. */
  lemma AskingFile(pc: Pc, disk: Disk)
    requires PcSound(pc, disk) && pc.Asking?
    ensures disk.reset.None?
  {
  }

  lemma MarkedWhenFavourable(worlds: seq<World>, steps: seq<Step>, collation: string -> real, a: nat, b: nat, p: nat)
    requires IsExecution(worlds, steps, collation) && Fresh(worlds[0]) && a <= b < |worlds| && Notes(worlds[a]) == []
    requires p < |Notes(worlds[b])| && p < |CandidatesOf(worlds[b])|
    requires FavourableFrom(worlds, a, b, (CandidatesOf(worlds[b])[p].resourceId,
        CandidatesOf(worlds[b])[p].incarnationId))
    ensures StandsFor(Notes(worlds[b])[p], CandidatesOf(worlds[b])[p], true)
  {
    hide IsExecution, Fresh, Sound, Linked, Notes, CandidatesOf, StandsFor, RowLocks, Entitled, PcSound, ResetSound,
        EpochOf;
    var j := NotedExactly(worlds, steps, collation, a, b, p);
    ExecutionSound(worlds, steps, collation, j);
    ExecutionLinked(worlds, steps, collation, j);
    SoundParts(worlds[j].disk, worlds[j].process);
    AskingFile(worlds[j].process.mem.pc, worlds[j].disk);
    SessionStored(worlds[j], EpochOf(worlds[0]));
    assert Favourable(worlds[j], (CandidatesOf(worlds[b])[p].resourceId, CandidatesOf(worlds[b])[p].incarnationId));
    ConnectedLocks(worlds[j], EpochOf(worlds[0]));
  }

  lemma SnapshotSizes(w: World)
    requires SnapshotState(w.disk, w.process) && w.process.Up? && w.process.mem.pc.Snapshotted?
    ensures w.disk.quarantine.Some? && Notes(w) == w.disk.quarantine.value.pending
    ensures |Notes(w)| == |CandidatesOf(w)| && CandidatesOf(w) == w.process.mem.pc.candidates
  {
    hide SnapshotOf, ResetCapacity;
  }

  /** End to end, the other direction of KeptPayloadWasConfirmed: take a reset that begins after world a, writes its
      file at step b and is over at world n. A command of its snapshot whose grant and incarnation hold on the server,
      whose row is in the local replica and whose replica is not disabled, from a to n, is finalized for review
      exactly as it was queued. Crashes, resumes, late requests and other users in between make no difference. */
  lemma FavouredCommandIsKept(worlds: seq<World>, steps: seq<Step>, collation: string -> real, a: nat, b: nat, n: nat,
      p: nat)
    requires IsExecution(worlds, steps, collation) && Fresh(worlds[0]) && a <= b < n < |worlds| && steps[b].Program?
    requires Notes(worlds[a]) == []
    requires worlds[b].process.Up? && worlds[b].process.mem.pc.Snapshotted? &&
        Guarded(worlds[b].disk, worlds[b].process.mem.pc.candidates)
    requires ResetThroughout(worlds, b + 1, n) && worlds[n].disk.reset.None?
    requires p < |worlds[b].process.mem.pc.candidates|
    requires var command := worlds[b].process.mem.pc.candidates[p];
             FavourableFrom(worlds, a, n, (command.resourceId, command.incarnationId))
    ensures worlds[n].disk.quarantine.Some?
    ensures KeptWhole(worlds[n].disk.quarantine.value.finalized, worlds[b].process.mem.pc.candidates[p])
  {
    hide IsExecution, Fresh, Sound, Next, SnapshotOf, ResetCapacity, Guarded, Owed, IntentIds, Recorded, Linked, Carried,
        Keeping, StandsFor, Spared, KeptWhole, Notes, CandidatesOf, SnapshotState, Favourable, EpochOf, Approved,
        Finished;
    var command := worlds[b].process.mem.pc.candidates[p];
    ExecutionSize(worlds, steps, collation);
    ExecutionSound(worlds, steps, collation, b);
    ExecutionLinked(worlds, steps, collation, b);
    ExecutionSnapshot(worlds, steps, collation, b);
    SnapshotSizes(worlds[b]);
    var g := GoalOf(worlds[b], steps[b].token);
    MarkedWhenFavourable(worlds, steps, collation, a, b, p);
    StandsParts(g.pending[p], command);
    ExecutionStep(worlds, steps, collation, b);
    ResetStarts(worlds[b], steps[b].token, collation, EpochOf(worlds[0]));
    KeepingStarts(worlds[b], steps[b].token, collation, p);
    KeepingRun(worlds, steps, collation, g, p, b + 1, n);
    ResetFileGoesLast(worlds, steps, collation, g, b + 1, n);
    KeptAtEnd(worlds[n], g, p, Approved(worlds, steps, b + 1, n));
    SparedWhole(worlds[n].disk.quarantine.value.finalized, g.pending[p], command);
  }

  lemma ExecutionSize(worlds: seq<World>, steps: seq<Step>, collation: string -> real)
    requires IsExecution(worlds, steps, collation)
    ensures |worlds| == |steps| + 1
  {
    hide Next;
  }

  lemma ExecutionStep(worlds: seq<World>, steps: seq<Step>, collation: string -> real, b: nat)
    requires IsExecution(worlds, steps, collation) && b < |steps|
    ensures worlds[b + 1] == Next(worlds[b], steps[b], collation)
  {
    hide Next;
  }

  lemma StandsParts(item: Intent, command: Command)
    requires StandsFor(item, command, true)
    ensures item.authorized && PairOf(item) == (command.resourceId, command.incarnationId)
  {
  }
}
