/** The reset never loses a command: what was queued or shown optimistically when it began ends up in the
    finalized quarantine exactly once, through any number of crashes and resumes. */
module ReplicaReset {
  import opened Basics
  import opened CommandProtocol
  import opened Reservations
  import opened ServerState
  import opened ServerRuns
  import opened ApplicationState
  import opened QuarantineStore
  import opened ReplicaClient
  import opened ReplicaSafety
  import opened ReplicaOutcomes
  import opened ReplicaRotation
  import opened ReplicaGoal

  // ---- what holds while the reset file exists ---

  /** Counts, bytes and identifiers of the application tables fit the goal. */
  ghost predicate Carried(app: App, g: Goal) {
    && ResetCapacity(app, Store(g.prior, g.pending)) && WithinCapacity(app, g.prior)
    && (forall i :: 0 <= i < |g.prior| ==> g.prior[i].entry.id !in Active(app))
    && (forall i :: 0 <= i < |g.pending| ==> g.pending[i].entry.id !in app.results)
  }

  ghost predicate Published(file: Option<Store>, g: Goal, approved: set<(string, string)>) {
    file.Some? && file.value.pending == [] && Recorded(file.value.finalized, g, approved)
  }

  ghost predicate FileStage(disk: Disk, g: Goal, approved: set<(string, string)>) {
    && disk.reset.Some? && disk.reset.value.requestId == g.requestId && disk.reset.value.previous.epoch == g.epoch
    && (disk.quarantine == Some(Store(g.prior, g.pending)) || (disk.reset.value.Cleared? &&
        Published(disk.quarantine, g, approved)))
  }

  ghost predicate PcStage(file: Option<Store>, mem: Memory, g: Goal, approved: set<(string, string)>) {
    match mem.pc
    case Finalizing(retained, additions, asked) => file == Some(retained) &&
        FinalForms(additions, retained.pending, approved)
    case Unlinking => file == Some(Store(mem.finalized, [])) && Recorded(mem.finalized, g, approved)
    case _ => true
  }

  /** The goal is still owed, and everything needed to pay it is on disk. */
  ghost predicate Owed(w: World, g: Goal, approved: set<(string, string)>) {
    && Intact(g) && Carried(w.disk.app, g) && FileStage(w.disk, g, approved)
    && (w.process.Up? ==> PcStage(w.disk.quarantine, w.process.mem, g, approved))
  }

  /** The goal is paid: nothing queued or optimistic is left, every intent is finalized exactly once beside
      the earlier entries, and the client has moved on by one epoch. */
  ghost predicate Finished(w: World, g: Goal, approved: set<(string, string)>) {
    && w.process.Up? && w.process.mem.pc.Idle? && w.disk.reset.None?
    && w.disk.queue == [] && w.disk.app.overlays == map[]
    && w.disk.quarantine == Some(Store(w.process.mem.finalized, [])) && Recorded(w.process.mem.finalized, g, approved)
    && w.disk.app.session.Some? && Current(w.disk).epoch == g.epoch + 1
    && Carried(w.disk.app, g)
  }

  /** The resource approved by this step: classified as authorized just before, and live locally now. */
  ghost function Approval(w: World, step: Step): set<(string, string)> {
    if step.Program? && w.process.Up? && w.process.mem.pc.Finalizing? &&
       |w.process.mem.pc.additions| < |w.process.mem.pc.retained.pending| && w.process.mem.pc.asked == Some(true) then
      var entry := w.process.mem.pc.retained.pending[|w.process.mem.pc.additions|].entry;
      if (entry.resourceId, entry.incarnationId) in w.disk.rows then {(entry.resourceId, entry.incarnationId)} else {}
    else {}
  }

  // ---- growing approvals ---

  lemma MoreApproved(w: World, g: Goal, approved: set<(string, string)>, more: set<(string, string)>)
    requires Owed(w, g, approved)
    ensures Owed(w, g, approved + more)
  {
    hide Carried, Intact, Finalize, AllFinalized, DistinctEntries, FinalizedTotal, PendingTotal;
    if Published(w.disk.quarantine, g, approved) {
      MoreRecorded(w.disk.quarantine.value.finalized, g, approved, more);
    }
    if w.process.Up? && w.process.mem.pc.Unlinking? {
      MoreRecorded(w.process.mem.finalized, g, approved, more);
    }
  }

  lemma MoreRecorded(m: seq<Finalized>, g: Goal, approved: set<(string, string)>, more: set<(string, string)>)
    requires Recorded(m, g, approved)
    ensures Recorded(m, g, approved + more)
  {
    hide AllFinalized, DistinctEntries, FinalizedTotal, PendingTotal, Finalize;
    var adds :| |adds| == |g.pending| && FinalForms(adds, g.pending, approved) &&
        multiset(m) == multiset(g.prior) + multiset(adds);
    assert FinalForms(adds, g.pending, approved + more);
  }

  // ---- steps of the rotation ---

  lemma SameUsage(app: App, t: App, g: Goal)
    requires Carried(app, g) && t.results == app.results && t.overlays == app.overlays
    ensures Carried(t, g)
  {
    assert ResultReservations(t) == ResultReservations(app) && OverlayReservations(t) == OverlayReservations(app);
    hide Total, FinalizedTotal, PendingTotal, ResultReservations, OverlayReservations;
  }

  lemma ClearedUsage(app: App, g: Goal)
    requires Carried(app, g)
    ensures Carried(ClearAll(app), g)
  {
    hide Total, FinalizedTotal, PendingTotal;
    TotalEmpty<string>();
    assert ResultReservations(ClearAll(app)) == ResultReservations(app);
    assert OverlayReservations(ClearAll(app)) == map[];
    hide ResultReservations, OverlayReservations;
  }

  /** Steps other than the program's own leave the durable state alone while a reset is under way. */
  lemma QuietStep(w: World, step: Step, collation: string -> real)
    requires Sound(w.disk, w.process) && w.disk.reset.Some? && !step.Program? && !step.Open?
    ensures var next := Next(w, step, collation);
            && next.disk == w.disk.(rows := next.disk.rows)
            && (next.process == w.process || next.process.Down?)
  {
    hide DiskSound, HeldWithin, UploadSound, Advance, UploadStep, ServerRuns.Step, Enabled, Handle, OpenProcess, Admits,
        AddAll, OverlayFor,
      ListsOrphans, Snapshotable, ReadBack, Absent;
  }

  lemma RotationOwed(w: World, mem: Memory, g: Goal, approved: set<(string, string)>, token: string)
    requires w.process == Up(mem) && Owed(w, g, approved) && (mem.pc.Resetting? || mem.pc.Staging?)
    requires w.disk.reset.Some? && w.disk.reset.value.Quarantined?
    ensures Owed(AdvanceRotation(w, mem, token), g, approved)
  {
    hide Intact, Carried, Recorded, CheckedStore, ResetReplica, FinalForms;
  }

  lemma ClearingOwed(w: World, mem: Memory, g: Goal, approved: set<(string, string)>)
    requires w.process == Up(mem) && Owed(w, g, approved) && w.disk.reset.Some? && w.disk.reset.value.SessionStaged?
    requires mem.pc.Storing? || mem.pc.Acknowledging? || mem.pc.Clearing? || mem.pc.Uncovering? || mem.pc.Closing?
    ensures Owed(AdvanceClearing(w, mem), g, approved)
  {
    hide Intact, Carried, Recorded, CheckedStore, AcknowledgeReset, FinalForms;
    if mem.pc.Storing? {
      SameUsage(w.disk.app, StoreSession(w.disk.app, mem.pc.next, mem.resetCount + 1), g);
    } else if mem.pc.Uncovering? {
      ClearedUsage(w.disk.app, g);
    }
  }

  lemma StageReads(disk: Disk, g: Goal, approved: set<(string, string)>)
    requires Intact(g) && FileStage(disk, g, approved)
    ensures disk.quarantine.Some? && ReadBack(disk.quarantine) == Ok(disk.quarantine.value)
  {
    if disk.quarantine == Some(Store(g.prior, g.pending)) {
      hide Intact, ReadBack;
      IntactReads(g);
    } else {
      hide ReadBack, Settles, AllFinalized, DistinctEntries;
      RecordedReads(disk.quarantine.value.finalized);
    }
  }

  lemma ObservingOwed(w: World, mem: Memory, g: Goal, approved: set<(string, string)>, token: string)
    requires w.process == Up(mem) && Owed(w, g, approved) && (mem.pc.Challenging? || mem.pc.Observing?)
    ensures Owed(AdvanceObserving(w, mem, token), g, approved)
  {
    hide Intact, Carried, Recorded, IssueChallenge, AcknowledgeChallenge, ReadBack, Finalize;
    StageReads(w.disk, g, approved);
    SameUsage(w.disk.app, StoreSession(w.disk.app, mem.session, mem.resetCount), g);
  }

  // ---- finalizing ---

  lemma FinalizingMoves(w: World, mem: Memory, g: Goal, approved: set<(string, string)>, additions: seq<Finalized>,
      asked: Option<bool>)
    requires w.process == Up(mem) && Owed(w, g, approved) && mem.pc.Finalizing?
    requires FinalForms(additions, mem.pc.retained.pending, approved)
    ensures Owed(w.(process := Up(mem.(pc := Finalizing(mem.pc.retained, additions, asked)))), g, approved)
  {
    hide Intact, Carried, FileStage, FinalForms;
  }

  lemma StoppedOwed(w: World, g: Goal, approved: set<(string, string)>)
    requires Owed(w, g, approved)
    ensures Owed(w.(process := Down), g, approved)
  {
    hide Intact, Carried, FileStage, PcStage;
  }

  ghost predicate Visible(w: World, item: Intent, asked: bool) {
    item.authorized && asked && (item.entry.resourceId, item.entry.incarnationId) in w.disk.rows
  }

  /** The two kinds of step that work through the intents. */
  lemma ConsultShape(w: World, mem: Memory, collation: string -> real)
    requires mem.pc.Finalizing? && |mem.pc.additions| < |mem.pc.retained.pending|
    ensures var next, pc := AdvanceFinalizing(w, mem, collation), mem.pc;
            var item := pc.retained.pending[|pc.additions|];
            || next == w.(process := Down)
            || (exists asked :: pc.asked.None? && next == w.(process := Up(mem.(pc := Finalizing(pc.retained, pc.additions, Some(asked))))))
            || (pc.asked.Some? && next == w.(process := Up(mem.(pc :=
                  Finalizing(pc.retained, pc.additions + [Finalize(item, Visible(w, item, pc.asked.value))], None)))))
  {
    hide Classify, FinalizedBytes, Finalize;
    var pc := mem.pc;
    var item := pc.retained.pending[|pc.additions|];
    if pc.asked.None? {
      var preserve := Classify(w.server, w.user, BindingOf(mem.session), mem.session.credential,
        item.entry.resourceId, item.entry.incarnationId);
      assert AdvanceFinalizing(w, mem, collation) ==
        w.(process := Up(mem.(pc := Finalizing(pc.retained, pc.additions, Some(preserve == Some(true))))));
    }
  }

  lemma ConsultOwed(w: World, mem: Memory, g: Goal, approved: set<(string, string)>, token: string,
      collation: string -> real)
    requires w.process == Up(mem) && Owed(w, g, approved) && mem.pc.Finalizing?
    requires |mem.pc.additions| < |mem.pc.retained.pending|
    ensures Owed(AdvanceFinalizing(w, mem, collation), g, approved + Approval(w, Program(token)))
  {
    hide Owed, AdvanceFinalizing, Approval, FinalForms, Finalize, Visible;
    var pc, more := mem.pc, approved + Approval(w, Program(token));
    MoreApproved(w, g, approved, Approval(w, Program(token)));
    ConsultedForms(w, mem, g, more);
    ConsultShape(w, mem, collation);
    StoppedOwed(w, g, more);
    var next := AdvanceFinalizing(w, mem, collation);
    if next.process.Up? && pc.asked.None? {
      FinalizingMoves(w, mem, g, more, pc.additions, next.process.mem.pc.asked);
    } else if next.process.Up? {
      var item := pc.retained.pending[|pc.additions|];
      VisibleApproved(w, mem, token);
      AppendForm(pc.additions, pc.retained.pending, more, Visible(w, item, pc.asked.value));
      FinalizingMoves(w, mem, g, more, pc.additions + [Finalize(item, Visible(w, item, pc.asked.value))], None);
    }
  }

  lemma ConsultedForms(w: World, mem: Memory, g: Goal, approved: set<(string, string)>)
    requires w.process == Up(mem) && Owed(w, g, approved) && mem.pc.Finalizing?
    ensures FinalForms(mem.pc.additions, mem.pc.retained.pending, approved)
  {
    hide Intact, Carried, FileStage, FinalForms;
  }

  lemma VisibleApproved(w: World, mem: Memory, token: string)
    requires w.process == Up(mem) && mem.pc.Finalizing? && |mem.pc.additions| < |mem.pc.retained.pending| &&
        mem.pc.asked.Some?
    ensures var item := mem.pc.retained.pending[|mem.pc.additions|];
            Visible(w, item, mem.pc.asked.value) ==>
              item.authorized && (item.entry.resourceId, item.entry.incarnationId) in Approval(w, Program(token))
  {
  }

  lemma AppendForm(adds: seq<Finalized>, pending: seq<Intent>, approved: set<(string, string)>, visible: bool)
    requires FinalForms(adds, pending, approved) && |adds| < |pending|
    requires visible ==> pending[|adds|].authorized && (pending[|adds|].entry.resourceId, pending[|adds|].entry.incarnationId) in approved
    ensures FinalForms(adds + [Finalize(pending[|adds|], visible)], pending, approved)
  {
  }

  lemma RetainedStage(w: World, mem: Memory, g: Goal, approved: set<(string, string)>)
    requires w.process == Up(mem) && Owed(w, g, approved) && mem.pc.Finalizing?
    ensures mem.pc.retained == Store(g.prior, g.pending) || (mem.pc.retained.pending == [] &&
        Recorded(mem.pc.retained.finalized, g, approved))
    ensures FinalForms(mem.pc.additions, mem.pc.retained.pending, approved)
  {
    hide Intact, Carried, Recorded, FinalForms;
  }

  lemma MergedRecords(w: World, mem: Memory, g: Goal, approved: set<(string, string)>, collation: string -> real)
    requires w.process == Up(mem) && Owed(w, g, approved) && mem.pc.Finalizing?
    requires |mem.pc.additions| == |mem.pc.retained.pending|
    ensures Recorded(SortById(mem.pc.retained.finalized + mem.pc.additions, collation), g, approved)
    ensures DistinctEntries(mem.pc.retained.finalized + mem.pc.additions)
  {
    hide Recorded, DistinctEntries, FinalForms, SortById, Carried, FileStage, PcStage, Intact;
    RetainedStage(w, mem, g, approved);
    var pc := mem.pc;
    assert Intact(g) by { OwedIntact(w, g, approved); }
    if pc.retained == Store(g.prior, g.pending) {
      MergeRecords(g, pc.additions, approved, collation);
    } else {
      assert pc.retained.finalized + pc.additions == pc.retained.finalized;
      RemergeRecords(pc.retained.finalized, g, approved, collation);
      RecordedDistinct(pc.retained.finalized, g, approved);
    }
  }

  lemma OwedIntact(w: World, g: Goal, approved: set<(string, string)>)
    requires Owed(w, g, approved)
    ensures Intact(g) && Carried(w.disk.app, g)
  {
    hide Intact, Carried, FileStage, PcStage;
  }

  lemma RecordedDistinct(m: seq<Finalized>, g: Goal, approved: set<(string, string)>)
    requires Recorded(m, g, approved)
    ensures DistinctEntries(m) && AllFinalized(m)
  {
    hide AllFinalized, DistinctEntries, Settles;
  }

  lemma PublishOwed(w: World, mem: Memory, g: Goal, approved: set<(string, string)>, merged: seq<Finalized>)
    requires w.process == Up(mem) && Owed(w, g, approved) && w.disk.reset.Some? && w.disk.reset.value.Cleared?
    requires Recorded(merged, g, approved)
    ensures Owed(w.(disk := w.disk.(quarantine := Some(Store(merged, []))),
        process := Up(mem.(finalized := merged, pc := Unlinking))), g, approved)
  {
    hide Intact, Carried, Recorded, FinalForms;
  }

  lemma MergeShape(w: World, mem: Memory, collation: string -> real)
    requires mem.pc.Finalizing? && |mem.pc.additions| >= |mem.pc.retained.pending|
    ensures var next := AdvanceFinalizing(w, mem, collation);
            var merged := SortById(mem.pc.retained.finalized + mem.pc.additions, collation);
            || next == w.(process := Down)
            || next == w.(disk := w.disk.(quarantine := Some(Store(merged, []))),
                process := Up(mem.(finalized := merged, pc := Unlinking)))
  {
    hide SortById, UniqueIds, FinalizedIds, ResetCapacity;
  }

  lemma MergeOwed(w: World, mem: Memory, g: Goal, approved: set<(string, string)>, collation: string -> real)
    requires w.process == Up(mem) && Owed(w, g, approved) && mem.pc.Finalizing? && w.disk.reset.Some? &&
        w.disk.reset.value.Cleared?
    requires |mem.pc.additions| == |mem.pc.retained.pending|
    ensures Owed(AdvanceFinalizing(w, mem, collation), g, approved)
  {
    hide Owed, AdvanceFinalizing, Recorded, SortById, DistinctEntries;
    MergedRecords(w, mem, g, approved, collation);
    MergeShape(w, mem, collation);
    StoppedOwed(w, g, approved);
    PublishOwed(w, mem, g, approved, SortById(mem.pc.retained.finalized + mem.pc.additions, collation));
  }

  lemma UnlinkFinishes(w: World, mem: Memory, g: Goal, approved: set<(string, string)>, base: int)
    requires w.process == Up(mem) && Owed(w, g, approved) && mem.pc.Unlinking? && w.disk.reset.Some? &&
        w.disk.reset.value.Cleared?
    requires Linked(w, base) && ResetSound(w.disk)
    ensures Finished(w.(disk := w.disk.(reset := None), process := Up(mem.(pc := Idle))), g, approved)
  {
    hide Intact, Carried, Recorded, RowAcknowledged, RequestLinked;
  }

  lemma OwedFile(w: World, g: Goal, approved: set<(string, string)>)
    requires Owed(w, g, approved)
    ensures w.disk.reset.Some?
  {
    hide Intact, Carried, PcStage;
  }

  /** The phase of the reset file at each point of the program. */
  lemma PhaseAt(pc: Pc, disk: Disk)
    requires PcSound(pc, disk) && disk.reset.Some?
    ensures !pc.Idle? && !pc.Inserting? && !pc.Asking? && !pc.Snapshotted?
    ensures pc.Resetting? || pc.Staging? ==> disk.reset.value.Quarantined?
    ensures pc.Storing? || pc.Acknowledging? || pc.Clearing? || pc.Uncovering? || pc.Closing? ==>
        disk.reset.value.SessionStaged?
    ensures pc.Finalizing? || pc.Unlinking? ==> disk.reset.value.Cleared?
  {
  }

  lemma ProgramOwed(w: World, g: Goal, approved: set<(string, string)>, base: int, token: string,
      collation: string -> real)
    requires w.process.Up? && Owed(w, g, approved) && Linked(w, base) && PcSound(w.process.mem.pc, w.disk) &&
        ResetSound(w.disk)
    ensures var next, more := Advance(w, w.process.mem, token, collation), approved + Approval(w, Program(token));
            Owed(next, g, more) || Finished(next, g, more)
  {
    var mem := w.process.mem;
    var more := approved + Approval(w, Program(token));
    OwedFile(w, g, approved);
    hide Owed, Finished, AdvanceAsking, AdvanceRotation, AdvanceClearing, AdvanceObserving, AdvanceFinalizing, Linked,
        Approval, PcSound, ResetSound;
    PhaseAt(mem.pc, w.disk);
    MoreApproved(w, g, approved, Approval(w, Program(token)));
    if mem.pc.Resetting? || mem.pc.Staging? {
      RotationOwed(w, mem, g, more, token);
    } else if mem.pc.Storing? || mem.pc.Acknowledging? || mem.pc.Clearing? || mem.pc.Uncovering? || mem.pc.Closing? {
      ClearingOwed(w, mem, g, more);
    } else if mem.pc.Challenging? || mem.pc.Observing? {
      ObservingOwed(w, mem, g, more, token);
    } else if mem.pc.Finalizing? {
      AdditionsBounded(w, g, approved);
      if |mem.pc.additions| < |mem.pc.retained.pending| {
        ConsultOwed(w, mem, g, approved, token, collation);
      } else {
        MergeOwed(w, mem, g, more, collation);
      }
    } else {
      UnlinkFinishes(w, mem, g, more, base);
    }
  }

  lemma AdditionsBounded(w: World, g: Goal, approved: set<(string, string)>)
    requires Owed(w, g, approved) && w.process.Up? && w.process.mem.pc.Finalizing?
    ensures |w.process.mem.pc.additions| <= |w.process.mem.pc.retained.pending|
  {
    hide Intact, Carried, Recorded, Finalize;
  }

  lemma OpenOwed(w: World, g: Goal, approved: set<(string, string)>)
    requires Owed(w, g, approved) && w.process.Down?
    ensures Owed(w.(process := OpenProcess(w.disk)), g, approved)
  {
    hide Intact, Carried, Recorded, OpenChecks, ReadBack, FinalForms;
  }

  lemma QuietOwed(w: World, g: Goal, approved: set<(string, string)>, step: Step, collation: string -> real)
    requires Owed(w, g, approved) && Sound(w.disk, w.process) && !step.Program? && !step.Open?
    ensures Owed(Next(w, step, collation), g, approved)
  {
    hide Next, Sound, Intact, Carried, Recorded, FinalForms;
    QuietStep(w, step, collation);
  }

  lemma QuietStepOwed(w: World, g: Goal, approved: set<(string, string)>, step: Step, collation: string -> real)
    requires Owed(w, g, approved) && Sound(w.disk, w.process) && !(step.Program? && w.process.Up?)
    ensures Owed(Next(w, step, collation), g, approved + Approval(w, step))
  {
    hide Owed, Sound, Approval, Next;
    NoApproval(w, step);
    assert approved + {} == approved;
    if step.Open? {
      OpenStepOwed(w, g, approved, step, collation);
    } else if step.Program? {
      DownProgram(w, step, collation);
    } else {
      QuietOwed(w, g, approved, step, collation);
    }
  }

  lemma NoApproval(w: World, step: Step)
    requires !(step.Program? && w.process.Up?)
    ensures Approval(w, step) == {}
  {
  }

  lemma OpenStepOwed(w: World, g: Goal, approved: set<(string, string)>, step: Step, collation: string -> real)
    requires Owed(w, g, approved) && step.Open?
    ensures Owed(Next(w, step, collation), g, approved)
  {
    hide Owed, OpenProcess;
    if w.process.Down? {
      OpenOwed(w, g, approved);
    }
  }

  lemma ProgramStep(w: World, token: string, collation: string -> real)
    requires w.process.Up?
    ensures Next(w, Program(token), collation) == Advance(w, w.process.mem, token, collation)
  {
    hide Advance;
  }

  /** Every step of any execution keeps the goal owed with everything needed on disk, or pays it. */
  lemma StepOwed(w: World, g: Goal, approved: set<(string, string)>, base: int, step: Step, collation: string -> real)
    requires Owed(w, g, approved) && Linked(w, base) && Sound(w.disk, w.process)
    ensures var next, more := Next(w, step, collation), approved + Approval(w, step);
            Owed(next, g, more) || Finished(next, g, more)
  {
    hide Owed, Finished, Advance, Linked, Approval, PcSound, ResetSound, Sound, Next;
    if step.Program? && w.process.Up? {
      SoundParts(w.disk, w.process);
      ProgramStep(w, step.token, collation);
      ProgramOwed(w, g, approved, base, step.token, collation);
    } else {
      QuietStepOwed(w, g, approved, step, collation);
    }
  }

  lemma DownProgram(w: World, step: Step, collation: string -> real)
    requires w.process.Down? && step.Program?
    ensures Next(w, step, collation) == w
  {
  }

  lemma SoundParts(disk: Disk, process: Process)
    requires Sound(disk, process) && process.Up?
    ensures PcSound(process.mem.pc, disk) && ResetSound(disk)
  {
    hide PcSound, ResetSound, HeldWithin, UploadSound, QueueCovered, AppSound;
  }

  // ---- every execution ---

  /** Everything approved during the first n steps. */
  ghost function Approved(worlds: seq<World>, steps: seq<Step>, i: nat, n: nat): set<(string, string)>
    requires |worlds| == |steps| + 1 && i <= n < |worlds|
    decreases n
  {
    if n == i then {} else Approved(worlds, steps, i, n - 1) + Approval(worlds[n - 1], steps[n - 1])
  }

  ghost predicate ResetThroughout(worlds: seq<World>, i: nat, n: nat)
    requires n < |worlds|
  {
    forall k :: i <= k < n ==> worlds[k].disk.reset.Some?
  }

  /** From the moment the reset file is durable the goal stays owed or gets paid, whatever crashes, resumes,
      delays and other traffic the execution contains. */
  lemma {:induction false} ResetRun(worlds: seq<World>, steps: seq<Step>, collation: string -> real, g: Goal, i: nat,
      n: nat)
    requires IsExecution(worlds, steps, collation) && Fresh(worlds[0]) && i <= n < |worlds|
    requires Owed(worlds[i], g, {}) && ResetThroughout(worlds, i, n)
    ensures var approved := Approved(worlds, steps, i, n);
            Owed(worlds[n], g, approved) || (n > i && Finished(worlds[n], g, approved))
  {
    hide Next, Fresh, Owed, Sound, Linked, Approval, EpochOf;
    if i < n {
      ResetRun(worlds, steps, collation, g, i, n - 1);
      ExecutionSound(worlds, steps, collation, n - 1);
      ExecutionLinked(worlds, steps, collation, n - 1);
      assert worlds[n - 1].disk.reset.Some?;
      assert !Finished(worlds[n - 1], g, Approved(worlds, steps, i, n - 1));
      hide Finished;
      StepOwed(worlds[n - 1], g, Approved(worlds, steps, i, n - 1), EpochOf(worlds[0]), steps[n - 1], collation);
    }
  }

  /** The reset file disappears only by finishing: the first world without it has paid the goal. */
  lemma ResetFileGoesLast(worlds: seq<World>, steps: seq<Step>, collation: string -> real, g: Goal, i: nat, n: nat)
    requires IsExecution(worlds, steps, collation) && Fresh(worlds[0]) && i <= n < |worlds|
    requires Owed(worlds[i], g, {}) && ResetThroughout(worlds, i, n) && worlds[n].disk.reset.None?
    ensures Finished(worlds[n], g, Approved(worlds, steps, i, n))
  {
    hide IsExecution, Fresh, Finished, Intact, Carried, Recorded, PcStage;
    ResetRun(worlds, steps, collation, g, i, n);
  }
}
