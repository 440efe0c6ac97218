/** The same client, not closed after a failure. A reset that throws leaves its caller holding the client object, and an
    upload that was in flight when the reset began goes on behind its back. Under a discipline the caller can keep, such
    an execution is one of the ordinary machine; without it, each of its main guarantees has a counterexample. */
module ReplicaLive {
  import opened Basics
  import opened CommandProtocol
  import opened Reservations
  import opened ServerState
  import opened ServerRuns
  import opened ServerCheckpoints
  import opened ApplicationState
  import opened QuarantineStore
  import opened ReplicaClient
  import opened ReplicaSafety
  import opened ReplicaOutcomes
  import opened ReplicaRotation
  import opened ReplicaGoal
  import opened ReplicaReset
  import opened ReplicaRecovery
  import opened ReplicaRetention
  import opened ReplicaConservation

  /** `failed` is the memory of a client whose reset threw; the world's process is then down. `straggler` is an upload
      that outlived the start of a reset, and `retrying` a reset called again in the same process. */
  datatype Live = Live(world: World, failed: Option<Memory>, straggler: Upload, handed: bool, retrying: bool)

  datatype LiveStep =
    | Ordinary(step: Step)
    | BeginBusy(orphans: seq<Command>)
    | Straggle(step: Step)
    | ResetFails
    | Retry(orphans: seq<Command>)
    | QueueAfterFailure(command: Command)
    | DiscardAfterFailure(id: string)

  // ---- steps of the live client ---

  /** The caller holds the client from the end of its opening until the process stops. */
  function Watched(l: Live): Live {
    match l.world.process
    case Down => l.(handed := l.handed && l.failed.Some?, retrying := false)
    case Up(mem) => l.(handed := l.handed || mem.pc.Idle?, retrying := l.retrying && !mem.pc.Idle?)
  }

  predicate External(step: Step) {
    step.Environment? || step.Deliver? || step.Replicate?
  }

  /** The stored session already is the staged one: same replica, same epoch. */
  predicate StagedStored(app: App, next: Session) {
    app.session.Some? && app.session.value.session.replicaId == next.replicaId &&
        app.session.value.session.epoch == next.epoch
  }

  /** What the reset count becomes when a reset called again is acknowledged. */
  function Counted(app: App, next: Session, count: int): int {
    if StagedStored(app, next) then app.session.value.resetCount else count + 1
  }

  /** Called again, the reset counts at its acknowledgement and stores the session only after it has cleared. */
  ghost function RetryAdvance(w: World, mem: Memory, token: string, collation: string -> real): World {
    if mem.pc.Acknowledging? && w.disk.reset.Some? && w.disk.reset.value.SessionStaged? then
      var file := w.disk.reset.value;
      var outcome := AcknowledgeReset(w.server, w.user, BindingOf(file.next), file.next.credential, file.requestId);
      var count := Counted(w.disk.app, file.next, mem.resetCount);
      w.(server := outcome.0,
         process := if outcome.1 then Up(mem.(session := file.next, resetCount := count, pc := Clearing)) else Down)
    else if mem.pc.Challenging? && w.disk.app.session != Some(SessionRow(mem.session, mem.resetCount)) then
      w.(disk := w.disk.(app := StoreSession(w.disk.app, mem.session, mem.resetCount)))
    else Advance(w, mem, token, collation)
  }

  ghost function OrdinaryNext(l: Live, step: Step, collation: string -> real): Live {
    if External(step) then l.(world := Next(l.world, step, collation))
    else if step.Crash? then Live(Next(l.world, Crash, collation), None, Resting, false, false)
    else if l.failed.Some? then l
    else if step.Program? && l.retrying && l.world.process.Up? then
      l.(world := RetryAdvance(l.world, l.world.process.mem, step.token, collation))
    else l.(world := Next(l.world, step, collation))
  }

  /** The reset begins although an upload is in flight: disconnecting does not wait for it. */
  ghost function BusyNext(l: Live, orphans: seq<Command>): Live {
    if l.failed.Some? || l.world.process.Down? then l
    else
      var mem := l.world.process.mem;
      var begun := BeginSnapshot(l.world.disk, mem.(upload := Resting), orphans);
      if begun.pc.Asking? && mem.pc.Idle? then l.(world := l.world.(process := Up(begun)), straggler := mem.upload)
          else l
  }

  predicate Settling(step: Step) {
    step.Reply? || step.LoseReply? || step.Persist? || step.Complete? || step.Mark?
  }

  ghost function StraggleNext(l: Live, step: Step): Live {
    if l.straggler.Resting? || !Settling(step) || (l.failed.None? && l.world.process.Down?) then l
    else
      var mem := if l.failed.Some? then l.failed.value else l.world.process.mem;
      var running := mem.(upload := l.straggler);
      var t := UploadStep(l.world.(process := Up(running)), running, step);
      if t.process.Down? then l
      else
        var after := t.process.mem.(upload := mem.upload);
        if l.failed.Some?
        then l.(world := t.(process := Down), failed := Some(after), straggler := t.process.mem.upload)
        else l.(world := t.(process := Up(after)), straggler := t.process.mem.upload)
  }

  ghost function FailNext(l: Live): Live {
    if l.failed.None? && l.handed && l.world.process.Up? && !Connected(l.world.process.mem.pc)
    then Live(l.world.(process := Down), Some(l.world.process.mem.(pc := Idle)), l.straggler, true, false)
    else l
  }

  /** performReplicaReset on a client whose last one threw: it goes on from the reset file. */
  ghost function RetryNext(l: Live, orphans: seq<Command>): Live {
    if l.failed.None? then l
    else
      var mem, w := l.failed.value, l.world;
      match w.disk.reset
      case None =>
        var begun := BeginSnapshot(w.disk, mem.(upload := Resting), orphans);
        if begun.pc.Asking? then l.(world := w.(process := Up(begun)), failed := None) else l
      case Some(Quarantined(_, _)) => l.(world := w.(process := Up(mem.(pc := Resetting))), failed := None,
          retrying := true)
      case Some(SessionStaged(requestId, _, next)) =>
        l.(world := w.(process := Up(mem.(pc := Acknowledging)), sent := w.sent + {ResetAckRequest(next, requestId)}),
           failed := None, retrying := true)
      case Some(Cleared(_, _, next)) =>
        l.(world := w.(process := Up(mem.(session := next, pc := Challenging))), failed := None, retrying := true)
  }

  /** queueCommands on such a client: overlay and queue entry, as long as its database is still open. */
  ghost function QueueNext(l: Live, command: Command): Live {
    if l.failed.None? || (l.world.disk.reset.Some? && l.world.disk.reset.value.Cleared?) then l
    else
      var (disk, mem) := QueueOverlay(l.world.disk, l.failed.value, command);
      if mem.pc.Inserting? then l.(world := l.world.(disk := disk.(queue := disk.queue + [QueuedForm(command)]))) else l
  }

  ghost function DiscardNext(l: Live, id: string): Live {
    if l.failed.None? then l
    else
      match Acknowledge(l.failed.value.finalized, id)
      case None => l
      case Some(store) =>
        l.(world := l.world.(disk := l.world.disk.(quarantine := Some(store))),
           failed := Some(l.failed.value.(finalized := store.finalized)))
  }

  ghost function LiveNext(l: Live, step: LiveStep, collation: string -> real): Live {
    match step
    case Ordinary(s) => Watched(OrdinaryNext(l, s, collation))
    case BeginBusy(orphans) => Watched(BusyNext(l, orphans))
    case Straggle(s) => Watched(StraggleNext(l, s))
    case ResetFails => FailNext(l)
    case Retry(orphans) => Watched(RetryNext(l, orphans))
    case QueueAfterFailure(command) => QueueNext(l, command)
    case DiscardAfterFailure(id) => DiscardNext(l, id)
  }

  ghost predicate IsLive(lives: seq<Live>, steps: seq<LiveStep>, collation: string -> real) {
    && |lives| == |steps| + 1
    && (forall i :: 0 <= i < |steps| ==> lives[i + 1] == LiveNext(lives[i], steps[i], collation))
  }

  ghost predicate FreshLive(l: Live) {
    Fresh(l.world) && l == Live(l.world, None, Resting, true, false)
  }

  // ---- the discipline ---

  /** No reset is begun while an upload is in flight, and a client whose reset threw is not called again: it is closed,
      and opened anew. */
  predicate Patient(l: Live, step: LiveStep) {
    !step.BeginBusy? && (l.failed.Some? ==> step.Ordinary?)
  }

  ghost predicate AllPatient(lives: seq<Live>, steps: seq<LiveStep>) {
    |lives| == |steps| + 1 && forall i :: 0 <= i < |steps| ==> Patient(lives[i], steps[i])
  }

  predicate Plain(l: Live) {
    l.straggler.Resting? && !l.retrying && (l.failed.Some? ==> l.world.process.Down?)
  }

  /** The ordinary step a live step amounts to; replicating the rows already there is none at all. */
  ghost function StepOf(l: Live, step: LiveStep): Step {
    match step
    case Ordinary(s) => if l.failed.Some? && !External(s) && !s.Crash? then Replicate(l.world.disk.rows) else s
    case ResetFails => if FailNext(l) == l then Replicate(l.world.disk.rows) else Crash
    case _ => Replicate(l.world.disk.rows)
  }

  lemma NothingReplicated(w: World, collation: string -> real)
    ensures Next(w, Replicate(w.disk.rows), collation) == w
  {
    hide Advance, UploadStep, OpenProcess;
  }

  lemma CrashOnly(w: World, collation: string -> real)
    ensures Next(w, Crash, collation) == w.(process := Down)
  {
    hide Advance, UploadStep, OpenProcess;
  }

  lemma ExternalKeepsProcess(w: World, step: Step, collation: string -> real)
    requires External(step)
    ensures Next(w, step, collation).process == w.process
  {
    hide Advance, UploadStep, OpenProcess, ServerRuns.Step, Enabled, Handle;
  }

  /** A patient step of the live client is a step of the ordinary machine. */
  lemma PatientStep(l: Live, step: LiveStep, collation: string -> real)
    requires Plain(l) && Patient(l, step)
    ensures Plain(LiveNext(l, step, collation))
    ensures LiveNext(l, step, collation).world == Next(l.world, StepOf(l, step), collation)
  {
    hide Next, RetryAdvance, BusyNext, QueueOverlay, Acknowledge, BeginSnapshot, UploadStep;
    NothingReplicated(l.world, collation);
    CrashOnly(l.world, collation);
    if step.Ordinary? && External(step.step) {
      ExternalKeepsProcess(l.world, step.step, collation);
    }
  }

  function Worlds(lives: seq<Live>): seq<World> {
    seq(|lives|, i requires 0 <= i < |lives| => lives[i].world)
  }

  ghost function StepsOf(lives: seq<Live>, steps: seq<LiveStep>): seq<Step>
    requires |lives| == |steps| + 1
  {
    seq(|steps|, i requires 0 <= i < |steps| => StepOf(lives[i], steps[i]))
  }

  lemma {:induction false} PatientPlain(lives: seq<Live>, steps: seq<LiveStep>, collation: string -> real, n: nat)
    requires IsLive(lives, steps, collation) && FreshLive(lives[0]) && AllPatient(lives, steps) && n < |lives|
    ensures Plain(lives[n])
  {
    hide LiveNext, Fresh, Patient;
    if n > 0 {
      PatientPlain(lives, steps, collation, n - 1);
      PatientStep(lives[n - 1], steps[n - 1], collation);
    }
  }

  /** A patient execution of the live client is an execution of the ordinary machine, world for world. */
  lemma PatientIsOrdinary(lives: seq<Live>, steps: seq<LiveStep>, collation: string -> real)
    requires IsLive(lives, steps, collation) && FreshLive(lives[0]) && AllPatient(lives, steps)
    ensures IsExecution(Worlds(lives), StepsOf(lives, steps), collation) && Fresh(Worlds(lives)[0])
  {
    hide LiveNext, Fresh, Patient, Next, StepOf;
    forall i | 0 <= i < |steps| ensures Worlds(lives)[i + 1] == Next(Worlds(lives)[i], StepsOf(lives, steps)[i],
        collation) {
      PatientPlain(lives, steps, collation, i);
      PatientStep(lives[i], steps[i], collation);
    }
  }

  /** Under the discipline the stored reset count is the number of epochs gained, failed resets included. */
  lemma PatientAccounting(lives: seq<Live>, steps: seq<LiveStep>, collation: string -> real, n: nat)
    requires IsLive(lives, steps, collation) && FreshLive(lives[0]) && AllPatient(lives, steps) && n < |lives|
    ensures lives[n].world.disk.app.session.Some?
    ensures lives[n].world.disk.app.session.value.resetCount == EpochOf(lives[n].world) - EpochOf(lives[0].world)
    ensures ResumePc(lives[n].world.disk).Some?
  {
    hide IsLive, FreshLive, IsExecution, Fresh, AllPatient, StepsOf, ResumePc, EpochOf;
    PatientIsOrdinary(lives, steps, collation);
    LiveLength(lives, steps, collation);
    RotationAccounting(Worlds(lives), StepsOf(lives, steps), collation, n);
  }

  lemma LiveLength(lives: seq<Live>, steps: seq<LiveStep>, collation: string -> real)
    requires IsLive(lives, steps, collation)
    ensures |lives| == |steps| + 1
  {
    hide LiveNext;
  }

  /** Under the discipline nothing is lost, failed resets included. */
  lemma PatientConservation(lives: seq<Live>, steps: seq<LiveStep>, collation: string -> real, i: nat, j: nat,
      id: string)
    requires IsLive(lives, steps, collation) && FreshLive(lives[0]) && AllPatient(lives, steps) && i <= j < |lives|
    requires forall k :: 0 <= k < |steps| ==> OrderlyStep(lives[k].world, StepOf(lives[k], steps[k]))
    requires Kept(lives[i].world.disk, id)
    requires forall k :: i <= k < j ==> !Releases(lives[k].world, StepOf(lives[k], steps[k]), id)
    ensures Kept(lives[j].world.disk, id)
  {
    hide LiveNext, Fresh, Patient, Next, StepOf, OrderlyStep, Releases, Kept;
    PatientIsOrdinary(lives, steps, collation);
    NothingIsLost(Worlds(lives), StepsOf(lives, steps), collation, i, j, id);
  }

  // ---- a reset called again counts again ---

  /** The client whose reset threw calls it once more, and the server acknowledges. */
  ghost function Retried(l: Live, token: string, collation: string -> real): Live {
    LiveNext(LiveNext(l, Retry([]), collation), Ordinary(Program(token)), collation)
  }

  /** The client's reset threw after its session was staged, and the server would acknowledge it. */
  ghost predicate FailedStaged(l: Live) {
    && l.failed.Some? && l.failed.value.pc.Idle? && l.world.process.Down? && l.handed
    && l.world.disk.reset.Some? && l.world.disk.reset.value.SessionStaged?
    && var file := l.world.disk.reset.value;
       AcknowledgeReset(l.world.server, l.world.user, BindingOf(file.next), file.next.credential, file.requestId).1
  }

  lemma RetryAcknowledges(l: Live, token: string, collation: string -> real)
    requires FailedStaged(l)
    ensures var file, next := l.world.disk.reset.value, Retried(l, token, collation);
            && next.world.disk == l.world.disk && next.world.user == l.world.user && next.failed.None? && next.handed &&
                next.retrying
            && next.world.server ==
                 AcknowledgeReset(l.world.server, l.world.user, BindingOf(file.next), file.next.credential,
                     file.requestId).0
            && next.world.process == Up(l.failed.value.(session := file.next, pc := Clearing,
                 resetCount := Counted(l.world.disk.app, file.next, l.failed.value.resetCount)))
  {
    hide Advance, UploadStep, OpenProcess, AcknowledgeReset, BeginSnapshot;
  }

  lemma FailedAgain(l: Live, collation: string -> real)
    requires l.failed.None? && l.handed && l.world.process.Up? && !Connected(l.world.process.mem.pc)
    ensures LiveNext(l, ResetFails, collation) ==
              Live(l.world.(process := Down), Some(l.world.process.mem.(pc := Idle)), l.straggler, true, false)
  {
    hide OrdinaryNext, BusyNext, StraggleNext, RetryNext, QueueNext, DiscardNext;
  }

  /** Two further calls, the first of which throws after the acknowledgement, count the reset twice exactly when the
      application session had not been stored before the first failure. */
  lemma CountedTwice(l: Live, token: string, collation: string -> real)
    requires FailedStaged(l)
    ensures var once := Retried(l, token, collation);
            var twice := Retried(LiveNext(once, ResetFails, collation), token, collation);
            && twice.world.process.Up? && twice.world.disk == l.world.disk
            && twice.world.process.mem.resetCount ==
                 if StagedStored(l.world.disk.app, l.world.disk.reset.value.next)
                 then l.world.disk.app.session.value.resetCount else l.failed.value.resetCount + 2
  {
    hide LiveNext, AcknowledgeReset;
    var file := l.world.disk.reset.value;
    RetryAcknowledges(l, token, collation);
    var once := Retried(l, token, collation);
    FailedAgain(once, collation);
    var again := LiveNext(once, ResetFails, collation);
    ResetAckIdempotent(l.world.server, l.world.user, BindingOf(file.next), file.next.credential, file.requestId);
    RetryAcknowledges(again, token, collation);
  }

  /** The program of a reset called again, from its acknowledgement to the moment the cleared phase is durable. */
  ghost function ClearedBy(l: Live, token: string, collation: string -> real): Live {
    var p := Ordinary(Program(token));
    LiveNext(LiveNext(LiveNext(l, p, collation), p, collation), p, collation)
  }

  lemma RetryClears(l: Live, token: string, collation: string -> real)
    requires l.failed.None? && l.handed && l.retrying && l.world.process.Up? && l.world.process.mem.pc.Clearing?
    requires l.world.disk.reset.Some? && l.world.disk.reset.value.SessionStaged? && CheckedStore(l.world.disk)
    ensures var file, next := l.world.disk.reset.value, ClearedBy(l, token, collation);
            && next.world.disk == l.world.disk.(queue := [], app := ClearAll(l.world.disk.app),
                 reset := Some(Cleared(file.requestId, file.previous, file.next)))
            && next.world.process == Up(l.world.process.mem.(pc := Challenging)) && next.failed.None? && next.retrying
  {
    hide UploadStep, OpenProcess, CheckedStore, ClearAll, BeginSnapshot;
    var p := Ordinary(Program(token));
    var one := LiveNext(l, p, collation);
    assert one.world == l.world.(disk := l.world.disk.(queue := []),
        process := Up(l.world.process.mem.(pc := Uncovering)));
    var two := LiveNext(one, p, collation);
    assert two.world == one.world.(disk := one.world.disk.(app := ClearAll(one.world.disk.app)),
             process := Up(l.world.process.mem.(pc := Closing)));
  }

  /** The stored count of a reset that failed before its session was stored and was then called twice more: it is one
      too many, where the discipline makes it exact. */
  lemma DoubleCount(l: Live, base: int, token: string, collation: string -> real)
    requires l.failed.None? && l.handed && l.world.process.Up? && l.world.process.mem.pc.Storing?
    requires Linked(l.world, base) && CheckedStore(l.world.disk)
    requires FailedStaged(LiveNext(l, ResetFails, collation)) &&
        !StagedStored(l.world.disk.app, l.world.disk.reset.value.next)
    ensures var first := LiveNext(l, ResetFails, collation);
            var second := LiveNext(Retried(first, token, collation), ResetFails, collation);
            var cleared := ClearedBy(Retried(second, token, collation), token, collation);
            var stored := LiveNext(cleared, Ordinary(Program(token)), collation);
            && stored.world.disk.app.session.Some? && stored.world.disk.reset.Some? &&
                stored.world.disk.reset.value.Cleared?
            && stored.world.disk.app.session.value.resetCount == Current(l.world.disk).epoch - base + 2
  {
    hide LiveNext, AcknowledgeReset, Linked, CheckedStore, ClearAll, StagedStored;
    FailedAgain(l, collation);
    var first := LiveNext(l, ResetFails, collation);
    LinkedCount(l.world, base);
    var file := l.world.disk.reset.value;
    RetryAcknowledges(first, token, collation);
    var once := Retried(first, token, collation);
    FailedAgain(once, collation);
    var second := LiveNext(once, ResetFails, collation);
    ResetAckIdempotent(first.world.server, first.world.user, BindingOf(file.next), file.next.credential,
        file.requestId);
    RetryAcknowledges(second, token, collation);
    var twice := Retried(second, token, collation);
    RetryClears(twice, token, collation);
    NotYetStored(l.world.disk.app, file.next, twice.world.process.mem.resetCount);
    StoresLate(ClearedBy(twice, token, collation), token, collation);
  }

  lemma NotYetStored(app: App, next: Session, count: int)
    requires !StagedStored(app, next)
    ensures ClearAll(app).session != Some(SessionRow(next, count))
  {
  }

  lemma LinkedCount(w: World, base: int)
    requires Linked(w, base) && w.process.Up?
    ensures w.disk.app.session.Some? && w.process.mem.resetCount == Current(w.disk).epoch - base
  {
    hide FileLinked, RequestLinked, PcLinked;
  }

  lemma StoresLate(l: Live, token: string, collation: string -> real)
    requires l.failed.None? && l.retrying && l.world.process.Up? && l.world.process.mem.pc.Challenging?
    requires l.world.disk.app.session != Some(SessionRow(l.world.process.mem.session, l.world.process.mem.resetCount))
    ensures LiveNext(l, Ordinary(Program(token)), collation).world.disk ==
              l.world.disk.(app := StoreSession(l.world.disk.app, l.world.process.mem.session,
                  l.world.process.mem.resetCount))
  {
    hide Advance, UploadStep, OpenProcess, BeginSnapshot;
  }

  /** And if the process stops between the two writes, no later open succeeds: the cleared phase names a session the
      application does not have. It is exactly the stored session that decides. */
  lemma ClearedMismatch(disk: Disk)
    requires disk.reset.Some? && disk.reset.value.Cleared? && disk.app.session.Some?
    ensures ResumePc(disk).Some? <==> Current(disk) == disk.reset.value.next
    ensures Current(disk) != disk.reset.value.next ==> OpenProcess(disk).Down?
  {
    hide OpenChecks, ReadBack;
  }

  // ---- a command queued after a failure is lost ---

  /** Clearing the overlays keeps exactly the commands that have a result or are in the quarantine file. */
  lemma KeptByClearing(disk: Disk, id: string)
    ensures Kept(disk.(queue := [], app := ClearAll(disk.app)), id) <==>
              id in disk.app.results || InFile(Filed(disk.quarantine), id)
  {
    hide InFile;
  }

  /** A command that is queued on a client whose reset threw is in no store once the reset, called again, has cleared:
      the quarantine file was written before it came. */
  lemma QueuedThenLost(l: Live, command: Command, token: string, collation: string -> real)
    requires FailedStaged(l) && CheckedStore(l.world.disk)
    requires LiveNext(l, QueueAfterFailure(command), collation) != l
    requires !InFile(Filed(l.world.disk.quarantine), command.commandId)
    ensures var queued := LiveNext(l, QueueAfterFailure(command), collation);
            var cleared := ClearedBy(Retried(queued, token, collation), token, collation);
            && Kept(queued.world.disk, command.commandId) && !Kept(cleared.world.disk, command.commandId)
  {
    hide LiveNext, AcknowledgeReset, CheckedStore, ClearAll, InFile, Active;
    QueuedState(l, command, collation);
    var queued := LiveNext(l, QueueAfterFailure(command), collation);
    SameChecks(l.world.disk, queued.world.disk);
    RetryAcknowledges(queued, token, collation);
    RetryClears(Retried(queued, token, collation), token, collation);
    KeptByClearing(queued.world.disk, command.commandId);
    ClearedKept(queued.world.disk, ClearedBy(Retried(queued, token, collation), token, collation).world.disk,
        command.commandId);
  }

  lemma ClearedKept(disk: Disk, t: Disk, id: string)
    requires t.app == ClearAll(disk.app) && t.quarantine == disk.quarantine
    ensures Kept(t, id) <==> Kept(disk.(queue := [], app := ClearAll(disk.app)), id)
  {
    hide ClearAll, InFile, Active;
  }

  lemma QueuedState(l: Live, command: Command, collation: string -> real)
    requires l.failed.Some? && l.failed.value.pc.Idle? && LiveNext(l, QueueAfterFailure(command), collation) != l
    ensures var next := LiveNext(l, QueueAfterFailure(command), collation);
            && next == l.(world := next.world) && next.world == l.world.(disk := next.world.disk)
            && next.world.disk.quarantine == l.world.disk.quarantine && next.world.disk.reset == l.world.disk.reset
            && next.world.disk.app.results == l.world.disk.app.results
            && command.commandId in Active(next.world.disk.app) && command.commandId !in next.world.disk.app.results
  {
    hide OrdinaryNext, BusyNext, StraggleNext, RetryNext, FailNext, DiscardNext, OverlayFor, AddAll;
    if Admits(l.world.disk.app, l.failed.value.finalized, command) {
      QueuedOverlay(l.world.disk.app, command);
    }
  }

  lemma QueuedOverlay(app: App, command: Command)
    requires command.commandId !in Active(app)
    ensures AddAll(app, [OverlayFor(command)]) ==
        Ok(app.(overlays := app.overlays[command.commandId := OverlayFor(command)]))
  {
    hide OutstandingReservation, CommandBytes;
    AddedOverlay(app, OverlayFor(command));
  }

  lemma SameChecks(disk: Disk, t: Disk)
    requires CheckedStore(disk) && t.quarantine == disk.quarantine && t.app.results == disk.app.results
    ensures CheckedStore(t)
  {
    hide ReadBack, Total, FinalizedTotal, PendingTotal;
    assert ResultReservations(t.app) == ResultReservations(disk.app);
  }

  // ---- an upload in flight settles behind the snapshot ---

  /** A reset begun while an upload is about to store its result puts the command into the snapshot and, one step later,
      into the results, although every queued command still had its overlay when the reset began. */
  lemma StragglerSettles(l: Live, orphans: seq<Command>, result: TerminalResult, collation: string -> real)
    requires l.failed.None? && l.world.process.Up? && Sound(l.world.disk, l.world.process) && l.straggler.Resting?
    requires l.world.process.mem.upload == Persisting(result) && PersistAll(l.world.disk.app, [result]).Ok?
    requires QueueOverlaid(l.world.disk)
    requires LiveNext(l, BeginBusy(orphans), collation).straggler == Persisting(result)
    ensures var begun := LiveNext(l, BeginBusy(orphans), collation);
            var settled := LiveNext(begun, Straggle(Persist), collation);
            && result.commandId !in l.world.disk.app.results && result.commandId in settled.world.disk.app.results
            && settled.world.process.Up? && settled.world.process.mem.pc.Asking?
            && Listed(settled.world.process.mem.pc.candidates, result.commandId)
  {
    hide LiveNext, Sound, PersistAll, Listed, QueueOverlaid;
    BusyShape(l, orphans, collation);
    StraggleShape(LiveNext(l, BeginBusy(orphans), collation), result, collation);
    PersistedResult(l.world.disk.app, result);
    PersistedHead(l.world.disk, l.world.process.mem, result, PersistAll(l.world.disk.app, [result]).value);
    HeadListed(l.world.disk.queue, orphans, result.commandId);
  }

  lemma BusyShape(l: Live, orphans: seq<Command>, collation: string -> real)
    requires l.failed.None? && l.world.process.Up? && l.straggler.Resting? && !l.world.process.mem.upload.Resting?
    requires LiveNext(l, BeginBusy(orphans), collation).straggler == l.world.process.mem.upload
    ensures var next := LiveNext(l, BeginBusy(orphans), collation);
            && next.failed.None? && next.world.disk == l.world.disk && next.world.process.Up?
            && next.world.process.mem.pc.Asking? && next.world.process.mem.pc.candidates == l.world.disk.queue + orphans
  {
    hide OrdinaryNext, StraggleNext, RetryNext, FailNext, DiscardNext, QueueNext, ListsOrphans, Snapshotable, ReadBack;
  }

  lemma StraggleShape(l: Live, result: TerminalResult, collation: string -> real)
    requires l.failed.None? && l.world.process.Up? && l.straggler == Persisting(result)
    requires PersistAll(l.world.disk.app, [result]).Ok?
    ensures var next := LiveNext(l, Straggle(Persist), collation);
            && next.world.disk == l.world.disk.(app := PersistAll(l.world.disk.app, [result]).value)
            && next.world.process.Up? && next.world.process.mem.pc == l.world.process.mem.pc
  {
    hide OrdinaryNext, BusyNext, RetryNext, FailNext, DiscardNext, QueueNext, PersistAll;
  }

  lemma PersistedHead(disk: Disk, mem: Memory, result: TerminalResult, t: App)
    requires Sound(disk, Up(mem)) && mem.upload == Persisting(result) && QueueOverlaid(disk)
    requires PersistOne(disk.app, result) == Ok(t)
    ensures result.commandId !in disk.app.results && result.commandId in t.results
    ensures Listed(disk.queue, result.commandId)
  {
    hide PersistOne, Fits, HeldWithin, PcSound, ResetSound;
    UploadParts(disk, mem);
    PersistedRow(disk.app, result, t);
    assert disk.queue[0].commandId == result.commandId;
  }

  lemma HeadListed(queue: seq<Command>, orphans: seq<Command>, id: string)
    requires Listed(queue, id)
    ensures Listed(queue + orphans, id)
  {
    ListedAppend(queue, orphans, id);
  }
}
