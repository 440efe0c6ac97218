/** The application sidecar of the client: terminal results, optimistic overlays, failed attempts and the
    replica session. Each operation is one SQLite transaction, so a failing one leaves every table alone. */
module ApplicationState {
  import opened Basics
  import opened CommandProtocol
  import opened Reservations
  import opened ServerState

  datatype ResultRow = ResultRow(result: TerminalResult, reserved: nat, actual: nat, completed: bool)

  datatype Overlay = Overlay(command: Command, reserved: nat, actual: nat)

  datatype SessionRow = SessionRow(session: Session, resetCount: int)

  datatype App = App(
    results: map<string, ResultRow>, overlays: map<string, Overlay>, attempts: map<string, nat>,
    session: Option<SessionRow>)

  datatype StateError =
    | ResultIdConflict | ReservationExceeded | CountExceeded | BytesExceeded | MissingResult | AlreadyActive | ConstraintViolation

  datatype Usage = Usage(count: nat, bytes: nat)

  // ---- accounting ---

  function ResultReservations(app: App): map<string, nat> {
    map id | id in app.results :: app.results[id].reserved
  }

  function OverlayReservations(app: App): map<string, nat> {
    map id | id in app.overlays :: app.overlays[id].reserved
  }

  /** capacityUsage: counts and sums over both tables. */
  ghost function CapacityUsage(app: App): Usage {
    Usage(|app.results| + |app.overlays|, Total(ResultReservations(app)) + Total(OverlayReservations(app)))
  }

  function OutstandingError(used: Usage, added: nat): Option<StateError> {
    if used.count + 1 > MAX_OUTSTANDING then Some(CountExceeded)
    else if used.bytes + added > MAX_BYTES then Some(BytesExceeded)
    else None
  }

  ghost predicate Disjoint(app: App) {
    app.results.Keys !! app.overlays.Keys
  }

  ghost function Active(app: App): set<string> {
    app.results.Keys + app.overlays.Keys
  }

  /** What each active command holds, wherever it currently lives. */
  ghost function Held(app: App): map<string, nat> {
    map id | id in Active(app) :: if id in app.results then app.results[id].reserved else app.overlays[id].reserved
  }

  /** With results and overlays disjoint, the two tables add up to what the active commands hold. */
  lemma UsageIsHeld(app: App)
    requires Disjoint(app)
    ensures CapacityUsage(app) == Usage(|Held(app)|, Total(Held(app)))
  {
    HeldTogether(app);
    HeldCount(app);
    hide Total, Held, ResultReservations, OverlayReservations;
    TotalUnion(ResultReservations(app), OverlayReservations(app));
  }

  lemma HeldTogether(app: App)
    requires Disjoint(app)
    ensures ResultReservations(app).Keys !! OverlayReservations(app).Keys
    ensures Held(app) == ResultReservations(app) + OverlayReservations(app)
  {
  }

  lemma HeldCount(app: App)
    requires Disjoint(app)
    ensures |Held(app)| == |app.results| + |app.overlays|
  {
    assert Held(app).Keys == app.results.Keys + app.overlays.Keys;
  }

  // ---- operations ---

  function NormalizedCode(code: TerminalCode): TerminalCode {
    if code == ServedCode(AlreadyApplied) then ServedCode(AppliedCode) else code
  }

  /** A second result for the same command must report the same outcome; only attempt numbers may differ. */
  predicate SameOutcome(existing: TerminalResult, result: TerminalResult) {
    && existing.resourceId == result.resourceId
    && existing.state == result.state
    && NormalizedCode(existing.code) == NormalizedCode(result.code)
    && existing.previousVersion == result.previousVersion
    && existing.currentVersion == result.currentVersion
    && existing.digest == result.digest
  }

  function Settle(app: App, id: string): App {
    app.(overlays := app.overlays - {id}, attempts := app.attempts - {id})
  }

  function ReservationFor(app: App, result: TerminalResult): nat {
    if result.commandId in app.overlays then app.overlays[result.commandId].reserved
    else OutstandingReservation(ResultBytes(result))
  }

  ghost function PersistOne(app: App, result: TerminalResult): Result<App, StateError> {
    var id := result.commandId;
    if id in app.results then
      if SameOutcome(app.results[id].result, result) then Ok(Settle(app, id)) else Err(ResultIdConflict)
    else
      var actual, reserved := ResultBytes(result), ReservationFor(app, result);
      if actual > reserved then Err(ReservationExceeded)
      else if id !in app.overlays && OutstandingError(CapacityUsage(app), reserved).Some? then
        Err(OutstandingError(CapacityUsage(app), reserved).value)
      else Ok(Settle(app.(results := app.results[id := ResultRow(result, reserved, actual, false)]), id))
  }

  ghost function PersistAll(app: App, results: seq<TerminalResult>): Result<App, StateError> {
    if results == [] then Ok(app)
    else
      match PersistAll(app, results[..|results| - 1])
      case Err(error) => Err(error)
      case Ok(next) => PersistOne(next, results[|results| - 1])
  }

  function MarkAll(app: App, ids: seq<string>): Result<App, StateError> {
    if ids == [] then Ok(app)
    else
      match MarkAll(app, ids[..|ids| - 1])
      case Err(error) => Err(error)
      case Ok(next) =>
        var id := ids[|ids| - 1];
        if id !in next.results then Err(MissingResult)
        else Ok(next.(results := next.results[id := next.results[id].(completed := true)]))
  }

  function BatchIds(overlays: seq<Overlay>): set<string> {
    if overlays == [] then {} else BatchIds(overlays[..|overlays| - 1]) + {overlays[|overlays| - 1].command.commandId}
  }

  function InsertedIds(overlays: seq<Overlay>): seq<string> {
    if overlays == [] then [] else InsertedIds(overlays[..|overlays| - 1]) + [overlays[|overlays| - 1].command.commandId]
  }

  /** Primary-key violations surface as ConstraintViolation. */
  function AddOne(app: App, batchIds: set<string>, overlay: Overlay): Result<App, StateError> {
    var id := overlay.command.commandId;
    if id in batchIds || id in app.results then Err(AlreadyActive)
    else if id in app.overlays then Err(ConstraintViolation)
    else Ok(app.(overlays := app.overlays[id := overlay]))
  }

  function AddAll(app: App, overlays: seq<Overlay>): Result<App, StateError> {
    if overlays == [] then Ok(app)
    else
      match AddAll(app, overlays[..|overlays| - 1])
      case Err(error) => Err(error)
      case Ok(next) => AddOne(next, BatchIds(overlays[..|overlays| - 1]), overlays[|overlays| - 1])
  }

  function RemoveAll(app: App, ids: seq<string>): App {
    if ids == [] then app else RemoveAll(app, ids[..|ids| - 1]).(overlays := RemoveAll(app,
        ids[..|ids| - 1]).overlays - {ids[|ids| - 1]})
  }

  function ClearAll(app: App): App {
    app.(overlays := map[], attempts := map[])
  }

  function AcknowledgeOne(app: App, id: string): (App, bool) {
    if id in app.results && app.results[id].completed then (app.(results := app.results - {id}), true) else (app, false)
  }

  /** The table admits counts of 1 to 5 only; a sixth failure violates the constraint. */
  function RecordFailure(app: App, id: string): Result<(App, nat), StateError> {
    var failures := 1 + if id in app.attempts then app.attempts[id] else 0;
    if failures > MAX_ATTEMPTS then Err(ConstraintViolation)
    else Ok((app.(attempts := app.attempts[id := failures]), failures))
  }

  function StoreSession(app: App, session: Session, resetCount: int): App {
    app.(session := Some(SessionRow(session, resetCount)))
  }

  // ---- what the operations keep ---

  /** Every result already stored stays, with its outcome, accounting and completion mark untouched. */
  ghost predicate KeepsResults(before: App, after: App) {
    forall id :: id in before.results ==> id in after.results && after.results[id] == before.results[id]
  }

  /** A stored result never outgrows what it holds. */
  ghost predicate Fits(app: App) {
    forall id :: id in app.results ==>
      && app.results[id].result.commandId == id
      && app.results[id].actual == ResultBytes(app.results[id].result) <= app.results[id].reserved
  }

  lemma PersistOneFits(app: App, result: TerminalResult, t: App)
    requires Disjoint(app) && Fits(app) && PersistOne(app, result) == Ok(t)
    ensures Disjoint(t) && Fits(t) && KeepsResults(app, t)
    ensures result.commandId in t.results && SameOutcome(t.results[result.commandId].result, result)
  {
    hide ResultBytes, CapacityUsage;
  }

  lemma PersistOneHolds(app: App, result: TerminalResult, t: App)
    requires PersistOne(app, result) == Ok(t)
    ensures Active(t) == Active(app) + {result.commandId}
    ensures result.commandId in Active(app) ==> Held(t) == Held(app)
  {
    hide ResultBytes, CapacityUsage, SameOutcome;
  }

  lemma PersistOneKeeps(app: App, result: TerminalResult, t: App)
    requires Disjoint(app) && Fits(app) && PersistOne(app, result) == Ok(t)
    ensures Disjoint(t) && Fits(t) && KeepsResults(app, t)
    ensures result.commandId in t.results && SameOutcome(t.results[result.commandId].result, result)
    ensures Active(t) == Active(app) + {result.commandId}
    ensures result.commandId in Active(app) ==> Held(t) == Held(app)
  {
    hide Disjoint, Fits, PersistOne, Active, Held, SameOutcome, KeepsResults;
    PersistOneFits(app, result, t);
    PersistOneHolds(app, result, t);
  }

  lemma {:induction false} PersistAllKeeps(app: App, results: seq<TerminalResult>, t: App)
    requires Disjoint(app) && Fits(app) && PersistAll(app, results) == Ok(t)
    ensures Disjoint(t) && Fits(t) && KeepsResults(app, t)
    ensures forall i :: 0 <= i < |results| ==>
              results[i].commandId in t.results && SameOutcome(t.results[results[i].commandId].result, results[i])
    ensures (forall i :: 0 <= i < |results| ==> results[i].commandId in Active(app)) ==>
              Active(t) == Active(app) && Held(t) == Held(app)
  {
    hide PersistOne, Disjoint, Fits, Held, SameOutcome;
    if results != [] {
      var next := PersistAll(app, results[..|results| - 1]).value;
      PersistAllKeeps(app, results[..|results| - 1], next);
      PersistOneKeeps(next, results[|results| - 1], t);
    }
  }

  /** Storing a result for an active command moves its reservation and changes no total. */
  lemma ResultTakesOver(app: App, results: seq<TerminalResult>, t: App)
    requires Disjoint(app) && Fits(app) && PersistAll(app, results) == Ok(t)
    requires forall i :: 0 <= i < |results| ==> results[i].commandId in Active(app)
    ensures CapacityUsage(t) == CapacityUsage(app)
  {
    hide Disjoint, Fits, PersistAll, KeepsResults, SameOutcome, Held, CapacityUsage, Active, Total;
    PersistAllKeeps(app, results, t);
    UsageIsHeld(app);
    UsageIsHeld(t);
  }

  /** Two results tell of one outcome: everything but the attempt agrees, and applied before counts as applied. */
  ghost predicate OneOutcome(a: TerminalResult, b: TerminalResult) {
    && a.resourceId == b.resourceId && a.digest == b.digest && a.state == b.state
    && a.previousVersion == b.previousVersion && a.currentVersion == b.currentVersion
    && (a.code == b.code ||
          (a.code == ServedCode(AppliedCode) && b.code == ServedCode(AlreadyApplied)) ||
          (a.code == ServedCode(AlreadyApplied) && b.code == ServedCode(AppliedCode)))
  }

  /** What the command of a result holds: what its overlay held, or a fresh reservation of at least 512 bytes. */
  ghost function Holding(app: App, result: TerminalResult): nat {
    if result.commandId in app.overlays then app.overlays[result.commandId].reserved
    else if ResultBytes(result) < 512 then 512
    else ResultBytes(result)
  }

  /** A result is stored exactly when it repeats the outcome already stored, or fits what its overlay holds, or,
      without an overlay, finds room among 64 commands and 65,536 bytes. Then its overlay and attempts go, and a new
      one takes over the reservation, not yet completed. */
  lemma PersistedExactly(app: App, result: TerminalResult)
    ensures var id, held := result.commandId, Holding(app, result);
            && (PersistOne(app, result).Ok? <==>
                  if id in app.results then OneOutcome(app.results[id].result, result)
                  else
                    && ResultBytes(result) <= held
                    && (id in app.overlays ||
                          (|app.results| + |app.overlays| < 64 && Total(ResultReservations(app)) +
                             Total(OverlayReservations(app)) + held <= 65_536)))
            && (PersistOne(app, result).Ok? ==>
                  PersistOne(app, result).value == App(
                    if id in app.results then app.results
                    else app.results[id := ResultRow(result, held, ResultBytes(result), false)],
                    app.overlays - {id}, app.attempts - {id}, app.session))
  {
    hide ResultBytes, Total, ResultReservations, OverlayReservations;
  }

  ghost predicate NewCommands(app: App, overlays: seq<Overlay>) {
    && (forall i :: 0 <= i < |overlays| ==>
          overlays[i].command.commandId !in app.results && overlays[i].command.commandId !in app.overlays)
    && (forall i, j :: 0 <= i < j < |overlays| ==> overlays[i].command.commandId != overlays[j].command.commandId)
  }

  lemma {:induction false} BatchIdsMember(overlays: seq<Overlay>, id: string)
    ensures id in BatchIds(overlays) <==> exists i :: 0 <= i < |overlays| && overlays[i].command.commandId == id
  {
    if overlays != [] {
      BatchIdsMember(overlays[..|overlays| - 1], id);
    }
  }

  /** A batch is taken exactly when all its identifiers are new and different; then each overlay is stored under its
      own, and nothing else changes. */
  lemma {:induction false} AddedExactly(app: App, overlays: seq<Overlay>)
    ensures AddAll(app, overlays).Ok? <==> NewCommands(app, overlays)
    ensures AddAll(app, overlays).Ok? ==>
              var t := AddAll(app, overlays).value;
              && t == app.(overlays := t.overlays) && t.overlays.Keys == app.overlays.Keys + BatchIds(overlays)
              && (forall i :: 0 <= i < |overlays| ==>
                    overlays[i].command.commandId in t.overlays &&
                    t.overlays[overlays[i].command.commandId] == overlays[i])
              && (forall id :: id in app.overlays ==> t.overlays[id] == app.overlays[id])
  {
    if overlays != [] {
      var n := |overlays| - 1;
      var front, last := overlays[..n], overlays[n];
      AddedExactly(app, front);
      BatchIdsMember(front, last.command.commandId);
      assert NewCommands(app, overlays) <==>
          NewCommands(app, front) && last.command.commandId !in app.results &&
          last.command.commandId !in app.overlays && last.command.commandId !in BatchIds(front) by {
        NewLast(app, overlays);
      }
      if AddAll(app, overlays).Ok? {
        forall i | 0 <= i < n
          ensures AddAll(app, overlays).value.overlays[overlays[i].command.commandId] == overlays[i]
        {
          assert front[i] == overlays[i];
        }
      }
    }
  }

  lemma NewLast(app: App, overlays: seq<Overlay>)
    requires overlays != []
    ensures var front, id := overlays[..|overlays| - 1], overlays[|overlays| - 1].command.commandId;
            NewCommands(app, overlays) <==>
              NewCommands(app, front) && id !in app.results && id !in app.overlays && id !in BatchIds(front)
  {
    var n := |overlays| - 1;
    var front, id := overlays[..n], overlays[n].command.commandId;
    BatchIdsMember(front, id);
    if NewCommands(app, front) && id !in app.results && id !in app.overlays && id !in BatchIds(front) {
      forall i, j | 0 <= i < j < |overlays| ensures overlays[i].command.commandId != overlays[j].command.commandId {
        assert front[i] == overlays[i];
        if j < n {
          assert front[j] == overlays[j];
        }
      }
      forall i | 0 <= i < |overlays|
        ensures overlays[i].command.commandId !in app.results && overlays[i].command.commandId !in app.overlays
      {
        if i < n {
          assert front[i] == overlays[i];
        }
      }
    }
    if NewCommands(app, overlays) {
      forall i | 0 <= i < n ensures front[i] == overlays[i] {
      }
    }
  }

  /** Acknowledging removes a result exactly when its SDK transaction is done with, and no other result ever. */
  lemma AcknowledgedExactly(app: App, id: string)
    ensures var (t, removed) := AcknowledgeOne(app, id);
            && (removed <==> id in app.results && app.results[id].completed)
            && t.results == (if removed then app.results - {id} else app.results)
            && t.(results := app.results) == app
  {
  }

  /** The app after `failures` transient failures of one command in a row. */
  function AfterFailures(app: App, id: string, failures: nat): Result<(App, nat), StateError> {
    if failures == 0 then Ok((app, if id in app.attempts then app.attempts[id] else 0))
    else
      match AfterFailures(app, id, failures - 1)
      case Err(error) => Err(error)
      case Ok((t, _)) => RecordFailure(t, id)
  }

  /** Failures are counted one by one, for this command only, up to the fifth; a sixth is never recorded. */
  lemma {:induction false} FailuresCounted(app: App, id: string, failures: nat)
    requires id !in app.attempts
    ensures failures <= MAX_ATTEMPTS ==>
              AfterFailures(app, id, failures) ==
                Ok((if failures == 0 then app else app.(attempts := app.attempts[id := failures]), failures))
    ensures failures > MAX_ATTEMPTS ==> AfterFailures(app, id, failures).Err?
  {
    if failures > 0 {
      FailuresCounted(app, id, failures - 1);
      if 1 < failures <= MAX_ATTEMPTS {
        assert app.attempts[id := failures - 1][id := failures] == app.attempts[id := failures];
      }
    }
  }

  /** Adds up a column row by row, in whatever order the rows come. */
  method Sum(column: map<string, nat>) returns (bytes: nat)
    ensures bytes == Total(column)
  {
    hide Total;
    bytes := 0;
    var rest := column;
    while rest != map[]
      invariant bytes + Total(rest) == Total(column)
      decreases |rest|
    {
      var id :| id in rest;
      TotalRemove(rest, id);
      bytes, rest := bytes + rest[id], rest - {id};
    }
    TotalEmpty<string>();
  }

  // ---- the class ---

  class ApplicationState {
    var results: map<string, ResultRow>
    var overlays: map<string, Overlay>
    var attempts: map<string, nat>
    var session: Option<SessionRow>

    constructor (app: App)
      ensures State() == app
    {
      results, overlays, attempts, session := app.results, app.overlays, app.attempts, app.session;
    }

    function State(): App
      reads this
    {
      App(results, overlays, attempts, session)
    }

    method Measure() returns (usage: Usage)
      ensures usage == CapacityUsage(State())
    {
      var resultBytes := Sum(ResultReservations(State()));
      var overlayBytes := Sum(OverlayReservations(State()));
      return Usage(|results| + |overlays|, resultBytes + overlayBytes);
    }

    /** Stores one result, taking over the overlay's reservation; the caller rolls back on an error. */
    method PersistResult(result: TerminalResult) returns (problem: Option<StateError>)
      modifies this`results, this`overlays, this`attempts
      ensures match PersistOne(old(State()), result)
              case Ok(t) => problem.None? && State() == t
              case Err(error) => problem == Some(error) && State() == old(State())
    {
      hide ResultBytes, CapacityUsage;
      var id := result.commandId;
      if id in results {
        if !SameOutcome(results[id].result, result) {
          return Some(ResultIdConflict);
        }
      } else {
        var actual, reserved := ResultBytes(result), ReservationFor(State(), result);
        if actual > reserved {
          return Some(ReservationExceeded);
        }
        if id !in overlays {
          var usage := Measure();
          problem := OutstandingError(usage, reserved);
          if problem.Some? {
            return;
          }
        }
        results := results[id := ResultRow(result, reserved, actual, false)];
      }
      overlays, attempts := overlays - {id}, attempts - {id};
      problem := None;
    }

    method PersistResults(batch: seq<TerminalResult>) returns (problem: Option<StateError>)
      modifies this`results, this`overlays, this`attempts
      ensures match PersistAll(old(State()), batch)
              case Ok(t) => problem.None? && State() == t
              case Err(error) => problem == Some(error) && State() == old(State())
    {
      hide PersistOne;
      ghost var app := State();
      var before := (results, overlays, attempts);
      problem := None;
      for i := 0 to |batch|
        invariant problem.None? && PersistAll(app, batch[..i]) == Ok(State())
      {
        assert batch[..i + 1][..i] == batch[..i];
        problem := PersistResult(batch[i]);
        if problem.Some? {
          PersistAllError(app, batch, i + 1, problem.value);
          results, overlays, attempts := before.0, before.1, before.2;
          return;
        }
      }
      assert batch[..|batch|] == batch;
    }

    method MarkResultsSdkCompleted(ids: seq<string>) returns (problem: Option<StateError>)
      modifies this`results
      ensures match MarkAll(old(State()), ids)
              case Ok(t) => problem.None? && State() == t
              case Err(error) => problem == Some(error) && State() == old(State())
    {
      ghost var app := State();
      var before := results;
      for i := 0 to |ids|
        invariant MarkAll(app, ids[..i]) == Ok(State())
      {
        assert ids[..i + 1][..i] == ids[..i];
        if ids[i] !in results {
          MarkAllError(app, ids, i + 1, MissingResult);
          results := before;
          return Some(MissingResult);
        }
        results := results[ids[i] := results[ids[i]].(completed := true)];
      }
      assert ids[..|ids|] == ids;
      problem := None;
    }

    method AddOverlays(batch: seq<Overlay>) returns (r: Result<seq<string>, StateError>)
      modifies this`overlays
      ensures match AddAll(old(State()), batch)
              case Ok(t) => State() == t && r == Ok(InsertedIds(batch))
              case Err(error) => State() == old(State()) && r == Err(error)
    {
      ghost var app := State();
      var before := overlays;
      var inserted: seq<string> := [];
      var batchIds: set<string> := {};
      for i := 0 to |batch|
        invariant AddAll(app, batch[..i]) == Ok(State())
        invariant inserted == InsertedIds(batch[..i])
        invariant batchIds == BatchIds(batch[..i])
      {
        assert batch[..i + 1][..i] == batch[..i];
        var id := batch[i].command.commandId;
        var added := AddOne(State(), batchIds, batch[i]);
        if added.Err? {
          AddAllError(app, batch, i + 1, added.error);
          overlays := before;
          return Err(added.error);
        }
        overlays := added.value.overlays;
        batchIds := batchIds + {id};
        inserted := inserted + [id];
      }
      assert batch[..|batch|] == batch;
      return Ok(inserted);
    }

    method RemoveOverlays(ids: seq<string>)
      modifies this`overlays
      ensures State() == RemoveAll(old(State()), ids)
    {
      ghost var app := State();
      for i := 0 to |ids|
        invariant State() == RemoveAll(app, ids[..i])
      {
        assert ids[..i + 1][..i] == ids[..i];
        overlays := overlays - {ids[i]};
      }
      assert ids[..|ids|] == ids;
    }

    method ClearOverlays()
      modifies this`overlays, this`attempts
      ensures State() == ClearAll(old(State()))
    {
      overlays, attempts := map[], map[];
    }

    method AcknowledgeResult(id: string) returns (removed: bool)
      modifies this`results
      ensures (State(), removed) == AcknowledgeOne(old(State()), id)
    {
      removed := id in results && results[id].completed;
      if removed {
        results := results - {id};
      }
    }

    method RecordTransientFailure(id: string) returns (r: Result<nat, StateError>)
      modifies this`attempts
      ensures match RecordFailure(old(State()), id)
              case Ok((t, failures)) => State() == t && r == Ok(failures)
              case Err(error) => State() == old(State()) && r == Err(error)
    {
      var failures := if id in attempts then attempts[id] + 1 else 1;
      if failures > MAX_ATTEMPTS {
        return Err(ConstraintViolation);
      }
      attempts := attempts[id := failures];
      return Ok(failures);
    }

    method SetReplicaSession(next: Session, resetCount: int)
      modifies this`session
      ensures State() == StoreSession(old(State()), next, resetCount)
    {
      session := Some(SessionRow(next, resetCount));
    }
  }

  // ---- an error inside a batch is the batch's error ---

  lemma {:induction false} PersistAllError(app: App, batch: seq<TerminalResult>, n: nat, error: StateError)
    requires n <= |batch| && PersistAll(app, batch[..n]) == Err(error)
    ensures PersistAll(app, batch) == Err(error)
    decreases |batch| - n
  {
    hide PersistOne;
    if n < |batch| {
      assert batch[..n + 1][..n] == batch[..n];
      PersistAllError(app, batch, n + 1, error);
    } else {
      assert batch[..n] == batch;
    }
  }

  lemma {:induction false} MarkAllError(app: App, ids: seq<string>, n: nat, error: StateError)
    requires n <= |ids| && MarkAll(app, ids[..n]) == Err(error)
    ensures MarkAll(app, ids) == Err(error)
    decreases |ids| - n
  {
    if n < |ids| {
      assert ids[..n + 1][..n] == ids[..n];
      MarkAllError(app, ids, n + 1, error);
    } else {
      assert ids[..n] == ids;
    }
  }

  lemma {:induction false} AddAllError(app: App, batch: seq<Overlay>, n: nat, error: StateError)
    requires n <= |batch| && AddAll(app, batch[..n]) == Err(error)
    ensures AddAll(app, batch) == Err(error)
    decreases |batch| - n
  {
    if n < |batch| {
      assert batch[..n + 1][..n] == batch[..n];
      AddAllError(app, batch, n + 1, error);
    } else {
      assert batch[..n] == batch;
    }
  }
}
