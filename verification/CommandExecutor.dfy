/** The canonical journey.update command: one Unit of Work that locks the row, reads the receipt, changes the
    row and writes receipt, change set and event, or leaves every table as it was. */
module CommandExecutor {
  import opened Basics
  import opened JourneyDomain
  import opened JourneyDatabase

  const JOURNEY_UPDATE := "journey.update"

  datatype Context = Context(workspaceId: string, userId: string)

  datatype Payload = Payload(journeyId: string, journey: JourneyBody, status: Status, expected: int)

  datatype Command = Command(commandId: string, kind: string, version: int, payload: Payload)

  /** command_digest_v1, as an injective constructor. */
  datatype Digest = DigestV1(command: Command)

  datatype Outcome = Applied | VersionConflict | ResourceNotFound

  /** Receipts have the primary key (workspace, actor, command). */
  datatype Key = Key(workspaceId: string, actorId: string, commandId: string)

  datatype Receipt = Receipt(
    kind: string, version: int, digest: Digest, outcome: Outcome, entityId: string, resultVersion: Option<int>,
        changeSetId: Option<string>)

  datatype ChangeSet = ChangeSet(id: string, key: Key, entityId: string)

  datatype Event = Event(changeSetId: string, sequence: int, before: Journey, after: Journey)

  datatype Row = Row(workspaceId: string, journey: Journey)

  datatype Tables = Tables(rows: map<string, Row>, receipts: map<Key, Receipt>, changeSets: seq<ChangeSet>,
      events: seq<Event>)

  datatype Failure = UnknownCommand | InvalidPayload | Forbidden | IdempotencyConflict | Conflict | Missing | Interrupted

  datatype Execution = Execution(outcome: Outcome, entityId: string, resultVersion: Option<int>,
      changeSetId: Option<string>, replayed: bool)

  // ---- the transaction ---

  function KeyOf(context: Context, command: Command): Key {
    Key(context.workspaceId, context.userId, command.commandId)
  }

  predicate ExactReplay(prior: Receipt, command: Command) {
    && prior.kind == command.kind && prior.version == command.version
    && prior.digest == DigestV1(command) && prior.entityId == command.payload.journeyId
  }

  function Replay(prior: Receipt, command: Command): Execution {
    Execution(prior.outcome, command.payload.journeyId, prior.resultVersion, prior.changeSetId, true)
  }

  /** The row this context may change. */
  function Visible(t: Tables, context: Context, journeyId: string): Option<Journey> {
    if journeyId in t.rows && t.rows[journeyId].workspaceId == context.workspaceId then Some(t.rows[journeyId].journey)
        else None
  }

  function Updated(row: Journey, payload: Payload, now: string): Journey {
    Journey(row.id, Trim(payload.journey.name), payload.journey.startDate, payload.journey.endDate, payload.status,
        Bump(row.stamp, now))
  }

  function TerminalReceipt(command: Command, outcome: Outcome): Receipt {
    Receipt(command.kind, command.version, DigestV1(command), outcome, command.payload.journeyId, None, None)
  }

  function AppliedReceipt(command: Command, version: int, changeSetId: string): Receipt {
    Receipt(command.kind, command.version, DigestV1(command), Applied, command.payload.journeyId, Some(version),
        Some(changeSetId))
  }

  function Recorded(t: Tables, key: Key, receipt: Receipt): Tables {
    t.(receipts := t.receipts[key := receipt])
  }

  /** Row, change set, event and receipt of an applied command. */
  function AppliedTables(t: Tables, context: Context, command: Command, before: Journey, changeSetId: string,
      now: string): Tables {
    var key, after := KeyOf(context, command), Updated(before, command.payload, now);
    Tables(
      t.rows[command.payload.journeyId := Row(context.workspaceId, after)],
      t.receipts[key := AppliedReceipt(command, after.stamp.version, changeSetId)],
      t.changeSets + [ChangeSet(changeSetId, key, command.payload.journeyId)],
      t.events + [Event(changeSetId, 1, before, after)])
  }

  /** What happens inside the Unit of Work: the tables it commits and the execution it reports. */
  function Operate(t: Tables, context: Context, command: Command, changeSetId: string, now: string): Result<(Tables,
      Execution), Failure> {
    var key := KeyOf(context, command);
    if key in t.receipts then
      if ExactReplay(t.receipts[key], command) then Ok((t, Replay(t.receipts[key], command)))
          else Err(IdempotencyConflict)
    else
      match Visible(t, context, command.payload.journeyId)
      case None =>
        Ok((Recorded(t, key, TerminalReceipt(command, ResourceNotFound)),
            Execution(ResourceNotFound, command.payload.journeyId, None, None, false)))
      case Some(before) =>
        if before.stamp.version != command.payload.expected then
          Ok((Recorded(t, key, TerminalReceipt(command, Outcome.VersionConflict)),
              Execution(Outcome.VersionConflict, command.payload.journeyId, None, None, false)))
        else
          Ok((AppliedTables(t, context, command, before, changeSetId, now),
              Execution(Applied, command.payload.journeyId, Some(before.stamp.version + 1), Some(changeSetId), false)))
  }

  /** A terminal refusal is committed first and only then reported as an error. */
  function Report(execution: Execution): Result<Execution, Failure> {
    match execution.outcome
    case Applied => Ok(execution)
    case VersionConflict => Err(Conflict)
    case ResourceNotFound => Err(Missing)
  }

  function Execute(t: Tables, context: Context, command: Command, permitted: bool, changeSetId: string,
      now: string): (Tables, Result<Execution, Failure>) {
    if command.kind != JOURNEY_UPDATE || command.version != 1 then (t, Err(UnknownCommand))
    else if !AcceptsJourney(command.payload.journey) || command.payload.expected < 1 then (t, Err(InvalidPayload))
    else if !permitted then (t, Err(Forbidden))
    else
      match Operate(t, context, command, changeSetId, now)
      case Err(error) => (t, Err(error))
      case Ok((next, execution)) => (next, Report(execution))
  }

  // ---- the session ---

  /** Numbers of the database statements that may fail. */
  const AUTHORIZE := 0
  const LOCK := 1
  const READ_RECEIPT := 2
  const READ_ROW := 3
  const UPDATE_ROW := 4
  const INSERT_CHANGE_SET := 5
  const INSERT_EVENT := 6
  const INSERT_RECEIPT := 7
  const COMMIT := 8

  class CommandExecutor {
    var committed: Tables
    var working: Tables

    constructor (t: Tables)
      ensures committed == working == t
    {
      committed, working := t, t;
    }

    method Rollback()
      modifies this`working
      ensures working == committed
    {
      working := committed;
    }

    method Commit()
      modifies this`committed
      ensures committed == working
    {
      committed := working;
    }

    method WriteTerminalReceipt(key: Key, command: Command, outcome: Outcome)
      modifies this`working
      ensures working == Recorded(old(working), key, TerminalReceipt(command, outcome))
    {
      working := working.(receipts := working.receipts[key := TerminalReceipt(command, outcome)]);
    }

    /** The row update alone; the caller holds the lock and has compared the version. */
    method ApplyJourneyUpdate(context: Context, payload: Payload, before: Journey, now: string) returns (after: Journey)
      modifies this`working
      ensures after == Updated(before, payload, now)
      ensures working == old(working).(rows := old(working).rows[payload.journeyId := Row(context.workspaceId, after)])
    {
      after := Updated(before, payload, now);
      working := working.(rows := working.rows[payload.journeyId := Row(context.workspaceId, after)]);
    }

    /** Change set, event, receipt, in that order; `fault` names the statement that fails, if any. */
    method WriteAppliedAudit(key: Key, command: Command, before: Journey, after: Journey, changeSetId: string,
        fault: Option<int>) returns (ok: bool)
      modifies this`working
      ensures ok ==> working == old(working).(
                receipts := old(working).receipts[key := AppliedReceipt(command, after.stamp.version, changeSetId)],
                changeSets := old(working).changeSets + [ChangeSet(changeSetId, key, command.payload.journeyId)],
                events := old(working).events + [Event(changeSetId, 1, before, after)])
      ensures fault.None? ==> ok
    {
      if fault == Some(INSERT_CHANGE_SET) {
        return false;
      }
      working := working.(changeSets := working.changeSets + [ChangeSet(changeSetId, key, command.payload.journeyId)]);
      if fault == Some(INSERT_EVENT) {
        return false;
      }
      working := working.(events := working.events + [Event(changeSetId, 1, before, after)]);
      if fault == Some(INSERT_RECEIPT) {
        return false;
      }
      working := working.(receipts := working.receipts[key := AppliedReceipt(command, after.stamp.version,
          changeSetId)]);
      return true;
    }

    /** Everything between authorization and commit; a failure leaves the caller to roll back. */
    method Operation(context: Context, command: Command, changeSetId: string, now: string, fault: Option<int>)
      returns (r: Result<Execution, Failure>)
      requires working == committed
      modifies this`working
      ensures r == Err(Interrupted) || (
                match Operate(old(working), context, command, changeSetId, now)
                case Err(error) => r == Err(error)
                case Ok((next, execution)) => r == Ok(execution) && working == next)
      ensures fault.None? ==> r != Err(Interrupted)
    {
      var key := KeyOf(context, command);
      if fault == Some(LOCK) || fault == Some(READ_RECEIPT) {
        return Err(Interrupted);
      }
      if key in working.receipts {
        if ExactReplay(working.receipts[key], command) {
          return Ok(Replay(working.receipts[key], command));
        }
        return Err(IdempotencyConflict);
      }
      if fault == Some(READ_ROW) {
        return Err(Interrupted);
      }
      var before := Visible(working, context, command.payload.journeyId);
      if before.None? || before.value.stamp.version != command.payload.expected {
        if fault == Some(INSERT_RECEIPT) {
          return Err(Interrupted);
        }
        var outcome := if before.None? then ResourceNotFound else Outcome.VersionConflict;
        WriteTerminalReceipt(key, command, outcome);
        return Ok(Execution(outcome, command.payload.journeyId, None, None, false));
      }
      if fault == Some(UPDATE_ROW) {
        return Err(Interrupted);
      }
      var after := ApplyJourneyUpdate(context, command.payload, before.value, now);
      var written := WriteAppliedAudit(key, command, before.value, after, changeSetId, fault);
      if !written {
        return Err(Interrupted);
      }
      return Ok(Execution(Applied, command.payload.journeyId, Some(after.stamp.version), Some(changeSetId), false));
    }

    /** execute_journey_update: whatever fails, wherever it fails, either the whole outcome is committed or no
        table has changed. */
    method ExecuteJourneyUpdate(context: Context, command: Command, permitted: bool, changeSetId: string, now: string,
        fault: Option<int>)
      returns (r: Result<Execution, Failure>)
      requires working == committed
      modifies this
      ensures working == committed
      ensures (r == Err(Interrupted) && committed == old(committed)) ||
              (committed, r) == Execute(old(committed), context, command, permitted, changeSetId, now)
      ensures fault.None? ==> (committed, r) == Execute(old(committed), context, command, permitted, changeSetId, now)
    {
      if command.kind != JOURNEY_UPDATE || command.version != 1 {
        return Err(UnknownCommand);
      }
      if !AcceptsJourney(command.payload.journey) || command.payload.expected < 1 {
        return Err(InvalidPayload);
      }
      if fault == Some(AUTHORIZE) {
        return Err(Interrupted);
      }
      if !permitted {
        return Err(Forbidden);
      }
      r := Operation(context, command, changeSetId, now, fault);
      if r.Err? {
        Rollback();
        return;
      }
      if fault == Some(COMMIT) {
        Rollback();
        return Err(Interrupted);
      }
      Commit();
      r := Report(r.value);
    }
  }

  // ---- runs ---

  ghost predicate Rewritten(before: Row, after: Row) {
    after.workspaceId == before.workspaceId && after.journey.stamp.version > before.journey.stamp.version
  }

  /** Another transaction on the journeys table: it may create rows under new ids, delete rows, or write a row
      with a higher version. Audit tables are written by commands only. */
  ghost predicate OtherWrite(before: map<string, Row>, after: map<string, Row>, retired: set<string>) {
    forall id :: id in after ==>
      && id !in retired
      && (id in before ==> after[id] == before[id] || Rewritten(before[id], after[id]))
  }

  datatype Action =
    | Run(context: Context, command: Command, permitted: bool, changeSetId: string, now: string, interrupted: bool)
    | Other(rows: map<string, Row>)

  ghost function Next(t: Tables, a: Action): Tables {
    match a
    case Run(context, command, permitted, changeSetId, now, interrupted) =>
      if interrupted then t else Execute(t, context, command, permitted, changeSetId, now).0
    case Other(rows) => t.(rows := rows)
  }

  ghost predicate Allowed(t: Tables, a: Action, retired: set<string>) {
    match a
    case Run(_, _, _, changeSetId, _, _) => forall i :: 0 <= i < |t.changeSets| ==> t.changeSets[i].id != changeSetId
    case Other(rows) => OtherWrite(t.rows, rows, retired)
  }

  /** Identifiers of deleted rows are never used again. */
  ghost predicate IsRun(states: seq<Tables>, actions: seq<Action>, retired: seq<set<string>>) {
    && |states| == |actions| + 1 == |retired|
    && (forall i :: 0 <= i < |actions| ==>
          && Allowed(states[i], actions[i], retired[i])
          && states[i + 1] == Next(states[i], actions[i])
          && retired[i + 1] == retired[i] + (states[i].rows.Keys - states[i + 1].rows.Keys))
  }

  // ---- receipts, change sets and events account for one another ---

  ghost predicate Shaped(key: Key, receipt: Receipt) {
    receipt.outcome == Applied <==> receipt.changeSetId.Some? && receipt.resultVersion.Some?
  }

  /** Change set i, event i and one applied receipt belong together, and the event spans two consecutive versions. */
  ghost predicate Linked(t: Tables, i: nat)
    requires i < |t.changeSets| == |t.events|
  {
    var group, event := t.changeSets[i], t.events[i];
    && event.changeSetId == group.id && event.sequence == 1
    && event.after.stamp.version == event.before.stamp.version + 1
    && group.key in t.receipts
    && t.receipts[group.key].outcome == Applied
    && t.receipts[group.key].changeSetId == Some(group.id)
    && t.receipts[group.key].resultVersion == Some(event.after.stamp.version)
    && t.receipts[group.key].entityId == group.entityId
  }

  ghost predicate HasSet(t: Tables, key: Key) {
    exists i :: 0 <= i < |t.changeSets| && t.changeSets[i].key == key
  }

  ghost predicate Inv(t: Tables) {
    && |t.changeSets| == |t.events|
    && (forall i :: 0 <= i < |t.changeSets| ==> Linked(t, i))
    && (forall i, j :: 0 <= i < j < |t.changeSets| ==> t.changeSets[i].key != t.changeSets[j].key && t.changeSets[i].id != t.changeSets[j].id)
    && (forall key :: key in t.receipts ==> Shaped(key, t.receipts[key]) && (t.receipts[key].outcome == Applied <==> HasSet(t, key)))
  }

  lemma RecordedInv(t: Tables, key: Key, receipt: Receipt)
    requires Inv(t) && key !in t.receipts && receipt.outcome != Applied && Shaped(key, receipt)
    ensures Inv(Recorded(t, key, receipt))
  {
    var u := Recorded(t, key, receipt);
    forall i | 0 <= i < |t.changeSets| ensures t.changeSets[i].key != key {
      assert Linked(t, i);
    }
    forall i | 0 <= i < |u.changeSets| ensures Linked(u, i) {
      assert Linked(t, i);
    }
    forall other | other in u.receipts
      ensures Shaped(other, u.receipts[other]) && (u.receipts[other].outcome == Applied <==> HasSet(u, other))
    {
      assert HasSet(u, other) <==> HasSet(t, other);
    }
  }

  lemma AppliedInv(t: Tables, context: Context, command: Command, before: Journey, changeSetId: string, now: string)
    requires Inv(t) && KeyOf(context, command) !in t.receipts
    requires forall i :: 0 <= i < |t.changeSets| ==> t.changeSets[i].id != changeSetId
    ensures Inv(AppliedTables(t, context, command, before, changeSetId, now))
  {
    hide Trim;
    var key, u := KeyOf(context, command), AppliedTables(t, context, command, before, changeSetId, now);
    var n := |t.changeSets|;
    assert u.changeSets[n] == ChangeSet(changeSetId, key, command.payload.journeyId);
    forall i | 0 <= i < |u.changeSets| ensures Linked(u, i) {
      if i < n {
        assert Linked(t, i);
      }
    }
    forall i | 0 <= i < n ensures t.changeSets[i].key != key {
      assert Linked(t, i);
    }
    forall other | other in u.receipts
      ensures Shaped(other, u.receipts[other]) && (u.receipts[other].outcome == Applied <==> HasSet(u, other))
    {
      if other == key {
        assert HasSet(u, key);
      } else {
        assert HasSet(u, other) <==> HasSet(t, other) by { SetAppended(t, u, other, key); }
      }
    }
  }

  lemma SetAppended(t: Tables, u: Tables, other: Key, key: Key)
    requires |u.changeSets| == |t.changeSets| + 1 && u.changeSets[..|t.changeSets|] == t.changeSets
    requires u.changeSets[|t.changeSets|].key == key != other
    ensures HasSet(u, other) <==> HasSet(t, other)
  {
    if HasSet(t, other) {
      var i :| 0 <= i < |t.changeSets| && t.changeSets[i].key == other;
      assert u.changeSets[i] == u.changeSets[..|t.changeSets|][i];
    }
    if HasSet(u, other) {
      var i :| 0 <= i < |u.changeSets| && u.changeSets[i].key == other;
      assert u.changeSets[..|t.changeSets|][i] == u.changeSets[i];
    }
  }

  lemma StepInv(t: Tables, a: Action, retired: set<string>)
    requires Inv(t) && Allowed(t, a, retired)
    ensures Inv(Next(t, a))
  {
    if a.Run? && KeyOf(a.context, a.command) !in t.receipts {
      RecordedInv(t, KeyOf(a.context, a.command), TerminalReceipt(a.command, ResourceNotFound));
      RecordedInv(t, KeyOf(a.context, a.command), TerminalReceipt(a.command, Outcome.VersionConflict));
      var before := Visible(t, a.context, a.command.payload.journeyId);
      if before.Some? {
        AppliedInv(t, a.context, a.command, before.value, a.changeSetId, a.now);
      }
    } else if a.Other? {
      OtherInv(t, a.rows);
    }
  }

  lemma OtherInv(t: Tables, rows: map<string, Row>)
    requires Inv(t)
    ensures Inv(t.(rows := rows))
  {
    var u := t.(rows := rows);
    forall i | 0 <= i < |u.changeSets| ensures Linked(u, i) {
      assert Linked(t, i);
    }
    assert forall key :: HasSet(u, key) <==> HasSet(t, key);
  }

  /** In every run an applied receipt has exactly one change set and one event, and no other receipt has any. */
  lemma {:induction false} RunInv(states: seq<Tables>, actions: seq<Action>, retired: seq<set<string>>, n: nat)
    requires IsRun(states, actions, retired) && Inv(states[0]) && n < |states|
    ensures Inv(states[n])
  {
    hide Inv, Next, Allowed;
    if n > 0 {
      RunInv(states, actions, retired, n - 1);
      StepInv(states[n - 1], actions[n - 1], retired[n - 1]);
    }
  }

  // ---- receipts are final, replays are silent ---

  ghost predicate Extends(before: map<Key, Receipt>, after: map<Key, Receipt>) {
    forall key :: key in before ==> key in after && after[key] == before[key]
  }

  lemma StepExtends(t: Tables, a: Action)
    ensures Extends(t.receipts, Next(t, a).receipts)
  {
    hide AcceptsJourney, Updated, ExactReplay;
  }

  lemma {:induction false} ReceiptsFinal(states: seq<Tables>, actions: seq<Action>, retired: seq<set<string>>, i: nat,
      j: nat)
    requires IsRun(states, actions, retired) && i <= j < |states|
    ensures Extends(states[i].receipts, states[j].receipts)
  {
    hide Next, Allowed;
    if i < j {
      ReceiptsFinal(states, actions, retired, i, j - 1);
      StepExtends(states[j - 1], actions[j - 1]);
    }
  }

  /** Repeating a command that has been decided, in any later state, changes nothing and reports the same
      outcome; the same identifier with other content is refused and changes nothing either. */
  lemma ReplayIsSilent(states: seq<Tables>, actions: seq<Action>, retired: seq<set<string>>, context: Context,
      command: Command, i: nat, j: nat,
                       changeSetId: string, now: string)
    requires IsRun(states, actions, retired) && i <= j < |states|
    requires KeyOf(context, command) in states[i].receipts && command.kind == JOURNEY_UPDATE && command.version == 1
    requires AcceptsJourney(command.payload.journey) && command.payload.expected >= 1
    ensures var receipt := states[i].receipts[KeyOf(context, command)];
            var (after, r) := Execute(states[j], context, command, true, changeSetId, now);
            && after == states[j]
            && (if ExactReplay(receipt, command)
                then r == Report(Execution(receipt.outcome, command.payload.journeyId, receipt.resultVersion,
                    receipt.changeSetId, true))
                else r == Err(IdempotencyConflict))
  {
    hide IsRun, AcceptsJourney;
    ReceiptsFinal(states, actions, retired, i, j);
  }

  // ---- applied at most once ---

  /** This step changes the row by executing the command. */
  ghost predicate Applies(t: Tables, a: Action, key: Key) {
    a.Run? && KeyOf(a.context, a.command) == key && key !in t.receipts && key in Next(t, a).receipts &&
        Next(t, a).receipts[key].outcome == Applied
  }

  /** A run step changes a row only by applying its command, and then by exactly one version. */
  lemma RunChangesRow(t: Tables, a: Action, id: string)
    requires a.Run? && id in t.rows && Next(t, a).rows != t.rows
    ensures Applies(t, a, KeyOf(a.context, a.command))
    ensures id in Next(t, a).rows
    ensures var before, after := t.rows[id], Next(t, a).rows[id];
            if id == a.command.payload.journeyId
            then after.journey.stamp.version == before.journey.stamp.version + 1 == a.command.payload.expected + 1
            else after == before
  {
    hide AcceptsJourney, ExactReplay, Trim;
  }

  lemma AppliesOnce(states: seq<Tables>, actions: seq<Action>, retired: seq<set<string>>, key: Key, i: nat, j: nat)
    requires IsRun(states, actions, retired) && i < |actions| && j < |actions|
    requires Applies(states[i], actions[i], key) && Applies(states[j], actions[j], key)
    ensures i == j
  {
    hide Next, Allowed;
    if i < j {
      ReceiptsFinal(states, actions, retired, i + 1, j);
    } else if j < i {
      ReceiptsFinal(states, actions, retired, j + 1, i);
    }
  }

  lemma StepVersion(t: Tables, a: Action, retired: set<string>, id: string)
    requires Allowed(t, a, retired) && id in t.rows && id in Next(t, a).rows
    ensures Next(t, a).rows[id].journey.stamp.version >= t.rows[id].journey.stamp.version
  {
    if a.Run? && Next(t, a).rows != t.rows {
      hide Next;
      RunChangesRow(t, a, id);
    }
  }

  lemma {:induction false} Retired(states: seq<Tables>, actions: seq<Action>, retired: seq<set<string>>, id: string,
      i: nat, j: nat)
    requires IsRun(states, actions, retired) && i <= j < |states| && id in retired[i] && id !in states[i].rows
    ensures id in retired[j] && id !in states[j].rows
  {
    hide Next;
    if i < j {
      Retired(states, actions, retired, id, i, j - 1);
      RetiredStep(states[j - 1], actions[j - 1], retired[j - 1], id);
    }
  }

  lemma RetiredStep(t: Tables, a: Action, retired: set<string>, id: string)
    requires Allowed(t, a, retired) && id in retired && id !in t.rows
    ensures id !in Next(t, a).rows
  {
    hide AcceptsJourney, ExactReplay, Updated;
  }

  /** A row that exists at both ends existed, with a version that never fell, all the way. */
  lemma {:induction false} VersionRises(states: seq<Tables>, actions: seq<Action>, retired: seq<set<string>>,
      id: string, i: nat, j: nat)
    requires IsRun(states, actions, retired) && i <= j < |states| && id in states[i].rows && id in states[j].rows
    ensures states[j].rows[id].journey.stamp.version >= states[i].rows[id].journey.stamp.version
    decreases j - i
  {
    hide Next, Allowed;
    if i < j {
      if id !in states[i + 1].rows {
        Retired(states, actions, retired, id, i + 1, j);
      } else {
        StepVersion(states[i], actions[i], retired[i], id);
        VersionRises(states, actions, retired, id, i + 1, j);
      }
    }
  }

  /** Two applied updates of one journey never start from the same version, under whatever identifiers they
      were sent: of all retries made from one loaded state at most one takes effect. */
  lemma AppliesOncePerVersion(states: seq<Tables>, actions: seq<Action>, retired: seq<set<string>>, i: nat, j: nat)
    requires IsRun(states, actions, retired) && i <= j < |actions|
    requires actions[i].Run? && Applies(states[i], actions[i], KeyOf(actions[i].context, actions[i].command))
    requires actions[j].Run? && Applies(states[j], actions[j], KeyOf(actions[j].context, actions[j].command))
    requires actions[i].command.payload.journeyId == actions[j].command.payload.journeyId
    requires actions[i].command.payload.expected == actions[j].command.payload.expected
    ensures i == j
  {
    var id := actions[i].command.payload.journeyId;
    hide Next, Allowed, Applies;
    AppliedRow(states[i], actions[i]);
    AppliedRow(states[j], actions[j]);
    if i < j {
      VersionRises(states, actions, retired, id, i + 1, j);
    }
  }

  lemma AppliedRow(t: Tables, a: Action)
    requires a.Run? && Applies(t, a, KeyOf(a.context, a.command))
    ensures var id := a.command.payload.journeyId;
            && id in t.rows && id in Next(t, a).rows
            && t.rows[id].journey.stamp.version == a.command.payload.expected
            && Next(t, a).rows[id].journey.stamp.version == a.command.payload.expected + 1
            && Next(t, a).events == t.events +
                [Event(a.changeSetId, 1, t.rows[id].journey, Next(t, a).rows[id].journey)]
  {
    hide AcceptsJourney, ExactReplay, Trim;
  }
}
