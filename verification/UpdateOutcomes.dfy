/** The journey update told by its tables: whose rows it may touch, what an applied update writes field by field, and
    what each refusal leaves behind. */
module UpdateOutcomes {
  import opened Basics
  import opened JourneyDomain
  import opened JourneyDatabase
  import opened CommandExecutor

  /** A command the executor knows, with a body in order. */
  predicate WellMade(command: Command) {
    && command.kind == "journey.update" && command.version == 1
    && AcceptsJourney(command.payload.journey) && command.payload.expected >= 1
  }

  /** The row of this journey belongs to the workspace of the caller. */
  ghost predicate AtHome(t: Tables, context: Context, journeyId: string) {
    journeyId in t.rows && t.rows[journeyId].workspaceId == context.workspaceId
  }

  ghost predicate Undecided(t: Tables, context: Context, command: Command) {
    Key(context.workspaceId, context.userId, command.commandId) !in t.receipts
  }

  /** The receipt repeats the whole request, so that any other content under the identifier can be told apart. */
  ghost predicate ReceiptOf(receipt: Receipt, command: Command) {
    && receipt.kind == "journey.update" && receipt.version == 1
    && receipt.digest == DigestV1(command) && receipt.entityId == command.payload.journeyId
  }

  /** Nothing but one receipt was written. */
  ghost predicate OnlyReceipt(t: Tables, after: Tables, key: Key) {
    && after.rows == t.rows && after.changeSets == t.changeSets && after.events == t.events
    && key in after.receipts && after.receipts - {key} == t.receipts - {key}
  }

  /** Without the permission, or with a body that is not in order, nothing changes. */
  lemma RefusedBeforeTheTables(t: Tables, context: Context, command: Command, permitted: bool, changeSetId: string,
      now: string)
    ensures var (after, r) := Execute(t, context, command, permitted, changeSetId, now);
            && (!permitted || !WellMade(command) ==> after == t && r.Err?)
            && (!permitted && WellMade(command) ==> r == Err(Forbidden))
  {
    hide AcceptsJourney, ExactReplay, Updated;
  }

  /** A journey that is absent or belongs to another workspace is not touched and not seen: no row, change set or event
      changes, and a command not decided before leaves the receipt of a missing journey. */
  lemma ForeignJourneyIsMissing(t: Tables, context: Context, command: Command, permitted: bool, changeSetId: string,
      now: string)
    requires !AtHome(t, context, command.payload.journeyId)
    ensures var (after, r) := Execute(t, context, command, permitted, changeSetId, now);
            var key := Key(context.workspaceId, context.userId, command.commandId);
            && after.rows == t.rows && after.changeSets == t.changeSets && after.events == t.events
            && (permitted && WellMade(command) && Undecided(t, context, command) ==>
                  && OnlyReceipt(t, after, key) && r == Err(Missing)
                  && ReceiptOf(after.receipts[key], command) && after.receipts[key].outcome == ResourceNotFound
                  && after.receipts[key].resultVersion.None? && after.receipts[key].changeSetId.None?)
  {
    hide AcceptsJourney, ExactReplay, Updated;
  }

  /** A row at another version than the one expected stays as it is, and the conflict is on record. */
  lemma OtherVersionConflicts(t: Tables, context: Context, command: Command, changeSetId: string, now: string)
    requires AtHome(t, context, command.payload.journeyId) && WellMade(command) && Undecided(t, context, command)
    requires t.rows[command.payload.journeyId].journey.stamp.version != command.payload.expected
    ensures var (after, r) := Execute(t, context, command, true, changeSetId, now);
            var key := Key(context.workspaceId, context.userId, command.commandId);
            && OnlyReceipt(t, after, key) && r == Err(Conflict)
            && ReceiptOf(after.receipts[key], command) && after.receipts[key].outcome == Outcome.VersionConflict
            && after.receipts[key].resultVersion.None? && after.receipts[key].changeSetId.None?
  {
    hide AcceptsJourney, ExactReplay, Updated;
  }

  /** An update of the expected version writes name, dates and status as given, one version on and with the new time;
      workspace, identifier and creation stay, no other row changes, and receipt, change set and event say the same. */
  lemma ExpectedVersionApplies(t: Tables, context: Context, command: Command, changeSetId: string, now: string)
    requires AtHome(t, context, command.payload.journeyId) && WellMade(command) && Undecided(t, context, command)
    requires t.rows[command.payload.journeyId].journey.id == command.payload.journeyId
    requires t.rows[command.payload.journeyId].journey.stamp.version == command.payload.expected
    ensures var (after, r) := Execute(t, context, command, true, changeSetId, now);
            var id, key := command.payload.journeyId, Key(context.workspaceId, context.userId, command.commandId);
            var before, row, body := t.rows[id].journey, after.rows[id].journey, command.payload.journey;
            && after.rows.Keys == t.rows.Keys && after.rows - {id} == t.rows - {id}
            && after.rows[id].workspaceId == context.workspaceId
            && row.id == id && row.name == Trim(body.name) && row.startDate == body.startDate
            && row.endDate == body.endDate && row.status == command.payload.status
            && row.stamp.version == command.payload.expected + 1 && row.stamp.createdAt == before.stamp.createdAt
            && row.stamp.updatedAt == now
            && after.receipts - {key} == t.receipts - {key} && key in after.receipts
            && ReceiptOf(after.receipts[key], command) && after.receipts[key].outcome == Applied
            && after.receipts[key].resultVersion == Some(command.payload.expected + 1)
            && after.receipts[key].changeSetId == Some(changeSetId)
            && after.changeSets == t.changeSets + [ChangeSet(changeSetId, key, id)]
            && after.events == t.events + [Event(changeSetId, 1, before, row)]
            && r == Ok(Execution(Applied, id, Some(command.payload.expected + 1), Some(changeSetId), false))
  {
    hide AcceptsJourney, ExactReplay, Trim;
  }

  // ---- workspaces in runs ---

  /** A command changes a row only inside the caller's own workspace, with the permission, and never moves a row. */
  lemma StepStaysHome(t: Tables, a: Action, retired: set<string>, id: string)
    requires Allowed(t, a, retired) && id in t.rows && id in Next(t, a).rows
    ensures Next(t, a).rows[id].workspaceId == t.rows[id].workspaceId
    ensures a.Run? && Next(t, a).rows[id] != t.rows[id] ==>
        a.permitted && a.context.workspaceId == t.rows[id].workspaceId && WellMade(a.command)
  {
    hide AcceptsJourney, ExactReplay, Updated;
  }

  /** In every run a journey stays in its workspace for as long as it exists. */
  lemma {:induction false} JourneyStaysHome(states: seq<Tables>, actions: seq<Action>, retired: seq<set<string>>,
      id: string, i: nat, j: nat)
    requires IsRun(states, actions, retired) && i <= j < |states| && id in states[i].rows && id in states[j].rows
    ensures states[j].rows[id].workspaceId == states[i].rows[id].workspaceId
    decreases j - i
  {
    hide Next, Allowed;
    if i < j {
      if id !in states[i + 1].rows {
        Retired(states, actions, retired, id, i + 1, j);
      } else {
        StepStaysHome(states[i], actions[i], retired[i], id);
        JourneyStaysHome(states, actions, retired, id, i + 1, j);
      }
    }
  }

  /** And so in every run a user of one workspace never changes a journey that started out in another. */
  lemma ForeignJourneyIsSafe(states: seq<Tables>, actions: seq<Action>, retired: seq<set<string>>, id: string, i: nat,
      j: nat)
    requires IsRun(states, actions, retired) && i <= j < |actions| && actions[j].Run?
    requires id in states[i].rows && id in states[j].rows && id in states[j + 1].rows
    requires actions[j].context.workspaceId != states[i].rows[id].workspaceId
    ensures states[j + 1].rows[id] == states[j].rows[id]
  {
    hide Next, Allowed;
    JourneyStaysHome(states, actions, retired, id, i, j);
    StepStaysHome(states[j], actions[j], retired[j], id);
  }
}
