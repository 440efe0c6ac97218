/** What every run of the command server keeps: effects happen at most once, receipts are final, and
    versions, receipts and change events account for one another. */
module ServerRuns {
  import opened Basics
  import opened CommandProtocol
  import opened ServerState

  /** One committed transaction of the server or of its surroundings. */
  datatype Action =
    | ExecuteCommands(userId: string, binding: Binding, credential: Credential, commands: seq<Command>, attempt: int)
    | ConsumeWindow(userId: string, binding: Binding, credential: Credential)
    | RegisterReplica(userId: string, replicaId: string, credential: Credential)
    | Challenged(userId: string, binding: Binding, credential: Credential, challengeId: string)
    | Observed(userId: string, binding: Binding, credential: Credential, challengeId: string)
    | Reset(userId: string, binding: Binding, credential: Credential, requestId: string)
    | ResetAcknowledged(userId: string, binding: Binding, credential: Credential, requestId: string)
    | SetGrants(grants: set<(string, string)>)
    | Tick(now: int)
    | Retain(cleared: set<string>, purged: set<string>, floor: int)
    | Provision(resourceId: string, resource: Resource)
    | Disable(replicaId: string)

  ghost predicate Enabled(s: Server, a: Action) {
    match a
    case ExecuteCommands(_, _, _, commands, _) => WellFormedBatch(commands)
    case Tick(now) => s.now <= now
    case Retain(cleared, purged, floor) =>
      && s.floor <= floor
      && (forall id :: id in cleared + purged ==> id in s.resources && s.resources[id].deleted)
    case Provision(id, resource) =>
      && id !in s.resources && resource.version >= 1 && !resource.deleted
      && (forall other :: other in s.resources ==> s.resources[other].incarnationId != resource.incarnationId)
    case Disable(id) => id in s.replicas
    case _ => true
  }

  ghost function Step(s: Server, a: Action): Server
    requires Enabled(s, a)
  {
    match a
    case ExecuteCommands(user, binding, credential, commands, attempt) => Execute(s, user, binding, credential,
        commands, attempt).0
    case ConsumeWindow(user, binding, credential) => ConsumeRate(s, user, binding, credential).0
    case RegisterReplica(user, replicaId, credential) => Register(s, user, replicaId, credential).0
    case Challenged(user, binding, credential, id) => IssueChallenge(s, user, binding, credential, id).0
    case Observed(user, binding, credential, id) => AcknowledgeChallenge(s, user, binding, credential, id).0
    case Reset(user, binding, credential, id) => ResetReplica(s, user, binding, credential, id).0
    case ResetAcknowledged(user, binding, credential, id) => AcknowledgeReset(s, user, binding, credential, id).0
    case SetGrants(grants) => s.(grants := grants)
    case Tick(now) => s.(now := now)
    case Retain(cleared, purged, floor) =>
      s.(floor := floor,
         resources := map id | id in s.resources && id !in purged ::
           if id in cleared then s.resources[id].(payload := None) else s.resources[id])
    case Provision(id, resource) => s.(resources := s.resources[id := resource])
    case Disable(id) => s.(replicas := s.replicas[id := s.replicas[id].(disabled := true)])
  }

  ghost predicate IsRun(states: seq<Server>, actions: seq<Action>) {
    && |states| == |actions| + 1
    && (forall i :: 0 <= i < |actions| ==> Enabled(states[i], actions[i]) && states[i + 1] == Step(states[i], actions[i]))
  }

  // ---- the invariant ---

  ghost predicate ReceiptShape(key: Key, receipt: Receipt) {
    && receipt.digest == CommandDigest(receipt.digest.command, receipt.binding)
    && receipt.digest.command.commandId == key.commandId
    && receipt.digest.command.resourceId == receipt.resourceId
    && receipt.previousVersion == receipt.digest.command.expectedVersion
    && match receipt.state
       case Applied => receipt.code == AppliedCode && receipt.currentVersion == receipt.previousVersion + 1
       case Conflict => receipt.code in {OptimisticConflict, StaleIncarnation}
       case Denied => receipt.code == CommandDenied && receipt.currentVersion == receipt.previousVersion
  }

  ghost predicate Records(event: ChangeEvent, receipts: map<Key, Receipt>) {
    && event.key in receipts
    && receipts[event.key].state == Applied
    && receipts[event.key].resourceId == event.resourceId
    && receipts[event.key].digest.command.kind == event.kind
    && receipts[event.key].currentVersion == event.resultingVersion
  }

  ghost function AppliedKeys(receipts: map<Key, Receipt>): set<Key> {
    set key | key in receipts && receipts[key].state == Applied
  }

  ghost function EventKeys(events: seq<ChangeEvent>): set<Key> {
    set i | 0 <= i < |events| :: events[i].key
  }

  /** Exactly one event for each applied receipt, none for any other. */
  ghost predicate Paired(receipts: map<Key, Receipt>, events: seq<ChangeEvent>) {
    && (forall i :: 0 <= i < |events| ==> Records(events[i], receipts))
    && (forall i, j :: 0 <= i < j < |events| ==> events[i].key != events[j].key)
    && EventKeys(events) == AppliedKeys(receipts)
  }

  ghost predicate WellShaped(receipts: map<Key, Receipt>) {
    forall key :: key in receipts ==> ReceiptShape(key, receipts[key])
  }

  ghost predicate UniqueIncarnations(resources: map<string, Resource>) {
    forall a, b :: a in resources && b in resources && a != b ==>
        resources[a].incarnationId != resources[b].incarnationId
  }

  ghost predicate Inv(s: Server) {
    WellShaped(s.receipts) && Paired(s.receipts, s.events) && UniqueIncarnations(s.resources)
  }

  lemma PairedApplied(receipts: map<Key, Receipt>, events: seq<ChangeEvent>, event: ChangeEvent, receipt: Receipt)
    requires Paired(receipts, events) && event.key !in receipts
    requires receipt.state == Applied && Records(event, map[event.key := receipt])
    ensures Paired(receipts[event.key := receipt], events + [event])
  {
    assert AppliedKeys(receipts[event.key := receipt]) == AppliedKeys(receipts) + {event.key};
    assert EventKeys(events + [event]) == EventKeys(events) + {event.key} by {
      assert (events + [event])[|events|].key == event.key;
      forall k | k in EventKeys(events) ensures k in EventKeys(events + [event]) {
        var i :| 0 <= i < |events| && events[i].key == k;
        assert (events + [event])[i].key == k;
      }
    }
  }

  lemma PairedSettled(receipts: map<Key, Receipt>, events: seq<ChangeEvent>, key: Key, receipt: Receipt)
    requires Paired(receipts, events) && key !in receipts && receipt.state != Applied
    ensures Paired(receipts[key := receipt], events)
  {
    assert AppliedKeys(receipts[key := receipt]) == AppliedKeys(receipts);
  }

  /** The only states a command transaction can commit. */
  ghost predicate Outcome(s: Server, t: Server, userId: string, binding: Binding, commands: seq<Command>)
    requires WellFormedBatch(commands)
  {
    || t == s
    || DeniedOutcome(s, t, Key(userId, commands[0].commandId), binding, commands[0])
    || (Ready(s, userId, commands) &&
         (t == RefuseFirst(s, userId, binding, commands, StaleIncarnation, |commands|) ||
          t == RefuseFirst(s, userId, binding, commands, OptimisticConflict, |commands|)))
    || (Admissible(s, userId, commands) && t == ApplyFirst(s, userId, binding, commands, |commands|))
  }

  ghost predicate DeniedOutcome(s: Server, t: Server, key: Key, binding: Binding, command: Command) {
    key !in s.receipts && t == s.(receipts := s.receipts[key := DenialReceipt(binding, command)])
  }

  ghost predicate Ready(s: Server, userId: string, commands: seq<Command>) {
    AllPresent(s, commands) && !AnyReceipt(s, userId, commands)
  }

  ghost predicate Admissible(s: Server, userId: string, commands: seq<Command>) {
    Ready(s, userId, commands) && !AnyStaleIncarnation(s, commands) && !AnyConflict(s, commands)
  }

  lemma ExecuteOutcome(s: Server, userId: string, binding: Binding, credential: Credential, commands: seq<Command>,
      attempt: int)
    requires WellFormedBatch(commands)
    ensures Outcome(s, Execute(s, userId, binding, credential, commands, attempt).0, userId, binding, commands)
  {
  }

  lemma ApplyOneInv(s: Server, userId: string, binding: Binding, command: Command, ordinal: nat)
    requires Inv(s) && command.resourceId in s.resources && Key(userId, command.commandId) !in s.receipts
    ensures Inv(ApplyOne(s, userId, binding, command, ordinal))
  {
    PairedApplied(s.receipts, s.events,
      ChangeEvent(Key(userId, command.commandId), command.resourceId, ordinal, command.kind,
          command.expectedVersion + 1),
      AppliedReceipt(binding, command));
  }

  /** Rows not yet reached by the batch are as they were. */
  lemma {:induction false} Untouched(s: Server, userId: string, binding: Binding, commands: seq<Command>, n: nat,
      id: string)
    requires n <= |commands| && AllPresent(s, commands) && id in s.resources
    requires forall i :: 0 <= i < n ==> commands[i].resourceId != id
    ensures ApplyFirst(s, userId, binding, commands, n).resources[id] == s.resources[id]
  {
    if n > 0 {
      Untouched(s, userId, binding, commands, n - 1, id);
    }
  }

  lemma {:induction false} ApplyFirstInv(s: Server, userId: string, binding: Binding, commands: seq<Command>, n: nat)
    requires Inv(s) && n <= |commands| && DistinctIds(commands) && Ready(s, userId, commands)
    ensures Inv(ApplyFirst(s, userId, binding, commands, n))
  {
    hide Inv, DistinctIds, AnyReceipt;
    if n > 0 {
      var t := ApplyFirst(s, userId, binding, commands, n - 1);
      ApplyFirstInv(s, userId, binding, commands, n - 1);
      FreshKey(s, t, userId, binding, commands, n - 1);
      ApplyOneInv(t, userId, binding, commands[n - 1], n - 1);
    }
  }

  lemma FreshKey(s: Server, t: Server, userId: string, binding: Binding, commands: seq<Command>, n: nat)
    requires n < |commands| && DistinctIds(commands) && Ready(s, userId, commands)
    requires t == ApplyFirst(s, userId, binding, commands, n)
    ensures Key(userId, commands[n].commandId) !in t.receipts
  {
    var key := Key(userId, commands[n].commandId);
    if key in t.receipts {
      var i := AppliedOrigin(s, userId, binding, commands, n, key);
    }
  }

  lemma FreshRefusal(s: Server, t: Server, userId: string, binding: Binding, commands: seq<Command>, code: ResultCode,
      n: nat)
    requires n < |commands| && DistinctIds(commands) && Ready(s, userId, commands)
    requires t == RefuseFirst(s, userId, binding, commands, code, n)
    ensures Key(userId, commands[n].commandId) !in t.receipts
  {
    var key := Key(userId, commands[n].commandId);
    if key in t.receipts {
      var i := RefusedOrigin(s, userId, binding, commands, code, n, key);
    }
  }

  lemma RefuseOneInv(s: Server, t: Server, key: Key, binding: Binding, command: Command, code: ResultCode, current: int)
    requires Inv(s) && key !in s.receipts && key.commandId == command.commandId
    requires code == OptimisticConflict || code == StaleIncarnation
    requires t == s.(receipts := s.receipts[key := ConflictReceipt(binding, command, code, current)])
    ensures Inv(t)
  {
    PairedSettled(s.receipts, s.events, key, ConflictReceipt(binding, command, code, current));
  }

  lemma {:induction false} RefuseFirstInv(s: Server, userId: string, binding: Binding, commands: seq<Command>,
      code: ResultCode, n: nat)
    requires Inv(s) && n <= |commands| && DistinctIds(commands) && Ready(s, userId, commands)
    requires code == OptimisticConflict || code == StaleIncarnation
    ensures Inv(RefuseFirst(s, userId, binding, commands, code, n))
  {
    hide Inv, DistinctIds, AnyReceipt;
    if n > 0 {
      RefuseFirstInv(s, userId, binding, commands, code, n - 1);
      var t := RefuseFirst(s, userId, binding, commands, code, n - 1);
      FreshRefusal(s, t, userId, binding, commands, code, n - 1);
      RefuseOneInv(t, RefuseFirst(s, userId, binding, commands, code, n), Key(userId, commands[n - 1].commandId),
          binding,
        commands[n - 1], code, s.resources[commands[n - 1].resourceId].version);
    }
  }

  lemma OutcomeInv(s: Server, t: Server, userId: string, binding: Binding, commands: seq<Command>)
    requires WellFormedBatch(commands) && Inv(s) && Outcome(s, t, userId, binding, commands)
    ensures Inv(t)
  {
    if DeniedOutcome(s, t, Key(userId, commands[0].commandId), binding, commands[0]) {
      PairedSettled(s.receipts, s.events, Key(userId, commands[0].commandId), DenialReceipt(binding, commands[0]));
    } else if Ready(s, userId, commands) {
      RefuseFirstInv(s, userId, binding, commands, StaleIncarnation, |commands|);
      RefuseFirstInv(s, userId, binding, commands, OptimisticConflict, |commands|);
      ApplyFirstInv(s, userId, binding, commands, |commands|);
    }
  }

  lemma StepInv(s: Server, a: Action)
    requires Inv(s) && Enabled(s, a)
    ensures Inv(Step(s, a))
  {
    if a.ExecuteCommands? {
      ExecuteOutcome(s, a.userId, a.binding, a.credential, a.commands, a.attempt);
      OutcomeInv(s, Step(s, a), a.userId, a.binding, a.commands);
    }
  }

  lemma {:induction false} RunInv(states: seq<Server>, actions: seq<Action>, i: nat)
    requires IsRun(states, actions) && Inv(states[0]) && i < |states|
    ensures Inv(states[i])
  {
    if i > 0 {
      RunInv(states, actions, i - 1);
      StepInv(states[i - 1], actions[i - 1]);
    }
  }

  // ---- receipts are final ---

  ghost predicate Extends(before: map<Key, Receipt>, after: map<Key, Receipt>) {
    forall key :: key in before ==> key in after && after[key] == before[key]
  }

  lemma {:induction false} RefuseFirstExtends(s: Server, userId: string, binding: Binding, commands: seq<Command>,
      code: ResultCode, n: nat)
    requires n <= |commands| && Ready(s, userId, commands)
    ensures Extends(s.receipts, RefuseFirst(s, userId, binding, commands, code, n).receipts)
  {
    if n > 0 {
      RefuseFirstExtends(s, userId, binding, commands, code, n - 1);
    }
  }

  lemma {:induction false} ApplyFirstExtends(s: Server, userId: string, binding: Binding, commands: seq<Command>,
      n: nat)
    requires n <= |commands| && Ready(s, userId, commands)
    ensures Extends(s.receipts, ApplyFirst(s, userId, binding, commands, n).receipts)
  {
    if n > 0 {
      ApplyFirstExtends(s, userId, binding, commands, n - 1);
    }
  }

  lemma OutcomeExtends(s: Server, t: Server, userId: string, binding: Binding, commands: seq<Command>)
    requires WellFormedBatch(commands) && Outcome(s, t, userId, binding, commands)
    ensures Extends(s.receipts, t.receipts)
  {
    if Ready(s, userId, commands) {
      ApplyFirstExtends(s, userId, binding, commands, |commands|);
      RefuseFirstExtends(s, userId, binding, commands, StaleIncarnation, |commands|);
      RefuseFirstExtends(s, userId, binding, commands, OptimisticConflict, |commands|);
    }
  }

  lemma StepExtends(s: Server, a: Action)
    requires Enabled(s, a)
    ensures Extends(s.receipts, Step(s, a).receipts)
  {
    if a.ExecuteCommands? {
      ExecuteOutcome(s, a.userId, a.binding, a.credential, a.commands, a.attempt);
      OutcomeExtends(s, Step(s, a), a.userId, a.binding, a.commands);
    }
  }

  /** Once written, a receipt never changes: through retries, revocation, resets and epoch changes. */
  lemma {:induction false} ReceiptsFinal(states: seq<Server>, actions: seq<Action>, i: nat, j: nat)
    requires IsRun(states, actions) && i <= j < |states|
    ensures Extends(states[i].receipts, states[j].receipts)
  {
    hide Step, Enabled;
    if i < j {
      ReceiptsFinal(states, actions, i, j - 1);
      StepExtends(states[j - 1], actions[j - 1]);
    }
  }

  // ---- at most one effect ---

  /** Between s and t a row changed that some command of the batch with this id targets. */
  ghost predicate Touches(s: Server, t: Server, commands: seq<Command>, commandId: string) {
    exists c :: 0 <= c < |commands| && commands[c].commandId == commandId &&
      commands[c].resourceId in s.resources && commands[c].resourceId in t.resources &&
      t.resources[commands[c].resourceId] != s.resources[commands[c].resourceId]
  }

  /** This step changed the row that the command with this user and id targets. */
  ghost predicate Changes(s: Server, a: Action, key: Key)
    requires Enabled(s, a)
  {
    a.ExecuteCommands? && a.userId == key.userId && Touches(s, Step(s, a), a.commands, key.commandId)
  }

  ghost predicate NewlyApplied(s: Server, t: Server, key: Key) {
    key !in s.receipts && key in t.receipts && t.receipts[key].state == Applied
  }

  lemma OutcomeNotApplied(s: Server, t: Server, userId: string, binding: Binding, commands: seq<Command>, key: Key)
    requires WellFormedBatch(commands) && Outcome(s, t, userId, binding, commands)
    requires !(Admissible(s, userId, commands) && t == ApplyFirst(s, userId, binding, commands, |commands|))
    ensures !NewlyApplied(s, t, key) && t.resources == s.resources && t.events == s.events
  {
    if NewlyApplied(s, t, key) && t == RefuseFirst(s, userId, binding, commands, StaleIncarnation, |commands|) {
      var i := RefusedOrigin(s, userId, binding, commands, StaleIncarnation, |commands|, key);
      RefusedReceipt(s, userId, binding, commands, StaleIncarnation, |commands|, i);
    } else if NewlyApplied(s, t, key) && t == RefuseFirst(s, userId, binding, commands, OptimisticConflict,
        |commands|) {
      var i := RefusedOrigin(s, userId, binding, commands, OptimisticConflict, |commands|, key);
      RefusedReceipt(s, userId, binding, commands, OptimisticConflict, |commands|, i);
    }
  }

  /** A row changes only in a step that writes the command's applied receipt for the first time. */
  lemma ChangeIsRecorded(s: Server, a: Action, key: Key)
    requires Enabled(s, a) && Changes(s, a, key)
    ensures NewlyApplied(s, Step(s, a), key)
  {
    ExecuteOutcome(s, a.userId, a.binding, a.credential, a.commands, a.attempt);
    TouchIsRecorded(s, Step(s, a), a.userId, a.binding, a.commands, key);
  }

  lemma TouchIsRecorded(s: Server, t: Server, userId: string, binding: Binding, commands: seq<Command>, key: Key)
    requires WellFormedBatch(commands) && Outcome(s, t, userId, binding, commands)
    requires key.userId == userId && Touches(s, t, commands, key.commandId)
    ensures NewlyApplied(s, t, key)
  {
    if Admissible(s, userId, commands) && t == ApplyFirst(s, userId, binding, commands, |commands|) {
      var c :| 0 <= c < |commands| && commands[c].commandId == key.commandId;
      AppliedReceiptAt(s, userId, binding, commands, |commands|, c);
    } else {
      OutcomeNotApplied(s, t, userId, binding, commands, key);
    }
  }

  lemma {:induction false} AppliedRow(s: Server, userId: string, binding: Binding, commands: seq<Command>, n: nat,
      c: nat)
    requires c < n <= |commands| && AllPresent(s, commands) && WellFormedBatch(commands)
    ensures ApplyFirst(s, userId, binding, commands, n).resources[commands[c].resourceId] ==
              ApplyToResource(s.resources[commands[c].resourceId], commands[c])
  {
    if c == n - 1 {
      Untouched(s, userId, binding, commands, c, commands[c].resourceId);
    } else {
      AppliedRow(s, userId, binding, commands, n - 1, c);
    }
  }

  /** The converse: a first applied receipt means that row did change, from the version before to the one after. */
  lemma RecordIsChange(s: Server, a: Action, key: Key)
    requires Enabled(s, a) && a.ExecuteCommands? && NewlyApplied(s, Step(s, a), key)
    ensures Changes(s, a, key)
    ensures var receipt := Step(s, a).receipts[key];
            && receipt.resourceId in s.resources && receipt.resourceId in Step(s, a).resources
            && s.resources[receipt.resourceId].version == receipt.previousVersion
            && Step(s, a).resources[receipt.resourceId].version == receipt.currentVersion
  {
    ExecuteOutcome(s, a.userId, a.binding, a.credential, a.commands, a.attempt);
    RecordIsTouch(s, Step(s, a), a.userId, a.binding, a.commands, key);
  }

  lemma RecordIsTouch(s: Server, t: Server, userId: string, binding: Binding, commands: seq<Command>, key: Key)
    requires WellFormedBatch(commands) && Outcome(s, t, userId, binding, commands) && NewlyApplied(s, t, key)
    ensures key.userId == userId && Touches(s, t, commands, key.commandId)
    ensures var receipt := t.receipts[key];
            && receipt.resourceId in s.resources && receipt.resourceId in t.resources
            && s.resources[receipt.resourceId].version == receipt.previousVersion
            && t.resources[receipt.resourceId].version == receipt.currentVersion
  {
    if Admissible(s, userId, commands) && t == ApplyFirst(s, userId, binding, commands, |commands|) {
      var c := AppliedOrigin(s, userId, binding, commands, |commands|, key);
      AppliedReceiptAt(s, userId, binding, commands, |commands|, c);
      AppliedRow(s, userId, binding, commands, |commands|, c);
    } else {
      OutcomeNotApplied(s, t, userId, binding, commands, key);
    }
  }

  /** In any run, a (user, command id) pair changes a row in at most one step. */
  lemma AtMostOneEffect(states: seq<Server>, actions: seq<Action>, key: Key, i: nat, j: nat)
    requires IsRun(states, actions) && i < |actions| && j < |actions|
    requires Changes(states[i], actions[i], key) && Changes(states[j], actions[j], key)
    ensures i == j
  {
    ChangeIsRecorded(states[i], actions[i], key);
    ChangeIsRecorded(states[j], actions[j], key);
    if i < j {
      ReceiptsFinal(states, actions, i + 1, j);
    } else if j < i {
      ReceiptsFinal(states, actions, j + 1, i);
    }
  }

  /** Once any terminal receipt exists, denied, conflict or applied, that command never has an effect again. */
  lemma SettledNeverApplies(states: seq<Server>, actions: seq<Action>, key: Key, i: nat, j: nat)
    requires IsRun(states, actions) && i <= j < |actions| && key in states[i].receipts
    ensures !Changes(states[j], actions[j], key)
    ensures key in states[j + 1].receipts && states[j + 1].receipts[key] == states[i].receipts[key]
  {
    ReceiptsFinal(states, actions, i, j);
    ReceiptsFinal(states, actions, i, j + 1);
    if Changes(states[j], actions[j], key) {
      ChangeIsRecorded(states[j], actions[j], key);
    }
  }

  // ---- versions, receipts and events account for one another ---

  ghost predicate Present(s: Server, id: string, incarnation: string) {
    id in s.resources && s.resources[id].incarnationId == incarnation
  }

  ghost function AppliedTo(receipts: map<Key, Receipt>, incarnation: string): set<Key> {
    set key | key in receipts && receipts[key].state == Applied &&
        receipts[key].digest.command.incarnationId == incarnation
  }

  /** The resulting versions the event log records for a resource, in order. */
  function Versions(events: seq<ChangeEvent>, id: string): seq<int> {
    if events == [] then []
    else
      var last := |events| - 1;
      Versions(events[..last], id) + (if events[last].resourceId == id then [events[last].resultingVersion] else [])
  }

  function Consecutive(from: int, n: nat): seq<int> {
    if n == 0 then [] else Consecutive(from, n - 1) + [from + n]
  }

  lemma {:induction false} ConsecutiveJoin(from: int, m: nat, n: nat)
    ensures Consecutive(from, m) + Consecutive(from + m, n) == Consecutive(from, m + n)
  {
    if n > 0 {
      ConsecutiveJoin(from, m, n - 1);
    }
  }

  /** What is accounted: a version, the applied receipts naming the incarnation, and the logged versions. */
  datatype Ledger = Ledger(version: int, applied: set<Key>, logged: seq<int>)

  ghost function LedgerOf(s: Server, id: string, incarnation: string): Ledger
    requires id in s.resources
  {
    Ledger(s.resources[id].version, AppliedTo(s.receipts, incarnation), Versions(s.events, id))
  }

  /** The version rose by the number of new applied receipts, and the log grew by exactly those versions. */
  ghost predicate Accounts(before: Ledger, after: Ledger) {
    && before.version <= after.version
    && before.applied <= after.applied
    && after.version - before.version == |after.applied| - |before.applied|
    && after.logged == before.logged + Consecutive(before.version, after.version - before.version)
  }

  lemma AccountsSame(ledger: Ledger)
    ensures Accounts(ledger, ledger)
  {
  }

  lemma AccountsJoin(a: Ledger, b: Ledger, c: Ledger)
    requires Accounts(a, b) && Accounts(b, c)
    ensures Accounts(a, c)
  {
    hide Consecutive;
    var m, n := b.version - a.version, c.version - b.version;
    ConsecutiveJoin(a.version, m, n);
    assert c.logged == a.logged + (Consecutive(a.version, m) + Consecutive(a.version + m, n));
  }

  lemma AccountsOne(ledger: Ledger, key: Key)
    requires key !in ledger.applied
    ensures Accounts(ledger, Ledger(ledger.version + 1, ledger.applied + {key}, ledger.logged + [ledger.version + 1]))
  {
    assert Consecutive(ledger.version, 1) == Consecutive(ledger.version, 0) + [ledger.version + 1];
  }

  lemma LogAppend(events: seq<ChangeEvent>, event: ChangeEvent, id: string)
    ensures Versions(events + [event], id) ==
              Versions(events, id) + (if event.resourceId == id then [event.resultingVersion] else [])
  {
    assert (events + [event])[..|events|] == events;
  }

  lemma AppliedToInsert(receipts: map<Key, Receipt>, key: Key, receipt: Receipt, incarnation: string)
    requires key !in receipts && receipt.state == Applied
    ensures AppliedTo(receipts[key := receipt], incarnation) ==
              AppliedTo(receipts, incarnation) + (if receipt.digest.command.incarnationId == incarnation then {key}
                  else {})
  {
  }

  lemma ApplyOneAccounts(s: Server, userId: string, binding: Binding, command: Command, ordinal: nat, id: string,
      incarnation: string)
    requires UniqueIncarnations(s.resources) && Present(s, id, incarnation)
    requires Present(s, command.resourceId, command.incarnationId) && Key(userId, command.commandId) !in s.receipts
    requires s.resources[command.resourceId].version == command.expectedVersion
    ensures Present(ApplyOne(s, userId, binding, command, ordinal), id, incarnation)
    ensures Accounts(LedgerOf(s, id, incarnation), LedgerOf(ApplyOne(s, userId, binding, command, ordinal), id,
        incarnation))
  {
    var t := ApplyOne(s, userId, binding, command, ordinal);
    var key := Key(userId, command.commandId);
    assert (command.resourceId == id) <==> (command.incarnationId == incarnation);
    hide UniqueIncarnations;
    LogAppend(s.events, ChangeEvent(key, command.resourceId, ordinal, command.kind, command.expectedVersion + 1), id);
    AppliedToInsert(s.receipts, key, AppliedReceipt(binding, command), incarnation);
    hide Versions, AppliedTo, Accounts;
    if command.resourceId == id {
      assert key !in AppliedTo(s.receipts, incarnation) by { AppliedToWithin(s.receipts, incarnation); }
      AccountsOne(LedgerOf(s, id, incarnation), key);
      assert LedgerOf(t, id, incarnation) ==
        Ledger(command.expectedVersion + 1, AppliedTo(s.receipts, incarnation) + {key},
               Versions(s.events, id) + [command.expectedVersion + 1]);
    } else {
      assert LedgerOf(t, id, incarnation) == LedgerOf(s, id, incarnation);
      AccountsSame(LedgerOf(s, id, incarnation));
    }
  }

  lemma AppliedToWithin(receipts: map<Key, Receipt>, incarnation: string)
    ensures AppliedTo(receipts, incarnation) <= receipts.Keys
  {
  }

  lemma {:induction false} ApplyFirstAccounts(s: Server, userId: string, binding: Binding, commands: seq<Command>,
      n: nat, id: string, incarnation: string)
    requires Inv(s) && n <= |commands| && WellFormedBatch(commands) && Admissible(s, userId, commands)
    requires Present(s, id, incarnation)
    ensures var t := ApplyFirst(s, userId, binding, commands, n);
            Present(t, id, incarnation) && Accounts(LedgerOf(s, id, incarnation), LedgerOf(t, id, incarnation))
  {
    hide Accounts, LedgerOf, Inv, AnyStaleIncarnation, AnyConflict, AnyReceipt, WellFormedBatch, ApplyOne;
    if n == 0 {
      AccountsSame(LedgerOf(s, id, incarnation));
    } else {
      ApplyFirstAccounts(s, userId, binding, commands, n - 1, id, incarnation);
      var t := ApplyFirst(s, userId, binding, commands, n - 1);
      NextCommandReady(s, t, userId, binding, commands, n - 1);
      InvUnique(t);
      ApplyOneAccounts(t, userId, binding, commands[n - 1], n - 1, id, incarnation);
      AccountsJoin(LedgerOf(s, id, incarnation), LedgerOf(t, id, incarnation),
        LedgerOf(ApplyOne(t, userId, binding, commands[n - 1], n - 1), id, incarnation));
    }
  }

  lemma InvUnique(s: Server)
    requires Inv(s)
    ensures UniqueIncarnations(s.resources)
  {
  }

  lemma NextCommandReady(s: Server, t: Server, userId: string, binding: Binding, commands: seq<Command>, n: nat)
    requires Inv(s) && n < |commands| && WellFormedBatch(commands) && Admissible(s, userId, commands)
    requires t == ApplyFirst(s, userId, binding, commands, n)
    ensures Inv(t) && Key(userId, commands[n].commandId) !in t.receipts
    ensures Present(t, commands[n].resourceId, commands[n].incarnationId)
    ensures t.resources[commands[n].resourceId].version == commands[n].expectedVersion
  {
    ApplyFirstInv(s, userId, binding, commands, n);
    FreshKey(s, t, userId, binding, commands, n);
    Untouched(s, userId, binding, commands, n, commands[n].resourceId);
  }

  lemma UnappliedAccounts(s: Server, t: Server, id: string, incarnation: string)
    requires Present(s, id, incarnation) && Present(t, id, incarnation)
    requires s.resources[id].version == t.resources[id].version && s.events == t.events
    requires Extends(s.receipts, t.receipts)
    requires forall key :: !NewlyApplied(s, t, key)
    ensures Accounts(LedgerOf(s, id, incarnation), LedgerOf(t, id, incarnation))
  {
    forall key | key in AppliedTo(t.receipts, incarnation)
      ensures key in AppliedTo(s.receipts, incarnation)
    {
      assert !NewlyApplied(s, t, key);
    }
    assert AppliedTo(s.receipts, incarnation) == AppliedTo(t.receipts, incarnation);
    AccountsSame(LedgerOf(s, id, incarnation));
  }

  lemma OutcomeAccounts(s: Server, t: Server, userId: string, binding: Binding, commands: seq<Command>, id: string,
      incarnation: string)
    requires Inv(s) && WellFormedBatch(commands) && Outcome(s, t, userId, binding, commands)
    requires Present(s, id, incarnation)
    ensures Present(t, id, incarnation) && Accounts(LedgerOf(s, id, incarnation), LedgerOf(t, id, incarnation))
  {
    if Admissible(s, userId, commands) && t == ApplyFirst(s, userId, binding, commands, |commands|) {
      ApplyFirstAccounts(s, userId, binding, commands, |commands|, id, incarnation);
    } else {
      OutcomeExtends(s, t, userId, binding, commands);
      forall key ensures !NewlyApplied(s, t, key) {
        OutcomeNotApplied(s, t, userId, binding, commands, key);
      }
      OutcomeNotApplied(s, t, userId, binding, commands, Key(userId, ""));
      UnappliedAccounts(s, t, id, incarnation);
    }
  }

  lemma StepAccounts(s: Server, a: Action, t: Server, id: string, incarnation: string)
    requires Inv(s) && Enabled(s, a) && t == Step(s, a)
    requires Present(s, id, incarnation) && Present(t, id, incarnation)
    ensures Accounts(LedgerOf(s, id, incarnation), LedgerOf(t, id, incarnation))
  {
    if a.ExecuteCommands? {
      ExecuteOutcome(s, a.userId, a.binding, a.credential, a.commands, a.attempt);
      OutcomeAccounts(s, t, a.userId, a.binding, a.commands, id, incarnation);
    } else {
      UnappliedAccounts(s, t, id, incarnation);
    }
  }

  ghost predicate PresentThroughout(states: seq<Server>, id: string, incarnation: string, n: nat)
    requires n < |states|
  {
    forall i :: 0 <= i <= n ==> Present(states[i], id, incarnation)
  }

  /** While a resource lives, its version rises by exactly the number of new applied receipts naming it,
      and its new events are an unbroken run of versions ending at the current one. */
  lemma {:induction false} VersionAccounting(states: seq<Server>, actions: seq<Action>, id: string, incarnation: string,
      n: nat)
    requires IsRun(states, actions) && Inv(states[0]) && n < |states|
    requires PresentThroughout(states, id, incarnation, n)
    ensures id in states[0].resources && id in states[n].resources
    ensures Accounts(LedgerOf(states[0], id, incarnation), LedgerOf(states[n], id, incarnation))
  {
    hide Inv, Accounts, LedgerOf, Step, Enabled;
    assert Present(states[n], id, incarnation) && Present(states[0], id, incarnation);
    if n == 0 {
      AccountsSame(LedgerOf(states[0], id, incarnation));
    } else {
      VersionAccounting(states, actions, id, incarnation, n - 1);
      RunInv(states, actions, n - 1);
      assert Present(states[n - 1], id, incarnation);
      StepAccounts(states[n - 1], actions[n - 1], states[n], id, incarnation);
      AccountsJoin(LedgerOf(states[0], id, incarnation), LedgerOf(states[n - 1], id, incarnation),
          LedgerOf(states[n], id, incarnation));
    }
  }
}
