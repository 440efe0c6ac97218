/** Repeated journey updates: the adapter keeps one identifier for one content until a reload, the receipts decide
    the command once, and so however often it is sent, whatever gets lost, it takes effect once. */
module UpdateRetries {
  import opened Basics
  import opened JourneyDomain
  import opened JourneyService
  import opened JourneyDatabase
  import opened JourneySave
  import opened JourneyClient
  import CommandExecutor

  // ---- one identifier for one content ---

  /** An update the adapter tries to send, and the identifier that would be drawn for it. */
  datatype Draft = Draft(signature: CommandExecutor.Payload, random: string)

  /** The pending table after any number of update attempts without a reload. */
  function RememberAll(pending: map<string, Pending>, drafts: seq<Draft>): map<string, Pending>
    decreases |drafts|
  {
    if drafts == [] then pending
    else RememberAll(Remember(pending, drafts[0].signature, drafts[0].random), drafts[1..])
  }

  /** The identifier the k-th attempt is sent under. */
  function ChosenAt(pending: map<string, Pending>, drafts: seq<Draft>, k: nat): string
    requires k < |drafts|
  {
    ChooseId(RememberAll(pending, drafts[..k]), drafts[k].signature, drafts[k].random)
  }

  lemma {:induction false} RememberLast(pending: map<string, Pending>, drafts: seq<Draft>, last: Draft)
    ensures RememberAll(pending, drafts + [last]) ==
        Remember(RememberAll(pending, drafts), last.signature, last.random)
    decreases |drafts|
  {
    if drafts == [] {
      assert drafts + [last] == [last];
    } else {
      assert (drafts + [last])[1..] == drafts[1..] + [last];
      RememberLast(Remember(pending, drafts[0].signature, drafts[0].random), drafts[1..], last);
    }
  }

  /** Between two attempts every attempt for the journey has the content of the first. */
  ghost predicate Unedited(drafts: seq<Draft>, i: nat, j: nat) {
    && i <= j < |drafts|
    && forall k :: i <= k <= j && drafts[k].signature.journeyId == drafts[i].signature.journeyId ==>
         drafts[k].signature == drafts[i].signature
  }

  lemma {:induction false} StillPending(pending: map<string, Pending>, drafts: seq<Draft>, i: nat, j: nat)
    requires Unedited(drafts, i, j)
    ensures var after := RememberAll(pending, drafts[..j + 1]);
            var signature := drafts[i].signature;
            signature.journeyId in after &&
                after[signature.journeyId] == Pending(ChosenAt(pending, drafts, i), signature)
    decreases j - i
  {
    assert drafts[..j + 1] == drafts[..j] + [drafts[j]];
    RememberLast(pending, drafts[..j], drafts[j]);
    if i < j {
      StillPending(pending, drafts, i, j - 1);
      assert drafts[..j - 1 + 1] == drafts[..j];
    }
  }

  /** An edit keeps the identifier of its first attempt through any number of repeats, whatever other journeys are
      updated in between. */
  lemma RetriesReuseId(pending: map<string, Pending>, drafts: seq<Draft>, i: nat, j: nat)
    requires Unedited(drafts, i, j) && drafts[i].signature.journeyId == drafts[j].signature.journeyId
    ensures ChosenAt(pending, drafts, j) == ChosenAt(pending, drafts, i)
  {
    if i < j {
      StillPending(pending, drafts, i, j - 1);
      assert drafts[..j - 1 + 1] == drafts[..j];
    }
  }

  /** This step of a run executes the k-th attempt of the adapter. */
  ghost predicate Sends(a: CommandExecutor.Action, context: CommandExecutor.Context, pending: map<string, Pending>,
      drafts: seq<Draft>, k: nat)
    requires k < |drafts|
  {
    a.Run? && a.context == context && a.command == CommandOf(ChosenAt(pending, drafts, k), drafts[k].signature)
  }

  /** In every run, among all other commands and writers, the attempts of one edit change the row in at most one
      step. */
  lemma RetriedEditAppliesOnce(states: seq<CommandExecutor.Tables>, actions: seq<CommandExecutor.Action>,
      retired: seq<set<string>>, context: CommandExecutor.Context, pending: map<string, Pending>, drafts: seq<Draft>,
      a: nat, b: nat, i: nat, j: nat)
    requires CommandExecutor.IsRun(states, actions, retired) && i < |actions| && j < |actions|
    requires Unedited(drafts, a, b) && drafts[a].signature.journeyId == drafts[b].signature.journeyId
    requires Sends(actions[i], context, pending, drafts, a) && Sends(actions[j], context, pending, drafts, b)
    requires CommandExecutor.Applies(states[i], actions[i], CommandExecutor.KeyOf(context, actions[i].command))
    requires CommandExecutor.Applies(states[j], actions[j], CommandExecutor.KeyOf(context, actions[j].command))
    ensures i == j
  {
    hide CommandExecutor.IsRun, CommandExecutor.Applies, ChosenAt;
    RetriesReuseId(pending, drafts, a, b);
    CommandExecutor.AppliesOnce(states, actions, retired, CommandExecutor.KeyOf(context, actions[i].command), i, j);
  }

  /** Even attempts with different contents, sent from one loaded version, change the row in at most one step. */
  lemma OneEditPerVersion(states: seq<CommandExecutor.Tables>, actions: seq<CommandExecutor.Action>,
      retired: seq<set<string>>, context: CommandExecutor.Context, pending: map<string, Pending>, drafts: seq<Draft>,
      a: nat, b: nat, i: nat, j: nat)
    requires CommandExecutor.IsRun(states, actions, retired) && i < |actions| && j < |actions|
    requires a < |drafts| && b < |drafts| && drafts[a].signature.journeyId == drafts[b].signature.journeyId &&
        drafts[a].signature.expected == drafts[b].signature.expected
    requires Sends(actions[i], context, pending, drafts, a) && Sends(actions[j], context, pending, drafts, b)
    requires CommandExecutor.Applies(states[i], actions[i], CommandExecutor.KeyOf(context, actions[i].command))
    requires CommandExecutor.Applies(states[j], actions[j], CommandExecutor.KeyOf(context, actions[j].command))
    ensures i == j
  {
    hide CommandExecutor.IsRun, CommandExecutor.Applies, ChosenAt;
    if i <= j {
      CommandExecutor.AppliesOncePerVersion(states, actions, retired, i, j);
    } else {
      CommandExecutor.AppliesOncePerVersion(states, actions, retired, j, i);
    }
  }

  // ---- an edited attempt is a new command ---

  /** Right after a load, with identifiers that are each drawn once. */
  ghost predicate DrawnOnce(drafts: seq<Draft>) {
    forall i, j :: 0 <= i < j < |drafts| ==> drafts[i].random != drafts[j].random
  }

  lemma {:induction false} PendingOrigin(drafts: seq<Draft>, n: nat, journeyId: string) returns (i: nat)
    requires n <= |drafts| && journeyId in RememberAll(map[], drafts[..n])
    ensures var pending := RememberAll(map[], drafts[..n])[journeyId];
            && i < n && pending.signature == drafts[i].signature && pending.commandId == ChosenAt(map[], drafts, i)
            && pending.signature.journeyId == journeyId
  {
    i := n - 1;
    assert drafts[..n] == drafts[..n - 1] + [drafts[n - 1]];
    RememberLast(map[], drafts[..n - 1], drafts[n - 1]);
    if drafts[n - 1].signature.journeyId != journeyId {
      i := PendingOrigin(drafts, n - 1, journeyId);
    }
  }

  /** Every identifier was drawn for an attempt with the very same content. */
  lemma {:induction false} ChosenOrigin(drafts: seq<Draft>, k: nat) returns (i: nat)
    requires k < |drafts|
    ensures i <= k && ChosenAt(map[], drafts, k) == drafts[i].random && drafts[i].signature == drafts[k].signature
    decreases k
  {
    i := k;
    var pending, signature := RememberAll(map[], drafts[..k]), drafts[k].signature;
    if signature.journeyId in pending && pending[signature.journeyId].signature == signature {
      var earlier := PendingOrigin(drafts, k, signature.journeyId);
      i := ChosenOrigin(drafts, earlier);
    }
  }

  /** Two attempts with different contents never share an identifier. */
  lemma OneContentPerId(drafts: seq<Draft>, a: nat, b: nat)
    requires DrawnOnce(drafts) && a < |drafts| && b < |drafts|
    requires ChosenAt(map[], drafts, a) == ChosenAt(map[], drafts, b)
    ensures drafts[a].signature == drafts[b].signature
  {
    hide ChosenAt;
    var i := ChosenOrigin(drafts, a);
    var j := ChosenOrigin(drafts, b);
  }

  /** A receipt that came up in a run repeats the command of the step that wrote it. */
  lemma {:induction false} ReceiptOrigin(states: seq<CommandExecutor.Tables>, actions: seq<CommandExecutor.Action>,
      retired: seq<set<string>>, key: CommandExecutor.Key, n: nat) returns (i: nat)
    requires CommandExecutor.IsRun(states, actions, retired) && n < |states|
    requires key !in states[0].receipts && key in states[n].receipts
    ensures i < n && i < |actions| && actions[i].Run?
    ensures CommandExecutor.KeyOf(actions[i].context, actions[i].command) == key
    ensures CommandExecutor.ExactReplay(states[n].receipts[key], actions[i].command)
  {
    hide CommandExecutor.Next, CommandExecutor.Allowed, CommandExecutor.ExactReplay;
    i := n - 1;
    CommandExecutor.StepExtends(states[n - 1], actions[n - 1]);
    if key in states[n - 1].receipts {
      i := ReceiptOrigin(states, actions, retired, key, n - 1);
    } else {
      WrittenFor(states[n - 1], actions[n - 1], key);
    }
  }

  lemma WrittenFor(t: CommandExecutor.Tables, a: CommandExecutor.Action, key: CommandExecutor.Key)
    requires key !in t.receipts && key in CommandExecutor.Next(t, a).receipts
    ensures a.Run? && CommandExecutor.KeyOf(a.context, a.command) == key
    ensures CommandExecutor.ExactReplay(CommandExecutor.Next(t, a).receipts[key], a.command)
  {
    hide AcceptsJourney, CommandExecutor.Updated;
  }

  /** A command of this user under this identifier is one of these attempts. */
  ghost predicate OnlyOurs(a: CommandExecutor.Action, context: CommandExecutor.Context, drafts: seq<Draft>,
      commandId: string) {
    a.Run? && a.context == context && a.command.commandId == commandId ==>
      exists m :: 0 <= m < |drafts| && Sends(a, context, map[], drafts, m)
  }

  /** In every run, as long as nobody else guesses its identifier, no attempt is refused for reusing one: an edit made
      after a failed save is a command of its own, whatever became of the first. */
  lemma EditedRetryIsNew(states: seq<CommandExecutor.Tables>, actions: seq<CommandExecutor.Action>,
      retired: seq<set<string>>, context: CommandExecutor.Context, drafts: seq<Draft>, k: nat, n: nat,
      changeSetId: string, now: string)
    requires CommandExecutor.IsRun(states, actions, retired) && n < |states| && DrawnOnce(drafts) && k < |drafts|
    requires CommandExecutor.Key(context.workspaceId, context.userId, ChosenAt(map[], drafts, k)) !in states[0].receipts
    requires forall i :: 0 <= i < n ==> OnlyOurs(actions[i], context, drafts, ChosenAt(map[], drafts, k))
    ensures var command := CommandOf(ChosenAt(map[], drafts, k), drafts[k].signature);
            CommandExecutor.Execute(states[n], context, command, true, changeSetId, now).1 !=
              Err(CommandExecutor.IdempotencyConflict)
  {
    hide CommandExecutor.IsRun, ChosenAt, AcceptsJourney, CommandExecutor.Updated;
    var command := CommandOf(ChosenAt(map[], drafts, k), drafts[k].signature);
    var key := CommandExecutor.KeyOf(context, command);
    if key in states[n].receipts {
      var i := ReceiptOrigin(states, actions, retired, key, n);
      var m :| 0 <= m < |drafts| && Sends(actions[i], context, map[], drafts, m);
      OneContentPerId(drafts, m, k);
    }
  }

  // ---- retries against the server ---

  datatype Try = Try(now: string, fate: Fate)

  /** The session after sending one update again and again. */
  function Retried(client: Client, s: Session, request: Request, tries: seq<Try>): Session
    decreases |tries|
  {
    if tries == [] then s
    else Retried(client, Attempt(client, s, request, tries[0].now, tries[0].fate).session, request, tries[1..])
  }

  function IdOf(client: Client, s: Session, request: Request): string
    requires request.PutJourney?
  {
    ChooseId(s.pending, PayloadOf(request), client.random(s.drawn))
  }

  /** What the server made of the update when it first arrived. */
  function Verdict(db: JourneyData, request: Request, now: string): (JourneyData, Option<HttpError>) {
    match Serve(db, request, now)
    case Ok(next) => (next, None)
    case Err(error) => (db, Some(error))
  }

  /** The adapter holds the identifier, and the server answers it without executing anything. */
  ghost predicate Decided(client: Client, s: Session, request: Request, commandId: string, problem: Option<HttpError>)
    requires request.PutJourney?
  {
    var key, command := OwnKey(client, commandId), CommandOf(commandId, PayloadOf(request));
    && DistinctJourneys(s.server.db.journeys) && ContractAccepts(request)
    && s.pending[request.journeyId := Pending(commandId, PayloadOf(request))] == s.pending
    && (if key in s.server.receipts then
          && AcceptsJourney(request.journey) && request.expected >= 1
          && CommandExecutor.ExactReplay(s.server.receipts[key], command)
          && problem == ProblemOf(CommandExecutor.Report(CommandExecutor.Replay(s.server.receipts[key], command)))
        else !AcceptsJourney(request.journey) && problem == Some(Unprocessable))
  }

  lemma ReplayAnswer(server: Server, context: CommandExecutor.Context, request: Request, commandId: string,
      changeSetId: string, now: string)
    requires request.PutJourney? && DistinctJourneys(server.db.journeys)
    requires var key := CommandExecutor.Key(context.workspaceId, context.userId, commandId);
             && key in server.receipts && AcceptsJourney(request.journey) && request.expected >= 1
             && CommandExecutor.ExactReplay(server.receipts[key], CommandOf(commandId, PayloadOf(request)))
    ensures var key := CommandExecutor.Key(context.workspaceId, context.userId, commandId);
            AnswerUpdate(server, context, request, commandId, changeSetId, now) ==
              Answer(server, ProblemOf(CommandExecutor.Report(CommandExecutor.Replay(server.receipts[key],
                  CommandOf(commandId, PayloadOf(request))))))
  {
    hide DistinctJourneys, AcceptsJourney, JourneyRows, WrittenBack;
    NothingWritten(server.db.journeys, context.workspaceId);
  }

  lemma RefusedAnswer(server: Server, context: CommandExecutor.Context, request: Request, commandId: string,
      changeSetId: string, now: string)
    requires request.PutJourney? && DistinctJourneys(server.db.journeys) && !AcceptsJourney(request.journey)
    ensures AnswerUpdate(server, context, request, commandId, changeSetId, now) == Answer(server, Some(Unprocessable))
  {
    hide DistinctJourneys, AcceptsJourney, JourneyRows, WrittenBack;
    NothingWritten(server.db.journeys, context.workspaceId);
  }

  /** Once decided, every further attempt leaves the server as it is and learns the same, if its answer arrives. */
  lemma DecidedStays(client: Client, s: Session, request: Request, commandId: string, problem: Option<HttpError>,
      t: Try)
    requires request.PutJourney? && Decided(client, s, request, commandId, problem)
    ensures var reply := Attempt(client, s, request, t.now, t.fate);
            && Decided(client, reply.session, request, commandId, problem) && reply.session.server == s.server
            && reply.problem == if t.fate.requestLost || t.fate.replyLost then Some(NetworkError) else problem
  {
    hide DistinctJourneys, AcceptsJourney, ContractAccepts, AnswerUpdate, CommandExecutor.ExactReplay,
        CommandExecutor.Report, CommandExecutor.Replay, ProblemOf;
    assert request.journeyId in s.pending && s.pending[request.journeyId] == Pending(commandId, PayloadOf(request));
    if OwnKey(client, commandId) in s.server.receipts {
      ReplayAnswer(s.server, client.context, request, commandId, t.fate.changeSetId, t.now);
    } else {
      RefusedAnswer(s.server, client.context, request, commandId, t.fate.changeSetId, t.now);
    }
  }

  /** The first execution leaves a receipt that repeats its answer, unless the body itself was refused. */
  lemma ReceiptRepeats(server: Server, context: CommandExecutor.Context, request: Request, commandId: string,
      changeSetId: string, now: string)
    requires request.PutJourney? && request.expected >= 1
    requires CommandExecutor.Key(context.workspaceId, context.userId, commandId) !in server.receipts
    ensures var key := CommandExecutor.Key(context.workspaceId, context.userId, commandId);
            var command := CommandOf(commandId, PayloadOf(request));
            var answer := AnswerUpdate(server, context, request, commandId, changeSetId, now);
            var receipts := answer.server.receipts;
            if AcceptsJourney(request.journey) then
              && key in receipts && CommandExecutor.ExactReplay(receipts[key], command)
              && answer.problem == ProblemOf(CommandExecutor.Report(CommandExecutor.Replay(receipts[key], command)))
            else key !in receipts && answer.problem == Some(Unprocessable)
  {
    hide AcceptsJourney, JourneyRows, WrittenBack, CommandExecutor.Updated;
  }

  /** The first attempt that arrives decides. */
  lemma ArrivalDecides(client: Client, s: Session, request: Request, t: Try)
    requires request.PutJourney? && ContractAccepts(request) && DistinctJourneys(s.server.db.journeys)
    requires OwnKey(client, IdOf(client, s, request)) !in s.server.receipts && !t.fate.requestLost
    ensures var reply := Attempt(client, s, request, t.now, t.fate);
            var (db, problem) := Verdict(s.server.db, request, t.now);
            && reply.session.server.db == db &&
                Decided(client, reply.session, request, IdOf(client, s, request), problem)
            && reply.problem == if t.fate.replyLost then Some(NetworkError) else problem
  {
    hide DistinctJourneys, AcceptsJourney, ContractJourney, AnswerUpdate, Serve, CommandExecutor.ExactReplay,
        CommandExecutor.Report, CommandExecutor.Replay, ProblemOf;
    ReceiptRepeats(s.server, client.context, request, IdOf(client, s, request), t.fate.changeSetId, t.now);
    FreshUpdateServes(s.server, client.context, request, IdOf(client, s, request), t.fate.changeSetId, t.now);
    UpdatedDistinct(s.server.db, request, t.now);
  }

  lemma UpdatedDistinct(db: JourneyData, request: Request, now: string)
    requires request.PutJourney? && DistinctJourneys(db.journeys)
    ensures DistinctJourneys(Verdict(db, request, now).0.journeys)
  {
    hide AcceptsJourney, Trim, FindJourney;
  }

  lemma LostChangesNothing(client: Client, s: Session, request: Request, t: Try)
    requires request.PutJourney? && ContractAccepts(request) && t.fate.requestLost
    ensures var reply := Attempt(client, s, request, t.now, t.fate);
            && reply.session.server == s.server && reply.problem == Some(NetworkError)
            && IdOf(client, reply.session, request) == IdOf(client, s, request)
  {
    hide ContractAccepts, AnswerUpdate;
  }

  /** The first try that is not lost on its way to the server. */
  function FirstArrival(tries: seq<Try>): Option<Try> {
    if tries == [] then None
    else if tries[0].fate.requestLost then FirstArrival(tries[1..])
    else Some(tries[0])
  }

  lemma {:induction false} DecidedForGood(client: Client, s: Session, request: Request, commandId: string,
      problem: Option<HttpError>, tries: seq<Try>)
    requires request.PutJourney? && Decided(client, s, request, commandId, problem)
    ensures Decided(client, Retried(client, s, request, tries), request, commandId, problem)
    ensures Retried(client, s, request, tries).server == s.server
    decreases |tries|
  {
    hide Decided, Attempt;
    if tries != [] {
      DecidedStays(client, s, request, commandId, problem, tries[0]);
      DecidedForGood(client, Attempt(client, s, request, tries[0].now, tries[0].fate).session, request, commandId,
          problem, tries[1..]);
    }
  }

  lemma {:induction false} RetriesSettle(client: Client, s: Session, request: Request, tries: seq<Try>)
    requires request.PutJourney? && ContractAccepts(request) && DistinctJourneys(s.server.db.journeys)
    requires OwnKey(client, IdOf(client, s, request)) !in s.server.receipts
    ensures var after := Retried(client, s, request, tries);
            match FirstArrival(tries)
            case None => after.server == s.server
            case Some(t) =>
              var (db, problem) := Verdict(s.server.db, request, t.now);
              after.server.db == db && Decided(client, after, request, IdOf(client, s, request), problem)
    decreases |tries|
  {
    hide Decided, Attempt, ContractAccepts, DistinctJourneys, Verdict, ChooseId;
    if tries != [] {
      var next := Attempt(client, s, request, tries[0].now, tries[0].fate).session;
      if tries[0].fate.requestLost {
        LostChangesNothing(client, s, request, tries[0]);
        RetriesSettle(client, next, request, tries[1..]);
      } else {
        ArrivalDecides(client, s, request, tries[0]);
        DecidedForGood(client, next, request, IdOf(client, s, request),
            Verdict(s.server.db, request, tries[0].now).1, tries[1..]);
      }
    }
  }

  /** However often one update is sent and whatever is lost, the tables are those of a single execution at the first
      arrival, and from then on every answer that arrives reports how that execution ended. */
  lemma RetriesActOnce(client: Client, s: Session, request: Request, tries: seq<Try>, last: Try)
    requires request.PutJourney? && ContractAccepts(request) && DistinctJourneys(s.server.db.journeys)
    requires OwnKey(client, IdOf(client, s, request)) !in s.server.receipts
    ensures var after := Retried(client, s, request, tries);
            var reply := Attempt(client, after, request, last.now, last.fate);
            match FirstArrival(tries)
            case None => after.server == s.server
            case Some(t) =>
              var (db, problem) := Verdict(s.server.db, request, t.now);
              && after.server.db == db && reply.session.server == after.server
              && (!last.fate.requestLost && !last.fate.replyLost ==> reply.problem == problem)
  {
    hide Decided, Attempt, ContractAccepts, DistinctJourneys, Verdict, ChooseId, Retried, FirstArrival;
    RetriesSettle(client, s, request, tries);
    var arrival := FirstArrival(tries);
    if arrival.Some? {
      DecidedStays(client, Retried(client, s, request, tries), request, IdOf(client, s, request),
          Verdict(s.server.db, request, arrival.value.now).1, last);
    }
  }
}
