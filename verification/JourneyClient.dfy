/** One request of the web adapter on its way: the client's own check of the body against the contract, a network
    that may lose the request or the answer, and the server with the receipts of its update commands. */
module JourneyClient {
  import opened Basics
  import opened JourneyDomain
  import opened JourneyService
  import opened JourneyDatabase
  import opened JourneyTables
  import opened JourneySave
  import opened CalendarDate
  import CommandExecutor

  // ---- the contract ---

  predicate ContractDates(start: Option<string>, end: Option<string>) {
    (start.Some? ==> ValidDate(start.value)) && (end.Some? ==> ValidDate(end.value))
  }

  predicate ContractJourney(body: JourneyBody) {
    1 <= |body.name| <= 200 && ContractDates(body.startDate, body.endDate)
  }

  predicate ContractSegment(body: SegmentBody) {
    && |body.notes| <= 5000 && ContractDates(body.startDate, body.endDate)
    && match body.details
       case Stay(place) => |place| <= 200
       case Move(origin, destination, transport) => |origin| <= 200 && |destination| <= 200 && |transport| <= 100
  }

  predicate ContractPacking(body: PackingBody) {
    1 <= |body.caption| <= 200 && 1 <= body.quantity <= 99
  }

  /** What the client sends at all; anything else is refused before it leaves the browser. */
  predicate ContractAccepts(request: Request) {
    match request
    case PostJourney(_, body) => ContractJourney(body)
    case PutJourney(_, body, _, expected) => ContractJourney(body) && expected >= 1
    case PostSegment(_, _, body) => ContractSegment(body)
    case PutSegment(_, _, body, expected) => ContractSegment(body) && expected >= 1
    case Reorder(_, _, expected, position) => expected >= 1 && position >= 0
    case PostPacking(_, _, body) => ContractPacking(body)
    case PutPacking(_, _, body, expected) => ContractPacking(body) && expected >= 1
    case PutProgress(_, _, packed, expected) => expected >= 1 && 0 <= packed <= 99
    case _ => true
  }

  /** The dates a request carries pass the client's date check. */
  predicate CarriedDates(request: Request) {
    match request
    case PostJourney(_, body) => ContractDates(body.startDate, body.endDate)
    case PutJourney(_, body, _, _) => ContractDates(body.startDate, body.endDate)
    case PostSegment(_, _, body) => ContractDates(body.startDate, body.endDate)
    case PutSegment(_, _, body, _) => ContractDates(body.startDate, body.endDate)
    case _ => true
  }

  /** Of the requests a server would serve, the client refuses exactly those with a date it does not know. */
  lemma ServedContract(db: JourneyData, request: Request, now: string)
    requires Serve(db, request, now).Ok?
    ensures ContractAccepts(request) <==> CarriedDates(request)
  {
    hide ValidDate, FindJourney, FindSegment, FindPacking, HasJourney, HasSegment, HasPacking, ServerDates, TouchRow,
        Route, NonEmpty;
  }

  // ---- the server ---

  /** The journey tables with the audit tables of the update command. */
  datatype Server = Server(db: JourneyData, receipts: map<CommandExecutor.Key, CommandExecutor.Receipt>,
      changeSets: seq<CommandExecutor.ChangeSet>, events: seq<CommandExecutor.Event>)

  /** What happens to one request: which way the storage visits the rows of an oversize route, what the network
      loses, and the identifier the server draws. */
  datatype Fate = Fate(clash: bool, requestLost: bool, replyLost: bool, changeSetId: string)

  datatype Answer = Answer(server: Server, problem: Option<HttpError>)

  /** The journeys as the rows an update command sees. */
  function JourneyRows(journeys: seq<Journey>, workspaceId: string): map<string, CommandExecutor.Row> {
    if journeys == [] then map[]
    else JourneyRows(journeys[1..], workspaceId)[journeys[0].id := CommandExecutor.Row(workspaceId, journeys[0])]
  }

  function WrittenBack(journeys: seq<Journey>, rows: map<string, CommandExecutor.Row>): seq<Journey> {
    seq(|journeys|, i requires 0 <= i < |journeys| =>
      if journeys[i].id in rows then rows[journeys[i].id].journey else journeys[i])
  }

  function PayloadOf(request: Request): CommandExecutor.Payload
    requires request.PutJourney?
  {
    CommandExecutor.Payload(request.journeyId, request.journey, request.status, request.expected)
  }

  function CommandOf(commandId: string, payload: CommandExecutor.Payload): CommandExecutor.Command {
    CommandExecutor.Command(commandId, CommandExecutor.JOURNEY_UPDATE, 1, payload)
  }

  function TablesOf(server: Server, workspaceId: string): CommandExecutor.Tables {
    CommandExecutor.Tables(JourneyRows(server.db.journeys, workspaceId), server.receipts, server.changeSets,
        server.events)
  }

  /** A reused identifier and a version conflict are both answered with status 409. */
  function ProblemOf(r: Result<CommandExecutor.Execution, CommandExecutor.Failure>): Option<HttpError> {
    match r
    case Ok(_) => None
    case Err(Conflict) => Some(VersionConflict)
    case Err(IdempotencyConflict) => Some(VersionConflict)
    case Err(Missing) => Some(NotFound)
    case Err(_) => Some(Unprocessable)
  }

  /** A journey update is a command with a receipt. */
  function AnswerUpdate(server: Server, context: CommandExecutor.Context, request: Request, commandId: string,
      changeSetId: string, now: string): Answer
    requires request.PutJourney?
  {
    var (after, r) := CommandExecutor.Execute(TablesOf(server, context.workspaceId), context,
                        CommandOf(commandId, PayloadOf(request)), true, changeSetId, now);
    Answer(Server(server.db.(journeys := WrittenBack(server.db.journeys, after.rows)), after.receipts,
        after.changeSets, after.events), ProblemOf(r))
  }

  /** A reorder of a route above the shift may meet a position that is still taken. */
  predicate Clashes(db: JourneyData, request: Request, fate: Fate) {
    request.Reorder? && fate.clash && |Owned(db.segments, request.journeyId)| > SHIFT
  }

  function AnswerDirect(server: Server, request: Request, now: string, fate: Fate): Answer {
    match Serve(server.db, request, now)
    case Err(error) => Answer(server, Some(error))
    case Ok(next) =>
      if Clashes(server.db, request, fate) then Answer(server, Some(ConstraintError))
      else Answer(server.(db := next), None)
  }

  /** One request of the client and what the adapter learns of it. */
  function Exchange(server: Server, context: CommandExecutor.Context, request: Request, commandId: string, now: string,
      fate: Fate): Answer {
    if !ContractAccepts(request) then Answer(server, Some(InvalidRequest))
    else if fate.requestLost then Answer(server, Some(NetworkError))
    else
      var answer := if request.PutJourney? then
                      AnswerUpdate(server, context, request, commandId, fate.changeSetId, now)
                    else AnswerDirect(server, request, now, fate);
      if fate.replyLost then answer.(problem := Some(NetworkError)) else answer
  }

  // ---- the adapter's session ---

  /** An update that has not been confirmed by a reload yet. */
  datatype Pending = Pending(commandId: string, signature: CommandExecutor.Payload)

  /** The signed-in user, and the identifiers crypto.randomUUID will hand out. */
  datatype Client = Client(context: CommandExecutor.Context, random: nat -> string)

  datatype Session = Session(server: Server, pending: map<string, Pending>, drawn: nat)

  datatype Reply = Reply(session: Session, problem: Option<HttpError>)

  /** Where the receipt of this user's command is kept. */
  function OwnKey(client: Client, commandId: string): CommandExecutor.Key {
    CommandExecutor.Key(client.context.workspaceId, client.context.userId, commandId)
  }

  /** The identifier for an update: the pending one while the content is the same, a fresh one otherwise. */
  function ChooseId(pending: map<string, Pending>, signature: CommandExecutor.Payload, random: string): string {
    if signature.journeyId in pending && pending[signature.journeyId].signature == signature
    then pending[signature.journeyId].commandId else random
  }

  function Remember(pending: map<string, Pending>, signature: CommandExecutor.Payload,
      random: string): map<string, Pending> {
    pending[signature.journeyId := Pending(ChooseId(pending, signature, random), signature)]
  }

  /** An update is remembered before it is sent. */
  function Attempt(client: Client, s: Session, request: Request, now: string, fate: Fate): Reply {
    if request.PutJourney? then
      var random, signature := client.random(s.drawn), PayloadOf(request);
      var answer := Exchange(s.server, client.context, request, ChooseId(s.pending, signature, random), now, fate);
      Reply(Session(answer.server, Remember(s.pending, signature, random), s.drawn + 1), answer.problem)
    else
      var answer := Exchange(s.server, client.context, request, "", now, fate);
      Reply(s.(server := answer.server), answer.problem)
  }

  /** The requests of a save, up to the first that fails. */
  function RunAll(client: Client, s: Session, requests: seq<Request>, now: string, fates: Request -> Fate): Reply
    decreases |requests|
  {
    if requests == [] then Reply(s, None)
    else
      var reply := Attempt(client, s, requests[0], now, fates(requests[0]));
      if reply.problem.Some? then reply else RunAll(client, reply.session, requests[1..], now, fates)
  }

  // ---- a command that is executed for the first time ---

  lemma {:induction false} RowsAt(journeys: seq<Journey>, workspaceId: string, id: string)
    ensures id in JourneyRows(journeys, workspaceId) <==> FindJourney(journeys, id).Some?
    ensures id in JourneyRows(journeys, workspaceId) ==>
        JourneyRows(journeys, workspaceId)[id] == CommandExecutor.Row(workspaceId, FindJourney(journeys, id).value)
  {
    if journeys != [] {
      RowsAt(journeys[1..], workspaceId, id);
    }
  }

  lemma NothingWritten(journeys: seq<Journey>, workspaceId: string)
    requires DistinctJourneys(journeys)
    ensures WrittenBack(journeys, JourneyRows(journeys, workspaceId)) == journeys
  {
    hide DistinctJourneys, JourneyRows, FindJourney;
    forall i | 0 <= i < |journeys| ensures WrittenBack(journeys, JourneyRows(journeys, workspaceId))[i] == journeys[i] {
      RowsAt(journeys, workspaceId, journeys[i].id);
      JourneyAt(journeys, i);
    }
  }

  lemma OneWritten(journeys: seq<Journey>, workspaceId: string, payload: CommandExecutor.Payload, now: string)
    requires DistinctJourneys(journeys) && FindJourney(journeys, payload.journeyId).Some?
    ensures var row := CommandExecutor.Updated(FindJourney(journeys, payload.journeyId).value, payload, now);
            WrittenBack(journeys, JourneyRows(journeys,
                workspaceId)[payload.journeyId := CommandExecutor.Row(workspaceId,
                row)]) == UpdateRow(journeys, payload.journeyId, payload.journey, payload.status, now)
  {
    hide DistinctJourneys, JourneyRows, FindJourney, Trim;
    var row := CommandExecutor.Updated(FindJourney(journeys, payload.journeyId).value, payload, now);
    var rows := JourneyRows(journeys, workspaceId)[payload.journeyId := CommandExecutor.Row(workspaceId, row)];
    forall i | 0 <= i < |journeys|
      ensures WrittenBack(journeys, rows)[i] ==
          UpdateRow(journeys, payload.journeyId, payload.journey, payload.status, now)[i]
    {
      RowsAt(journeys, workspaceId, journeys[i].id);
      JourneyAt(journeys, i);
    }
  }

  /** Under an identifier without a receipt the command does what the plain update of the journey tables does. */
  lemma FreshUpdateServes(server: Server, context: CommandExecutor.Context, request: Request, commandId: string,
      changeSetId: string, now: string)
    requires request.PutJourney? && DistinctJourneys(server.db.journeys)
    requires CommandExecutor.Key(context.workspaceId, context.userId, commandId) !in server.receipts
    ensures var answer := AnswerUpdate(server, context, request, commandId, changeSetId, now);
            match Serve(server.db, request, now)
            case Err(error) => answer.problem == Some(error) && answer.server.db == server.db
            case Ok(next) => answer.problem.None? && answer.server.db == next
  {
    hide DistinctJourneys, AcceptsJourney, JourneyRows, WrittenBack, FindJourney, UpdateRow;
    var journeys := server.db.journeys;
    RowsAt(journeys, context.workspaceId, request.journeyId);
    NothingWritten(journeys, context.workspaceId);
    if FindJourney(journeys, request.journeyId).Some? {
      OneWritten(journeys, context.workspaceId, PayloadOf(request), now);
    }
  }
}
