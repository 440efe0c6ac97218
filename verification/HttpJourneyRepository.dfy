/** The repository object itself: load and save as loops over requests, and the command identifiers it keeps
    for journey updates that have not been confirmed by a reload yet. */
module HttpJourneyRepository {
  import opened Basics
  import opened JourneyDomain
  import opened JourneyService
  import opened JourneyDatabase
  import opened JourneySave
  import opened JourneyClient
  import CommandExecutor

  /** The API as the adapter sees it: one request, one transaction, one answer. */
  class Api {
    var server: Server

    constructor (server: Server)
      ensures this.server == server
    {
      this.server := server;
    }

    method Send(context: CommandExecutor.Context, request: Request, commandId: string, now: string,
        fate: Fate) returns (problem: Option<HttpError>)
      modifies this
      ensures Answer(server, problem) == Exchange(old(server), context, request, commandId, now, fate)
    {
      var answer := Exchange(server, context, request, commandId, now, fate);
      server, problem := answer.server, answer.problem;
    }
  }

  lemma FlattenFrom(parts: seq<seq<Request>>, i: nat)
    requires i < |parts|
    ensures Flatten(parts[i..]) == parts[i] + Flatten(parts[i + 1..])
  {
    assert parts[i..][1..] == parts[i + 1..];
  }

  /** Running a list that starts with at most one request. */
  lemma RunFirst(client: Client, s: Session, part: seq<Request>, rest: seq<Request>, now: string,
      fates: Request -> Fate)
    requires |part| <= 1
    ensures part == [] ==> part + rest == rest
    ensures part != [] ==>
              var reply := Attempt(client, s, part[0], now, fates(part[0]));
              RunAll(client, s, part + rest, now, fates) ==
                if reply.problem.Some? then reply else RunAll(client, reply.session, rest, now, fates)
  {
    hide Attempt;
    if part != [] {
      assert (part + rest)[1..] == rest;
    }
  }

  class HttpJourneyRepository {
    const api: Api
    const client: Client
    var current: JourneyData
    var pending: map<string, Pending>
    var drawn: nat

    constructor (api: Api, client: Client)
      ensures this.api == api && this.client == client && pending == map[] && drawn == 0
    {
      this.api, this.client := api, client;
      current, pending, drawn := JourneyData([], [], []), map[], 0;
    }

    ghost function State(): Session
      reads this, api
    {
      Session(api.server, pending, drawn)
    }

    /** A load that gets through takes over the server's state and forgets every pending identifier; one that does
        not changes nothing. */
    method Load(failure: Option<HttpError>) returns (r: Result<JourneyData, HttpError>)
      modifies this`current, this`pending
      ensures failure.Some? ==> r == Err(failure.value) && current == old(current) && pending == old(pending)
      ensures failure.None? ==> r == Ok(api.server.db) && current == api.server.db && pending == map[]
    {
      if failure.Some? {
        return Err(failure.value);
      }
      current, pending := api.server.db, map[];
      return Ok(current);
    }

    /** One loop of save: each element of the list sends at most one request. */
    method SendPhase(parts: seq<seq<Request>>, ghost rest: seq<Request>, now: string,
        fates: Request -> Fate) returns (problem: Option<HttpError>)
      requires SendsOnce(parts)
      modifies api
      ensures RunAll(client, old(State()), Flatten(parts) + rest, now, fates) ==
                if problem.Some? then Reply(State(), problem) else RunAll(client, State(), rest, now, fates)
    {
      hide Exchange, RunAll, Flatten;
      problem := None;
      assert parts[0..] == parts;
      for i := 0 to |parts|
        invariant problem.None?
        invariant RunAll(client, State(), Flatten(parts[i..]) + rest, now, fates) ==
                    RunAll(client, old(State()), Flatten(parts) + rest, now, fates)
      {
        FlattenFrom(parts, i);
        RunFirst(client, State(), parts[i], Flatten(parts[i + 1..]) + rest, now, fates);
        assert Flatten(parts[i..]) + rest == parts[i] + (Flatten(parts[i + 1..]) + rest);
        if parts[i] != [] {
          problem := api.Send(client.context, parts[i][0], "", now, fates(parts[i][0]));
          if problem.Some? {
            return;
          }
        }
      }
      NothingLeft(parts, rest);
    }

    /** The journey loop draws a command identifier for each update it sends, or takes the pending one again. */
    method SendJourneys(previous: JourneyData, next: JourneyData, ghost rest: seq<Request>, now: string,
        fates: Request -> Fate) returns (problem: Option<HttpError>)
      modifies api, this`pending, this`drawn
      ensures RunAll(client, old(State()), Flatten(JourneyWrites(previous, next)) + rest, now, fates) ==
                if problem.Some? then Reply(State(), problem) else RunAll(client, State(), rest, now, fates)
    {
      hide Exchange, RunAll, Flatten, Remember, ChooseId;
      problem := None;
      ghost var parts := JourneyWrites(previous, next);
      assert parts[0..] == parts;
      for i := 0 to |next.journeys|
        invariant problem.None?
        invariant RunAll(client, State(), Flatten(parts[i..]) + rest, now, fates) ==
                    RunAll(client, old(State()), Flatten(parts) + rest, now, fates)
      {
        var j := next.journeys[i];
        var prior := FindJourney(previous.journeys, j.id);
        FlattenFrom(parts, i);
        RunFirst(client, State(), parts[i], Flatten(parts[i + 1..]) + rest, now, fates);
        assert Flatten(parts[i..]) + rest == parts[i] + (Flatten(parts[i + 1..]) + rest);
        if prior.None? {
          var request := PostJourney(j.id, JourneyBodyOf(j));
          problem := api.Send(client.context, request, "", now, fates(request));
        } else if JourneyChanged(prior.value, j) {
          var request := PutJourney(j.id, JourneyBodyOf(j), j.status, prior.value.stamp.version);
          var signature, random := PayloadOf(request), client.random(drawn);
          var commandId := ChooseId(pending, signature, random);
          pending, drawn := Remember(pending, signature, random), drawn + 1;
          problem := api.Send(client.context, request, commandId, now, fates(request));
        }
        if problem.Some? {
          return;
        }
      }
      NothingLeft(parts, rest);
    }

    /** save: sends exactly the requests of the diff and stops at the first that fails. Only a reload that gets
        through replaces the loaded data and drops the pending identifiers. */
    method Save(next: JourneyData, now: string, fates: Request -> Fate,
        reload: Option<HttpError>) returns (r: Result<JourneyData, HttpError>)
      modifies this`current, this`pending, this`drawn, api
      ensures var reply := RunAll(client, old(State()), SaveRequests(old(current), next), now, fates);
              var failure := if reply.problem.Some? then reply.problem else reload;
              && api.server == reply.session.server && drawn == reply.session.drawn
              && (failure.Some? ==>
                    r == Err(failure.value) && current == old(current) && pending == reply.session.pending)
              && (failure.None? ==> r == Ok(api.server.db) && current == api.server.db && pending == map[])
    {
      hide RunAll, Attempt, JourneyDrops, JourneyWrites, SegmentDrops, SegmentWrites, Reorders, PackingDrops,
          PackingWrites, Flatten;
      var previous := current;
      ghost var packing := Flatten(PackingWrites(previous, next)) + [];
      ghost var fromPacking := Flatten(PackingDrops(previous, next)) + packing;
      ghost var fromReorders := Flatten(Reorders(previous, next)) + fromPacking;
      ghost var fromWrites := Flatten(SegmentWrites(previous, next)) + fromReorders;
      ghost var fromDrops := Flatten(SegmentDrops(previous, next)) + fromWrites;
      ghost var fromJourneys := Flatten(JourneyWrites(previous, next)) + fromDrops;
      assert SaveRequests(previous, next) == Flatten(JourneyDrops(previous, next)) + fromJourneys;
      PhasesSendOnce(previous, next);
      var problem := SendPhase(JourneyDrops(previous, next), fromJourneys, now, fates);
      if problem.Some? {
        return Err(problem.value);
      }
      problem := SendJourneys(previous, next, fromDrops, now, fates);
      if problem.Some? {
        return Err(problem.value);
      }
      problem := SendPhase(SegmentDrops(previous, next), fromWrites, now, fates);
      if problem.Some? {
        return Err(problem.value);
      }
      problem := SendPhase(SegmentWrites(previous, next), fromReorders, now, fates);
      if problem.Some? {
        return Err(problem.value);
      }
      problem := SendPhase(Reorders(previous, next), fromPacking, now, fates);
      if problem.Some? {
        return Err(problem.value);
      }
      problem := SendPhase(PackingDrops(previous, next), packing, now, fates);
      if problem.Some? {
        return Err(problem.value);
      }
      problem := SendPhase(PackingWrites(previous, next), [], now, fates);
      if problem.Some? {
        return Err(problem.value);
      }
      NothingToRun(client, State(), now, fates);
      r := Load(reload);
    }
  }

  lemma NothingLeft(parts: seq<seq<Request>>, rest: seq<Request>)
    ensures Flatten(parts[|parts|..]) + rest == rest
  {
    assert parts[|parts|..] == [];
  }

  lemma NothingToRun(client: Client, s: Session, now: string, fates: Request -> Fate)
    ensures RunAll(client, s, [], now, fates) == Reply(s, None)
  {
  }

  ghost predicate SendsOnce(parts: seq<seq<Request>>) {
    forall i :: 0 <= i < |parts| ==> |parts[i]| <= 1 && (parts[i] != [] ==> !parts[i][0].PutJourney?)
  }

  lemma PhasesSendOnce(previous: JourneyData, next: JourneyData)
    ensures SendsOnce(JourneyDrops(previous, next)) && SendsOnce(SegmentDrops(previous, next))
    ensures SendsOnce(SegmentWrites(previous, next)) && SendsOnce(Reorders(previous, next))
    ensures SendsOnce(PackingDrops(previous, next)) && SendsOnce(PackingWrites(previous, next))
  {
    hide Route, Moved;
  }
}
