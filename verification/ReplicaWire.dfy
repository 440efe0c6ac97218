/** The messages of the state machine and the parsers of the wire protocol: what the connector accepts as an answer is
    what the response parser accepts, and what the server executes is the command the connector sent. */
module ReplicaWire {
  import opened Basics
  import opened Json
  import opened CommandProtocol
  import opened Reservations
  import opened ServerState
  import opened ReplicaClient
  import opened ReplicaAgreement

  ghost predicate Injective(hash: Digest -> string) {
    forall a, b :: hash(a) == hash(b) ==> a == b
  }

  function ResultObject(r: CommandResult, hash: Digest -> string): Raw<ResultMembers> {
    Object(ResultMembers(
      Some(JStr(r.commandId)), Some(JStr(r.resourceId)), Some(JStr(hash(r.digest))),
      Some(JStr(StateName(Served(r.state)))), Some(JStr(CodeName(ServedCode(r.code)))),
      Some(JNum(r.previousVersion)), Some(JNum(r.currentVersion)), Some(JNum(r.attemptNumber))), {})
  }

  function ResponseObject(results: seq<CommandResult>, hash: Digest -> string): Raw<ResponseMembers> {
    Object(ResponseMembers(Some(JNum(SPIKE_PROTOCOL)),
      ResultArray(seq(|results|, i requires 0 <= i < |results| => ResultObject(results[i], hash)))), {})
  }

  /** One served result, with its state derived from its code as the parser derives it. */
  predicate OutcomeFor(r: CommandResult, command: Command, binding: Binding) {
    && r.commandId == command.commandId && r.resourceId == command.resourceId &&
        r.digest == CommandDigest(command, binding)
    && r.state == (match r.code
                   case AppliedCode => Applied
                   case AlreadyApplied => Applied
                   case OptimisticConflict => Conflict
                   case StaleIncarnation => Conflict
                   case CommandDenied => Denied)
    && SafePositive(r.previousVersion) && SafePositive(r.currentVersion) && SafePositive(r.attemptNumber)
  }

  lemma CodesServed(r: CommandResult, command: Command, binding: Binding)
    ensures Accepts(command, binding, [r]) <==> OutcomeFor(r, command, binding)
  {
  }

  lemma OutcomeNames(r: CommandResult, hash: Digest -> string)
    ensures KnownState(ResultObject(r, hash).members.state) && KnownCode(ResultObject(r, hash).members.code)
    ensures ResultObject(r, hash).members.state == Some(JStr(ExpectedState(ResultObject(r, hash).members.code))) <==>
              r.state == (match r.code
                          case AppliedCode => Applied
                          case AlreadyApplied => Applied
                          case OptimisticConflict => Conflict
                          case StaleIncarnation => Conflict
                          case CommandDenied => Denied)
  {
    assert |"applied"| == 7 && |"conflict"| == 8 && |"denied"| == 6 && |"already_applied"| == 15 &&
        |"optimistic_conflict"| == 19 &&
           |"stale_incarnation"| == 17 && |"command_denied"| == 14;
  }

  lemma OneAnswer(r: CommandResult, command: Command, binding: Binding, hash: Digest -> string)
    requires Injective(hash)
    ensures Answers(ResultObject(r, hash), command, binding, hash) <==> OutcomeFor(r, command, binding)
  {
    hide KnownState, KnownCode, ExpectedState;
    OutcomeNames(r, hash);
    assert Names(ResultObject(r, hash)) == r.commandId;
  }

  /** What the connector takes as the answer to its command is exactly what the response parser lets through. */
  lemma AcceptsExactly(results: seq<CommandResult>, command: Command, binding: Binding, hash: Digest -> string)
    requires Injective(hash)
    ensures Accepts(command, binding, results) <==>
        AcceptableResponse(ResponseObject(results, hash), [command], binding, hash)
  {
    hide Answers, OutcomeFor, OneToOne;
    var items := ResponseObject(results, hash).members.results.items;
    assert |items| == |results|;
    if |results| == 1 {
      var r := results[0];
      assert results == [r] && items == [ResultObject(r, hash)];
      CodesServed(r, command, binding);
      OneAnswer(r, command, binding, hash);
      OneForOne(items[0], command, binding, hash);
    } else {
      WrongCount(items, command, binding, hash);
    }
  }

  lemma OneForOne(item: Raw<ResultMembers>, command: Command, binding: Binding, hash: Digest -> string)
    ensures OneToOne([item], [command], binding, hash) <==> Answers(item, command, binding, hash)
  {
    hide Answers;
    if Answers(item, command, binding, hash) {
      assert Answers([item][0], [command][0], binding, hash);
      assert AnsweredBy([item][0], [command], binding, hash);
    }
    if OneToOne([item], [command], binding, hash) {
      assert AnsweredBy([item][0], [command], binding, hash);
    }
  }

  lemma WrongCount(items: seq<Raw<ResultMembers>>, command: Command, binding: Binding, hash: Digest -> string)
    requires |items| != 1
    ensures !OneToOne(items, [command], binding, hash)
  {
  }

  /** A command of canonical form is executed as it was sent; anything else never reaches its transaction unchanged. */
  lemma SentIsExecuted(s: Server, user: string, session: Session, command: Command, attempt: int)
    ensures CanonicalEnvelope(Envelope(BindingOf(session), LOCAL_TRANSACTION, [command])) ==>
              HandleCommand(s, user, session, command, attempt) == HandleParsed(s, user, BindingOf(session),
                  session.credential, command, attempt)
    ensures ParseCommandEnvelope(UploadBody(session, command)).Err? ==>
              HandleCommand(s, user, session, command, attempt) == (s, Refused)
  {
    hide ParseCommandEnvelope, CanonicalEnvelope, HandleParsed;
    EnvelopeRoundTrip(Envelope(BindingOf(session), LOCAL_TRANSACTION, [command]));
  }

  /** The one result of an answered command carries that command's own digest. */
  lemma ExecuteDigest(s: Server, user: string, binding: Binding, credential: Credential, command: Command, attempt: int)
    requires WellFormedBatch([command])
    ensures var reply := Execute(s, user, binding, credential, [command], attempt).1;
            reply.Answered? ==> |reply.results| == 1 && reply.results[0].digest == CommandDigest(command, binding)
  {
    hide AllGranted, AnyStaleIncarnation, AnyConflict, Stale, LockReplica, RefuseFirst, ApplyFirst, CommandDigest;
    if AllPresent(s, [command]) {
      AllRefused(s, user, binding, [command], StaleIncarnation);
      RefusedReceipt(s, user, binding, [command], StaleIncarnation, 1, 0);
      AllRefused(s, user, binding, [command], OptimisticConflict);
      RefusedReceipt(s, user, binding, [command], OptimisticConflict, 1, 0);
      AllApplied(s, user, binding, [command]);
      AppliedReceiptAt(s, user, binding, [command], 1, 0);
    }
  }

  lemma ParsedDigest(s: Server, user: string, binding: Binding, credential: Credential, parsed: Command,
      command: Command, sent: Binding, attempt: int)
    ensures var verdict := Judge(command, sent, HandleParsed(s, user, binding, credential, parsed, attempt).1);
            verdict.Terminal? && verdict.result.state.Served? ==> parsed == command && binding == sent
  {
    hide Execute, ConsumeRate, WellFormedBatch;
    OneIsABatch(parsed);
    var rate := ConsumeRate(s, user, binding, credential);
    ExecuteDigest(rate.0, user, binding, credential, parsed, attempt);
  }

  /** Whatever the parser made of an upload, the client takes a served outcome only for a command the server executed
      exactly as it was sent. */
  lemma ServedMeansExecuted(s: Server, user: string, session: Session, command: Command, attempt: int)
    ensures var verdict := Judge(command, BindingOf(session), HandleCommand(s, user, session, command, attempt).1);
            verdict.Terminal? && verdict.result.state.Served? ==>
              CanonicalEnvelope(Envelope(BindingOf(session), LOCAL_TRANSACTION, [command]))
  {
    hide HandleParsed, Judge, ParseCommandEnvelope, CanonicalCommand, IsUuid;
    var parsed := ParseCommandEnvelope(UploadBody(session, command));
    if parsed.Ok? {
      ParsedEnvelopeIsCanonical(UploadBody(session, command));
      ParsedDigest(s, user, parsed.value.binding, session.credential, parsed.value.commands[0], command,
          BindingOf(session), attempt);
    } else {
      RefusedThrows(command, BindingOf(session));
    }
  }
}
