/** The command envelope, its digest, and the two wire parsers of command-protocol.ts. */
module CommandProtocol {
  import opened Basics
  import opened Json

  const SPIKE_PROTOCOL := 1

  datatype CommandKind = ResourceUpdate | ResourceSoftDelete

  datatype Command = Command(
    commandId: string, kind: CommandKind, resourceId: string, incarnationId: string,
    expectedVersion: int, payload: Option<string>)

  datatype Binding = Binding(replicaId: string, epoch: int)

  datatype Envelope = Envelope(binding: Binding, localTransactionId: string, commands: seq<Command>)

  /** SHA-256 of the normalized command and binding, as an injective constructor. */
  datatype Digest = Sha256(binding: Binding, command: Command)

  datatype ResultState = Applied | Conflict | Denied

  datatype ResultCode = AppliedCode | AlreadyApplied | OptimisticConflict | StaleIncarnation | CommandDenied

  datatype CommandResult = CommandResult(
    commandId: string, resourceId: string, digest: Digest, state: ResultState, code: ResultCode,
    previousVersion: int, currentVersion: int, attemptNumber: int)

  datatype ProtocolError =
    | NotAnObject | UnknownField | UnsupportedProtocol | InvalidText | InvalidUuid
    | InvalidNumber | BatchSize | UnsupportedType | UnexpectedPayload
    | ResponseMismatch | IdentityMismatch | UnknownState | UnknownCode | InconsistentState | OmittedResults

  function CommandDigest(command: Command, binding: Binding): Digest {
    Sha256(binding, command)
  }

  function KindName(kind: CommandKind): string {
    match kind
    case ResourceUpdate => "ps8.resource.update.v1"
    case ResourceSoftDelete => "ps8.resource.soft_delete.v1"
  }

  // ---- identifiers ---

  predicate LowerHex(c: char) {
    '0' <= c <= '9' || 'a' <= c <= 'f'
  }

  predicate IsUuid(s: string, versions: string) {
    && |s| == 36
    && (forall i | 0 <= i < 36 :: if i == 8 || i == 13 || i == 18 || i == 23 then s[i] == '-' else LowerHex(s[i]))
    && s[14] in versions
    && s[19] in "89ab"
  }

  const ANY_VERSION := "12345"

  const VERSION_4 := "4"

  function LowerChar(c: char): char {
    if 'A' <= c <= 'Z' then ((c as int) + 32) as char else c
  }

  function Lower(s: string): (r: string)
    ensures |r| == |s|
    ensures forall i :: 0 <= i < |s| ==> r[i] == LowerChar(s[i])
  {
    if s == "" then "" else [LowerChar(s[0])] + Lower(s[1..])
  }

  lemma {:induction false} AsciiLength(s: string)
    requires forall i :: 0 <= i < |s| ==> s[i] as int < 0x1_0000
    ensures Utf16Length(s) == |s|
  {
    if s != "" {
      AsciiLength(s[1..]);
    }
  }

  lemma CanonicalUuid(s: string, versions: string)
    requires IsUuid(s, versions)
    ensures Lower(s) == s && Utf16Length(s) == 36
  {
    AsciiLength(s);
  }

  // ---- untrusted objects ---

  /** An untrusted JSON value read as an object: its known members, and the names of all others. */
  datatype Raw<+T> = NotAnObjectValue | Object(members: T, extra: set<string>)

  /** The members of a command, absent when the property is missing. */
  datatype CommandMembers = CommandMembers(
    commandId: Option<Json>, kind: Option<Json>, resourceId: Option<Json>, incarnationId: Option<Json>,
    expectedVersion: Option<Json>, payload: Option<Json>)

  datatype RawCommands = NotAnArray | Commands(items: seq<Raw<CommandMembers>>)

  datatype EnvelopeMembers = EnvelopeMembers(
    protocol: Option<Json>, replicaId: Option<Json>, epoch: Option<Json>, localTransactionId: Option<Json>,
    commands: RawCommands)

  datatype ResultMembers = ResultMembers(
    commandId: Option<Json>, resourceId: Option<Json>, digest: Option<Json>, state: Option<Json>, code: Option<Json>,
    previousVersion: Option<Json>, currentVersion: Option<Json>, attemptNumber: Option<Json>)

  datatype RawResults = NotAResultArray | ResultArray(items: seq<Raw<ResultMembers>>)

  datatype ResponseMembers = ResponseMembers(protocol: Option<Json>, results: RawResults)

  /** Authority fields and any other unknown member are refused alike. */
  function ExactKeys<T>(value: Raw<T>): (error: Option<ProtocolError>)
    ensures error.None? <==> value.Object? && value.extra == {}
  {
    if value.NotAnObjectValue? then Some(NotAnObject)
    else if value.extra != {} then Some(UnknownField)
    else None
  }

  /** The text of a property, when it is a string of 1 to `maximum` UTF-16 units. */
  function BoundedText(value: Option<Json>, maximum: nat): Option<string> {
    match value
    case Some(JStr(s)) => if 1 <= Utf16Length(s) <= maximum then Some(s) else None
    case _ => None
  }

  function LowerText(value: Option<Json>, maximum: nat): Option<string> {
    match BoundedText(value, maximum)
    case Some(s) => Some(Lower(s))
    case None => None
  }

  function PositiveInteger(value: Option<Json>): Option<int> {
    match value
    case Some(JNum(n)) => if 1 <= n <= MAX_SAFE_INTEGER then Some(n) else None
    case _ => None
  }

  // ---- the envelope ---

  function ParseKind(value: Option<Json>): Option<CommandKind> {
    if value == Some(JStr(KindName(ResourceUpdate))) then Some(ResourceUpdate)
    else if value == Some(JStr(KindName(ResourceSoftDelete))) then Some(ResourceSoftDelete)
    else None
  }

  function ParseCommand(raw: Raw<CommandMembers>): Result<Command, ProtocolError> {
    match ExactKeys(raw)
    case Some(error) => Err(error)
    case None =>
      var m := raw.members;
      var id, resource, incarnation :=
        LowerText(m.commandId, 36), LowerText(m.resourceId, 36), LowerText(m.incarnationId, 36);
      var kind, version := ParseKind(m.kind), PositiveInteger(m.expectedVersion);
      if id.None? || resource.None? || incarnation.None? then Err(InvalidText)
      else if !IsUuid(id.value, VERSION_4) || !IsUuid(resource.value, ANY_VERSION) ||
          !IsUuid(incarnation.value, ANY_VERSION) then
        Err(InvalidUuid)
      else if kind.None? then Err(UnsupportedType)
      else if version.None? then Err(InvalidNumber)
      else
        match kind.value
        case ResourceUpdate =>
          var payload := BoundedText(m.payload, 512);
          if payload.None? then Err(InvalidText)
          else Ok(Command(id.value, ResourceUpdate, resource.value, incarnation.value, version.value, payload))
        case ResourceSoftDelete =>
          if m.payload.Some? then Err(UnexpectedPayload)
          else Ok(Command(id.value, ResourceSoftDelete, resource.value, incarnation.value, version.value, None))
  }

  /** One command an envelope; the duplicate checks of the source cannot fail on a batch of one. */
  function ParseCommandEnvelope(value: Raw<EnvelopeMembers>): Result<Envelope, ProtocolError> {
    match ExactKeys(value)
    case Some(error) => Err(error)
    case None =>
      var m := value.members;
      var replicaId, epoch, transaction :=
        LowerText(m.replicaId, 36), PositiveInteger(m.epoch), BoundedText(m.localTransactionId, 128);
      if m.protocol != Some(JNum(SPIKE_PROTOCOL)) then Err(UnsupportedProtocol)
      else if replicaId.None? then Err(InvalidText)
      else if !IsUuid(replicaId.value, ANY_VERSION) then Err(InvalidUuid)
      else if epoch.None? then Err(InvalidNumber)
      else if transaction.None? then Err(InvalidText)
      else if m.commands.NotAnArray? || |m.commands.items| != 1 then Err(BatchSize)
      else
        match ParseCommand(m.commands.items[0])
        case Err(error) => Err(error)
        case Ok(command) => Ok(Envelope(Binding(replicaId.value, epoch.value), transaction.value, [command]))
  }

  /** The body the upload connector sends: an absent payload is left out of the object. */
  function CommandObject(command: Command): Raw<CommandMembers> {
    Object(CommandMembers(
      Some(JStr(command.commandId)), Some(JStr(KindName(command.kind))), Some(JStr(command.resourceId)),
      Some(JStr(command.incarnationId)), Some(JNum(command.expectedVersion)),
      if command.payload.Some? then Some(JStr(command.payload.value)) else None), {})
  }

  function CommandObjects(commands: seq<Command>): seq<Raw<CommandMembers>> {
    seq(|commands|, i requires 0 <= i < |commands| => CommandObject(commands[i]))
  }

  function EnvelopeObject(envelope: Envelope): Raw<EnvelopeMembers> {
    Object(EnvelopeMembers(
      Some(JNum(SPIKE_PROTOCOL)), Some(JStr(envelope.binding.replicaId)), Some(JNum(envelope.binding.epoch)),
      Some(JStr(envelope.localTransactionId)), Commands(CommandObjects(envelope.commands))), {})
  }

  predicate CanonicalCommand(command: Command) {
    && IsUuid(command.commandId, VERSION_4)
    && IsUuid(command.resourceId, ANY_VERSION)
    && IsUuid(command.incarnationId, ANY_VERSION)
    && 1 <= command.expectedVersion <= MAX_SAFE_INTEGER
    && match command.kind
       case ResourceUpdate => command.payload.Some? && 1 <= Utf16Length(command.payload.value) <= 512
       case ResourceSoftDelete => command.payload.None?
  }

  predicate CanonicalEnvelope(envelope: Envelope) {
    && IsUuid(envelope.binding.replicaId, ANY_VERSION)
    && 1 <= envelope.binding.epoch <= MAX_SAFE_INTEGER
    && 1 <= Utf16Length(envelope.localTransactionId) <= 128
    && |envelope.commands| == 1
    && CanonicalCommand(envelope.commands[0])
  }

  lemma ParseKindName(kind: CommandKind)
    ensures ParseKind(Some(JStr(KindName(kind)))) == Some(kind)
  {
    assert |KindName(ResourceUpdate)| == 22 && |KindName(ResourceSoftDelete)| == 27;
  }

  lemma CanonicalText(s: string, versions: string)
    requires IsUuid(s, versions)
    ensures LowerText(Some(JStr(s)), 36) == Some(s)
  {
    CanonicalUuid(s, versions);
  }

  lemma CanonicalCommandParses(command: Command)
    requires CanonicalCommand(command)
    ensures ParseCommand(CommandObject(command)) == Ok(command)
  {
    hide IsUuid, LowerText;
    ParseKindName(command.kind);
    CanonicalText(command.commandId, VERSION_4);
    CanonicalText(command.resourceId, ANY_VERSION);
    CanonicalText(command.incarnationId, ANY_VERSION);
  }

  lemma ParsedCommandIsCanonical(raw: Raw<CommandMembers>)
    ensures ParseCommand(raw).Ok? ==> CanonicalCommand(ParseCommand(raw).value)
  {
    hide IsUuid, LowerText, Utf16Length, KindName;
  }

  lemma CanonicalEnvelopeParses(envelope: Envelope)
    requires CanonicalEnvelope(envelope)
    ensures ParseCommandEnvelope(EnvelopeObject(envelope)) == Ok(envelope)
  {
    hide IsUuid, LowerText, ParseCommand, CanonicalCommand, CommandObject, Utf16Length;
    assert envelope.commands == [envelope.commands[0]];
    assert CommandObjects(envelope.commands) == [CommandObject(envelope.commands[0])];
    CanonicalCommandParses(envelope.commands[0]);
    CanonicalText(envelope.binding.replicaId, ANY_VERSION);
  }

  lemma ParsedEnvelopeIsCanonical(raw: Raw<EnvelopeMembers>)
    ensures ParseCommandEnvelope(raw).Ok? ==> CanonicalEnvelope(ParseCommandEnvelope(raw).value)
  {
    hide IsUuid, LowerText, ParseCommand, CanonicalCommand, Utf16Length;
    if raw.Object? && raw.members.commands.Commands? && |raw.members.commands.items| == 1 {
      ParsedCommandIsCanonical(raw.members.commands.items[0]);
    }
  }

  /** The server executes exactly the envelope the client sent, and so derives the client's digest,
      precisely when that envelope is canonical: lower-case UUIDs, one command, bounded text. */
  lemma EnvelopeRoundTrip(envelope: Envelope)
    ensures ParseCommandEnvelope(EnvelopeObject(envelope)) == Ok(envelope) <==> CanonicalEnvelope(envelope)
  {
    hide ParseCommandEnvelope, CanonicalEnvelope;
    ParsedEnvelopeIsCanonical(EnvelopeObject(envelope));
    if CanonicalEnvelope(envelope) {
      CanonicalEnvelopeParses(envelope);
    }
  }

  /** The text in the request is this identifier, in whatever case. */
  ghost predicate SaysUuid(value: Option<Json>, id: string, versions: string) {
    && value.Some? && value.value.JStr? && Lower(value.value.s) == id && IsUuid(id, versions)
  }

  ghost predicate SaysText(value: Option<Json>, text: string, maximum: nat) {
    value == Some(JStr(text)) && 1 <= Utf16Length(text) <= maximum
  }

  ghost predicate SaysNumber(value: Option<Json>, n: int) {
    value == Some(JNum(n)) && 1 <= n <= 9_007_199_254_740_991
  }

  /** What a command of the request has to say to be read as this one. */
  ghost predicate SaysCommand(raw: Raw<CommandMembers>, c: Command) {
    && raw.Object? && raw.extra == {}
    && SaysUuid(raw.members.commandId, c.commandId, VERSION_4)
    && SaysUuid(raw.members.resourceId, c.resourceId, ANY_VERSION)
    && SaysUuid(raw.members.incarnationId, c.incarnationId, ANY_VERSION)
    && SaysNumber(raw.members.expectedVersion, c.expectedVersion)
    && (match c.kind
        case ResourceUpdate =>
          && raw.members.kind == Some(JStr("ps8.resource.update.v1"))
          && c.payload.Some? && SaysText(raw.members.payload, c.payload.value, 512)
        case ResourceSoftDelete =>
          && raw.members.kind == Some(JStr("ps8.resource.soft_delete.v1"))
          && c.payload.None? && raw.members.payload.None?)
  }

  lemma UuidSays(value: Option<Json>, id: string, versions: string)
    ensures SaysUuid(value, id, versions) <==> LowerText(value, 36) == Some(id) && IsUuid(id, versions)
  {
    if value.Some? && value.value.JStr? && Lower(value.value.s) == id && IsUuid(id, versions) {
      var s := value.value.s;
      forall i | 0 <= i < |s| ensures s[i] as int < 0x1_0000 {
        assert id[i] == LowerChar(s[i]);
      }
      AsciiLength(s);
    }
  }

  lemma KindSays(value: Option<Json>, kind: CommandKind)
    ensures ParseKind(value) == Some(kind) <==>
        value == Some(JStr(if kind.ResourceUpdate? then "ps8.resource.update.v1" else "ps8.resource.soft_delete.v1"))
  {
    assert |KindName(ResourceUpdate)| == 22 && |KindName(ResourceSoftDelete)| == 27;
  }

  lemma CommandSays(raw: Raw<CommandMembers>, c: Command)
    ensures ParseCommand(raw) == Ok(c) <==> SaysCommand(raw, c)
  {
    hide IsUuid, LowerText, Utf16Length, SaysUuid, ParseKind;
    if raw.Object? {
      UuidSays(raw.members.commandId, c.commandId, VERSION_4);
      UuidSays(raw.members.resourceId, c.resourceId, ANY_VERSION);
      UuidSays(raw.members.incarnationId, c.incarnationId, ANY_VERSION);
      KindSays(raw.members.kind, c.kind);
    }
  }

  /** A request is read as this envelope exactly when it says so member by member: nothing unknown in it, protocol
      one, one command, every identifier a UUID in whatever case, every number a safe positive one, every text of
      bounded length. */
  lemma EnvelopeSays(raw: Raw<EnvelopeMembers>, e: Envelope)
    ensures ParseCommandEnvelope(raw) == Ok(e) <==>
              && raw.Object? && raw.extra == {} && raw.members.protocol == Some(JNum(1))
              && SaysUuid(raw.members.replicaId, e.binding.replicaId, ANY_VERSION)
              && SaysNumber(raw.members.epoch, e.binding.epoch)
              && SaysText(raw.members.localTransactionId, e.localTransactionId, 128)
              && raw.members.commands.Commands? && |raw.members.commands.items| == |e.commands| == 1
              && SaysCommand(raw.members.commands.items[0], e.commands[0])
  {
    hide IsUuid, LowerText, Utf16Length, SaysUuid, ParseCommand, SaysCommand;
    if raw.Object? {
      UuidSays(raw.members.replicaId, e.binding.replicaId, ANY_VERSION);
      if raw.members.commands.Commands? && |raw.members.commands.items| == |e.commands| == 1 {
        CommandSays(raw.members.commands.items[0], e.commands[0]);
      }
      if raw.members.commands.Commands? && |raw.members.commands.items| == 1 &&
          ParseCommand(raw.members.commands.items[0]).Ok? {
        CommandSays(raw.members.commands.items[0], ParseCommand(raw.members.commands.items[0]).value);
      }
    }
    assert |e.commands| == 1 ==> e.commands == [e.commands[0]];
  }

  // ---- the response ---

  function PropertyString(value: Option<Json>): string {
    match value
    case None => "undefined"
    case Some(member) => JsString(member)
  }

  predicate KnownState(value: Option<Json>) {
    value == Some(JStr("applied")) || value == Some(JStr("conflict")) || value == Some(JStr("denied"))
  }

  predicate KnownCode(value: Option<Json>) {
    PropertyString(value) in {"applied", "already_applied", "optimistic_conflict", "stale_incarnation",
        "command_denied"}
  }

  /** The state the parser derives. It compares the code itself here, not the code's string form. */
  function ExpectedState(code: Option<Json>): string {
    if code == Some(JStr("optimistic_conflict")) || code == Some(JStr("stale_incarnation")) then "conflict"
    else if code == Some(JStr("command_denied")) then "denied"
    else "applied"
  }

  predicate Consistent(m: ResultMembers) {
    && KnownState(m.state) && KnownCode(m.code)
    && m.state == Some(JStr(ExpectedState(m.code)))
    && PositiveInteger(m.previousVersion).Some?
    && PositiveInteger(m.currentVersion).Some?
    && PositiveInteger(m.attemptNumber).Some?
  }

  /** The command a result claims to answer; the parser looks up the string form of the identifier. */
  function Names(result: Raw<ResultMembers>): string {
    match result
    case NotAnObjectValue => ""
    case Object(m, _) => PropertyString(m.commandId)
  }

  /** One result answers one command: identity, digest, and a consistent outcome. */
  predicate Answers(result: Raw<ResultMembers>, command: Command, binding: Binding, hash: Digest -> string) {
    && result.Object? && result.extra == {}
    && Names(result) == command.commandId
    && result.members.resourceId == Some(JStr(command.resourceId))
    && result.members.digest == Some(JStr(hash(CommandDigest(command, binding))))
    && Consistent(result.members)
  }

  ghost predicate DistinctIds(commands: seq<Command>) {
    forall i, j :: 0 <= i < j < |commands| ==> commands[i].commandId != commands[j].commandId
  }

  ghost predicate AnsweredBy(result: Raw<ResultMembers>, commands: seq<Command>, binding: Binding,
      hash: Digest -> string) {
    exists c :: 0 <= c < |commands| && Answers(result, commands[c], binding, hash)
  }

  /** Every result answers some command, and no two results answer the same one. */
  ghost predicate OneToOne(results: seq<Raw<ResultMembers>>, commands: seq<Command>, binding: Binding,
      hash: Digest -> string) {
    && |results| == |commands|
    && (forall i :: 0 <= i < |results| ==> AnsweredBy(results[i], commands, binding, hash))
    && DistinctNames(results, |results|)
  }

  ghost predicate AcceptableResponse(value: Raw<ResponseMembers>, commands: seq<Command>, binding: Binding,
      hash: Digest -> string) {
    && value.Object? && value.extra == {}
    && value.members.protocol == Some(JNum(SPIKE_PROTOCOL))
    && value.members.results.ResultArray?
    && OneToOne(value.members.results.items, commands, binding, hash)
  }

  /** `new Map(commands.map(...))`: what is still expected, by command id. */
  ghost predicate Indexes(expected: map<string, Command>, commands: seq<Command>) {
    && (forall id :: id in expected ==>
          expected[id].commandId == id && expected[id] in commands)
  }

  method CommandsById(commands: seq<Command>) returns (expected: map<string, Command>)
    requires DistinctIds(commands)
    ensures Indexes(expected, commands)
    ensures expected.Keys == CommandIds(commands)
  {
    expected := map[];
    for i := 0 to |commands|
      invariant Indexes(expected, commands)
      invariant expected.Keys == CommandIds(commands[..i])
      invariant forall c :: i <= c < |commands| ==> commands[c].commandId !in expected
    {
      assert commands[..i + 1][..i] == commands[..i];
      expected := expected[commands[i].commandId := commands[i]];
    }
    assert commands[..|commands|] == commands;
  }

  function CheckResult(raw: Raw<ResultMembers>, command: Option<Command>, binding: Binding,
      hash: Digest -> string): (error: Option<ProtocolError>)
    requires command.Some? ==> command.value.commandId == Names(raw)
    ensures error.None? <==> command.Some? && Answers(raw, command.value, binding, hash)
    ensures error != Some(OmittedResults)
  {
    match ExactKeys(raw)
    case Some(error) => Some(error)
    case None =>
      var m := raw.members;
      if command.None? || m.resourceId != Some(JStr(command.value.resourceId)) ||
         m.digest != Some(JStr(hash(CommandDigest(command.value, binding)))) then Some(IdentityMismatch)
      else if !KnownState(m.state) then Some(UnknownState)
      else if !KnownCode(m.code) then Some(UnknownCode)
      else if m.state != Some(JStr(ExpectedState(m.code))) then Some(InconsistentState)
      else if PositiveInteger(m.previousVersion).None? || PositiveInteger(m.currentVersion).None? ||
              PositiveInteger(m.attemptNumber).None? then Some(InvalidNumber)
      else None
  }

  ghost function CommandIds(commands: seq<Command>): set<string> {
    if commands == [] then {} else CommandIds(commands[..|commands| - 1]) + {commands[|commands| - 1].commandId}
  }

  ghost function AnsweredIds(items: seq<Raw<ResultMembers>>, i: nat): set<string>
    requires i <= |items|
  {
    if i == 0 then {} else AnsweredIds(items, i - 1) + {Names(items[i - 1])}
  }

  lemma {:induction false} AnsweredMember(items: seq<Raw<ResultMembers>>, i: nat, k: nat)
    requires k < i <= |items|
    ensures Names(items[k]) in AnsweredIds(items, i)
  {
    if k < i - 1 {
      AnsweredMember(items, i - 1, k);
    }
  }

  lemma {:induction false} AnsweredWitness(items: seq<Raw<ResultMembers>>, i: nat, id: string) returns (k: nat)
    requires i <= |items| && id in AnsweredIds(items, i)
    ensures k < i && Names(items[k]) == id
  {
    if Names(items[i - 1]) == id {
      k := i - 1;
    } else {
      k := AnsweredWitness(items, i - 1, id);
    }
  }

  /** The results name as many commands as there are results, exactly when no two name the same one. */
  lemma {:induction false} DistinctNamesCount(items: seq<Raw<ResultMembers>>, i: nat)
    requires i <= |items|
    ensures |AnsweredIds(items, i)| <= i
    ensures DistinctNames(items, i) <==> |AnsweredIds(items, i)| == i
  {
    hide Names;
    if i > 0 {
      DistinctNamesCount(items, i - 1);
      var id := Names(items[i - 1]);
      if id in AnsweredIds(items, i - 1) {
        var k := AnsweredWitness(items, i - 1, id);
        assert AnsweredIds(items, i) == AnsweredIds(items, i - 1);
      } else {
        forall k | 0 <= k < i - 1 ensures Names(items[k]) != id {
          AnsweredMember(items, i - 1, k);
        }
        assert DistinctNames(items, i - 1) ==> DistinctNames(items, i);
      }
      assert DistinctNames(items, i) ==> DistinctNames(items, i - 1);
    }
  }

  lemma {:induction false} CommandIdMember(commands: seq<Command>, c: nat)
    requires c < |commands|
    ensures commands[c].commandId in CommandIds(commands)
  {
    if c < |commands| - 1 {
      CommandIdMember(commands[..|commands| - 1], c);
    }
  }

  ghost predicate DistinctNames(items: seq<Raw<ResultMembers>>, i: nat)
    requires i <= |items|
  {
    forall j, k :: 0 <= j < k < i ==> Names(items[j]) != Names(items[k])
  }

  ghost predicate AnsweredFirst(items: seq<Raw<ResultMembers>>, i: nat, commands: seq<Command>, binding: Binding,
      hash: Digest -> string)
    requires i <= |items|
  {
    forall k :: 0 <= k < i ==> AnsweredBy(items[k], commands, binding, hash)
  }

  /** Which commands are still expected once the first `i` results have been read. */
  ghost predicate Awaiting(expected: map<string, Command>, commands: seq<Command>, answered: set<string>, i: nat) {
    && Indexes(expected, commands)
    && expected.Keys == CommandIds(commands) - answered
    && |answered| == i
  }

  function Lookup(expected: map<string, Command>, id: string): Option<Command> {
    if id in expected then Some(expected[id]) else None
  }

  lemma LookupById(expected: map<string, Command>, commands: seq<Command>, id: string)
    requires Indexes(expected, commands)
    ensures Lookup(expected, id).Some? ==> Lookup(expected, id).value.commandId == id
  {
  }

  lemma AwaitingStep(expected: map<string, Command>, commands: seq<Command>, answered: set<string>, i: nat, id: string)
    requires Awaiting(expected, commands, answered, i) && id in expected
    ensures Awaiting(expected - {id}, commands, answered + {id}, i + 1)
  {
    IndexesRemove(expected, commands, id);
    hide Indexes, CommandIds;
    assert (expected - {id}).Keys == expected.Keys - {id};
    assert id !in answered;
  }

  lemma IndexesRemove(expected: map<string, Command>, commands: seq<Command>, id: string)
    requires Indexes(expected, commands)
    ensures Indexes(expected - {id}, commands)
  {
  }

  lemma KnownAnswer(expected: map<string, Command>, commands: seq<Command>, result: Raw<ResultMembers>,
      binding: Binding, hash: Digest -> string)
    requires Indexes(expected, commands) && Names(result) in expected
    requires Answers(result, expected[Names(result)], binding, hash)
    ensures AnsweredBy(result, commands, binding, hash)
  {
    hide Answers, Names;
    var c :| 0 <= c < |commands| && commands[c] == expected[Names(result)];
  }

  /** A result that fits no command still expected makes the whole response unacceptable. */
  lemma UnknownAnswer(expected: map<string, Command>, items: seq<Raw<ResultMembers>>, i: nat,
                      commands: seq<Command>, binding: Binding, hash: Digest -> string)
    requires DistinctIds(commands) && |items| == |commands| && i < |items|
    requires Awaiting(expected, commands, AnsweredIds(items, i), i)
    requires Names(items[i]) in expected ==> !Answers(items[i], expected[Names(items[i])], binding, hash)
    ensures !OneToOne(items, commands, binding, hash)
  {
    hide Names, Answers, Indexes, AnsweredBy;
    if OneToOne(items, commands, binding, hash) {
      assert AnsweredBy(items[i], commands, binding, hash);
      var c := AnsweringCommand(items[i], commands, binding, hash);
      CommandIdMember(commands, c);
      if Names(items[i]) in expected {
        IndexedCommand(expected, commands, c);
      } else {
        var k := AnsweredWitness(items, i, Names(items[i]));
      }
    }
  }

  lemma AnsweringCommand(result: Raw<ResultMembers>, commands: seq<Command>, binding: Binding,
      hash: Digest -> string) returns (c: nat)
    requires AnsweredBy(result, commands, binding, hash)
    ensures c < |commands| && Answers(result, commands[c], binding, hash) && Names(result) == commands[c].commandId
  {
    c :| 0 <= c < |commands| && Answers(result, commands[c], binding, hash);
  }

  lemma IndexedCommand(expected: map<string, Command>, commands: seq<Command>, c: nat)
    requires DistinctIds(commands) && Indexes(expected, commands)
    requires c < |commands| && commands[c].commandId in expected
    ensures expected[commands[c].commandId] == commands[c]
  {
  }

  /** Reads the results in order, crossing off the command each one answers. */
  method ReadResults(items: seq<Raw<ResultMembers>>, commands: seq<Command>, binding: Binding, hash: Digest -> string)
    returns (problem: Option<ProtocolError>)
    requires DistinctIds(commands) && |items| == |commands|
    ensures problem.None? <==> OneToOne(items, commands, binding, hash)
    ensures problem != Some(OmittedResults)
  {
    hide Names, Answers, AnsweredBy, DistinctNames, Indexes, CommandIds, DistinctIds;
    var expected := CommandsById(commands);
    for i := 0 to |items|
      invariant Awaiting(expected, commands, AnsweredIds(items, i), i)
      invariant AnsweredFirst(items, i, commands, binding, hash)
    {
      var id := Names(items[i]);
      LookupById(expected, commands, id);
      problem := CheckResult(items[i], Lookup(expected, id), binding, hash);
      if problem.Some? {
        UnknownAnswer(expected, items, i, commands, binding, hash);
        return;
      }
      KnownAnswer(expected, commands, items[i], binding, hash);
      AwaitingStep(expected, commands, AnsweredIds(items, i), i, id);
      expected := expected - {id};
    }
    DistinctNamesCount(items, |items|);
    AnsweredWithin(items, |items|, commands, binding, hash);
    CommandIdCount(commands);
    SameSizeSubset(AnsweredIds(items, |items|), CommandIds(commands));
    assert expected.Keys == {};
    problem := if expected == map[] then None else Some(OmittedResults);
  }

  /** Accepts exactly the responses whose results pair one-to-one with the commands of the request;
      the final check for omitted results never fires. */
  method ParseCommandResponse(value: Raw<ResponseMembers>, commands: seq<Command>, binding: Binding,
      hash: Digest -> string)
    returns (r: Result<seq<Raw<ResultMembers>>, ProtocolError>)
    requires DistinctIds(commands)
    ensures r.Ok? <==> AcceptableResponse(value, commands, binding, hash)
    ensures r.Ok? ==> r.value == value.members.results.items
    ensures r != Err(OmittedResults)
  {
    hide AnsweredFirst, DistinctNames;
    var problem := ExactKeys(value);
    if problem.Some? {
      return Err(problem.value);
    }
    if value.members.protocol != Some(JNum(SPIKE_PROTOCOL)) || value.members.results.NotAResultArray? ||
       |value.members.results.items| != |commands| {
      return Err(ResponseMismatch);
    }
    problem := ReadResults(value.members.results.items, commands, binding, hash);
    return if problem.Some? then Err(problem.value) else Ok(value.members.results.items);
  }

  /** A one-to-one response leaves no command unanswered. */
  lemma EveryCommandAnswered(results: seq<Raw<ResultMembers>>, commands: seq<Command>, binding: Binding,
      hash: Digest -> string, c: nat)
    requires DistinctIds(commands) && OneToOne(results, commands, binding, hash)
    requires c < |commands|
    ensures exists i :: 0 <= i < |results| && Answers(results[i], commands[c], binding, hash)
  {
    DistinctNamesCount(results, |results|);
    AnsweredWithin(results, |results|, commands, binding, hash);
    CommandIdCount(commands);
    SameSizeSubset(AnsweredIds(results, |results|), CommandIds(commands));
    CommandIdMember(commands, c);
    var i := AnsweredWitness(results, |results|, commands[c].commandId);
    hide AnsweredBy, Answers, Names;
    assert AnsweredBy(results[i], commands, binding, hash);
    var d := AnsweringCommand(results[i], commands, binding, hash);
  }

  lemma {:induction false} AnsweredWithin(results: seq<Raw<ResultMembers>>, i: nat, commands: seq<Command>,
      binding: Binding, hash: Digest -> string)
    requires i <= |results| && AnsweredFirst(results, i, commands, binding, hash)
    ensures AnsweredIds(results, i) <= CommandIds(commands)
  {
    hide Names, Answers, AnsweredBy;
    if i > 0 {
      AnsweredWithin(results, i - 1, commands, binding, hash);
      assert AnsweredBy(results[i - 1], commands, binding, hash);
      var c := AnsweringCommand(results[i - 1], commands, binding, hash);
      CommandIdMember(commands, c);
    }
  }

  lemma {:induction false} CommandIdCount(commands: seq<Command>)
    ensures |CommandIds(commands)| <= |commands|
  {
    if commands != [] {
      CommandIdCount(commands[..|commands| - 1]);
    }
  }

  lemma SameSizeSubset(a: set<string>, b: set<string>)
    requires a <= b && |b| <= |a|
    ensures a == b
  {
    assert b == a + (b - a);
    assert |b| == |a| + |b - a|;
  }
}
