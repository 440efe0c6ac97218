/** Byte accounting of the client: what a command, a terminal result and a quarantine entry cost as JSON,
    and why a reservation made once covers every later form of the same entry. */
module Reservations {
  import opened Basics
  import opened Json
  import opened CommandProtocol

  const MAX_OUTSTANDING := 64

  const MAX_BYTES := 65_536

  const RESULT_FLOOR := 512

  const MAX_ATTEMPTS := 5

  // ---- quarantine entries ---

  datatype Entry = Entry(
    id: string, resourceId: string, incarnationId: string, commandType: string, payload: Option<string>,
    expectedVersion: Option<int>)

  function VersionBytes(version: Option<int>): nat {
    match version
    case None => 4
    case Some(n) => NumberBytes(n)
  }

  /** The members every stored form of an entry shares, apart from its payload. */
  function CommonBytes(e: Entry): nat {
    Member("id", StringBytes(e.id)) + Member("resource_id", StringBytes(e.resourceId)) +
    Member("resource_incarnation_id", StringBytes(e.incarnationId)) +
    Member("command_type", StringBytes(e.commandType)) +
    Member("expected_record_version", VersionBytes(e.expectedVersion))
  }

  /** {..., payload, initiallyAuthorized, reserved_bytes}: eight members. */
  function PendingBytes(e: Entry, authorized: bool, reserved: int): nat {
    2 + 7 + CommonBytes(e) + Member("payload", NullableStringBytes(e.payload)) +
    Member("initiallyAuthorized", if authorized then 4 else 5) + Member("reserved_bytes", NumberBytes(reserved))
  }

  /** {..., state, payload, exportable, reserved_bytes}: nine members; only a retained entry keeps its payload. */
  function FinalizedBytes(e: Entry, retained: bool, reserved: int): nat {
    2 + 8 + CommonBytes(e) + Member("payload", if retained then NullableStringBytes(e.payload) else 4) +
    Member("state", 2 + (if retained then |"pending_review"| else |"invalidated"|)) +
    Member("exportable", 1) + Member("reserved_bytes", NumberBytes(reserved))
  }

  /** quarantineEntryReservationBytes: measured with the widest reservation field there can be. */
  function EntryReservation(e: Entry): nat {
    Max(RESULT_FLOOR,
      Max(PendingBytes(e, true, MAX_BYTES), Max(FinalizedBytes(e, true, MAX_BYTES),
          FinalizedBytes(e, false, MAX_BYTES))))
  }

  lemma LiteralLengths()
    ensures |"state"| == 5 && |"pending_review"| == 14 && |"invalidated"| == 11 && |"exportable"| == 10
    ensures |"initiallyAuthorized"| == 19
  {
  }

  /** A reservation between the measured size and the limit covers every form the entry ever takes,
      including the one marked as not initially authorized, which was never measured. */
  lemma ReservationCovers(e: Entry, reserved: nat, flag: bool)
    requires EntryReservation(e) <= reserved <= MAX_BYTES
    ensures PendingBytes(e, flag, reserved) <= reserved
    ensures FinalizedBytes(e, flag, reserved) <= reserved
  {
    ReservationDigits(reserved);
    LiteralLengths();
  }

  // ---- commands and terminal results ---

  datatype TerminalState = Served(state: ResultState) | Failed

  datatype TerminalCode = ServedCode(code: ResultCode) | RetryExhausted | IdempotencyMismatch

  datatype TerminalResult = TerminalResult(
    commandId: string, resourceId: string, digest: Digest, state: TerminalState, code: TerminalCode,
    previousVersion: int, currentVersion: int, attemptNumber: int)

  function FromServer(r: CommandResult): TerminalResult {
    TerminalResult(r.commandId, r.resourceId, r.digest, Served(r.state), ServedCode(r.code),
      r.previousVersion, r.currentVersion, r.attemptNumber)
  }

  /** What the client records by itself, for a command the server never answered or refused as reused. */
  function LocalFailure(c: Command, binding: Binding, code: TerminalCode, attempt: int): TerminalResult {
    TerminalResult(c.commandId, c.resourceId, CommandDigest(c, binding), Failed, code, c.expectedVersion,
        c.expectedVersion, attempt)
  }

  function StateName(state: TerminalState): string {
    match state
    case Served(Applied) => "applied"
    case Served(Conflict) => "conflict"
    case Served(Denied) => "denied"
    case Failed => "failed"
  }

  function CodeName(code: TerminalCode): string {
    match code
    case ServedCode(AppliedCode) => "applied"
    case ServedCode(AlreadyApplied) => "already_applied"
    case ServedCode(OptimisticConflict) => "optimistic_conflict"
    case ServedCode(StaleIncarnation) => "stale_incarnation"
    case ServedCode(CommandDenied) => "command_denied"
    case RetryExhausted => "retry_exhausted"
    case IdempotencyMismatch => "idempotency_conflict"
  }

  /** terminalResultSerializedBytes; the digest prints as 64 hexadecimal digits. */
  function ResultBytes(r: TerminalResult): nat {
    2 + 7 + Member("commandId", StringBytes(r.commandId)) + Member("resourceId", StringBytes(r.resourceId)) +
    Member("digest", 66) + Member("state", |StateName(r.state)| + 2) + Member("code", |CodeName(r.code)| + 2) +
    Member("previousVersion", NumberBytes(r.previousVersion)) + Member("currentVersion",
        NumberBytes(r.currentVersion)) +
    Member("attemptNumber", NumberBytes(r.attemptNumber))
  }

  /** What an admitted command is measured at. */
  function CommandBytes(c: Command): nat {
    2 + 5 + Member("commandId", StringBytes(c.commandId)) + Member("type", |KindName(c.kind)| + 2) +
    Member("resourceId", StringBytes(c.resourceId)) + Member("resourceIncarnationId", StringBytes(c.incarnationId)) +
    Member("expectedRecordVersion", NumberBytes(c.expectedVersion)) + Member("payload", NullableStringBytes(c.payload))
  }

  function OutstandingReservation(actual: nat): nat {
    Max(actual, RESULT_FLOOR)
  }

  predicate SafePositive(n: int) {
    1 <= n <= MAX_SAFE_INTEGER
  }

  predicate CompactResult(r: TerminalResult) {
    && IsUuid(r.commandId, VERSION_4) && IsUuid(r.resourceId, ANY_VERSION)
    && SafePositive(r.previousVersion) && SafePositive(r.currentVersion) && SafePositive(r.attemptNumber)
  }

  lemma UuidBytes(s: string, versions: string)
    requires IsUuid(s, versions)
    ensures StringBytes(s) == 38
  {
    assert Plain(s);
    PlainBytes(s);
  }

  lemma NameLengths(state: TerminalState, code: TerminalCode)
    ensures |StateName(state)| <= 8 && |CodeName(code)| <= 20
  {
  }

  /** Every terminal result with UUID identifiers fits the floor every reservation starts from, so the
      result of an admitted command never outgrows the reservation it takes over. */
  lemma ResultFits(r: TerminalResult)
    requires CompactResult(r)
    ensures ResultBytes(r) <= RESULT_FLOOR
  {
    UuidBytes(r.commandId, VERSION_4);
    UuidBytes(r.resourceId, ANY_VERSION);
    SafeIntegerDigits(r.previousVersion);
    SafeIntegerDigits(r.currentVersion);
    SafeIntegerDigits(r.attemptNumber);
    NameLengths(r.state, r.code);
    hide StateName, CodeName, StringBytes, NumberBytes;
  }

  /** For arbitrary identifiers the exact condition is arithmetic: an exhausted command's result outgrows
      its reservation when the identifiers are long and the rest of the command is short. */
  lemma ExhaustedResultFits(c: Command, binding: Binding, failures: nat)
    requires 1 <= failures <= MAX_ATTEMPTS
    ensures var r := LocalFailure(c, binding, RetryExhausted, failures);
            ResultBytes(r) <= OutstandingReservation(CommandBytes(c)) <==>
              || 201 + StringBytes(c.commandId) + StringBytes(c.resourceId) +
                  2 * NumberBytes(c.expectedVersion) <= RESULT_FLOOR
              || 102 + NumberBytes(c.expectedVersion) <=
                   |KindName(c.kind)| + StringBytes(c.incarnationId) + NullableStringBytes(c.payload)
  {
    var r := LocalFailure(c, binding, RetryExhausted, failures);
    assert NumberBytes(r.attemptNumber) == 1;
    ResultLiterals();
    hide StringBytes, NumberBytes, NullableStringBytes, KindName;
  }

  lemma ResultLiterals()
    ensures |"commandId"| == 9 && |"resourceId"| == 10 && |"digest"| == 6 && |"state"| == 5 && |"code"| == 4
    ensures |"previousVersion"| == 15 && |"currentVersion"| == 14 && |"attemptNumber"| == 13
    ensures |"type"| == 4 && |"resourceIncarnationId"| == 21 && |"expectedRecordVersion"| == 21 && |"payload"| == 7
    ensures |"failed"| == 6 && |"retry_exhausted"| == 15
  {
  }
}
