/** The texts behind the byte accounting: what JSON.stringify writes for a command, a result and a quarantine entry, and
    that the measures of the client are exactly the UTF-8 lengths of these texts. */
module JsonText {
  import opened Basics
  import opened Json
  import opened CommandProtocol
  import opened Reservations

  // ---- UTF-8 ---

  function CharUtf8(c: char): nat {
    if c as int < 0x80 then 1 else if c as int < 0x800 then 2 else if c as int < 0x1_0000 then 3 else 4
  }

  function Utf8Length(s: string): nat {
    if s == "" then 0 else CharUtf8(s[0]) + Utf8Length(s[1..])
  }

  lemma {:induction false} Utf8Concat(a: string, b: string)
    ensures Utf8Length(a + b) == Utf8Length(a) + Utf8Length(b)
  {
    if a == "" {
      assert a + b == b;
    } else {
      assert (a + b)[1..] == a[1..] + b;
      Utf8Concat(a[1..], b);
    }
  }

  predicate Ascii(s: string) {
    forall i | 0 <= i < |s| :: s[i] as int < 0x80
  }

  lemma {:induction false} AsciiBytes(s: string)
    requires Ascii(s)
    ensures Utf8Length(s) == |s|
  {
    if s != "" {
      AsciiBytes(s[1..]);
    }
  }

  // ---- strings and numbers ---

  function HexDigit(d: nat): char
    requires d < 16
  {
    "0123456789abcdef"[d]
  }

  /** QuoteJSONString on one character. */
  function Escape(c: char): string {
    if c == '"' then "\\\""
    else if c == '\\' then "\\\\"
    else if c as int == 8 then "\\b"
    else if c as int == 9 then "\\t"
    else if c as int == 10 then "\\n"
    else if c as int == 12 then "\\f"
    else if c as int == 13 then "\\r"
    else if c as int < 0x20 then "\\u00" + [HexDigit(c as int / 16), HexDigit(c as int % 16)]
    else [c]
  }

  function Escaped(s: string): string {
    if s == "" then "" else Escape(s[0]) + Escaped(s[1..])
  }

  function Quoted(s: string): string {
    "\"" + Escaped(s) + "\""
  }

  lemma EscapeBytes(c: char)
    ensures Utf8Length(Escape(c)) == CharBytes(c)
  {
    if c as int < 0x20 || c == '"' || c == '\\' {
      EscapeShort(c);
    } else {
      assert [c][1..] == "";
    }
  }

  lemma EscapeShort(c: char)
    requires c as int < 0x20 || c == '"' || c == '\\'
    ensures Ascii(Escape(c)) && |Escape(c)| == CharBytes(c) && Utf8Length(Escape(c)) == |Escape(c)|
  {
    assert Ascii(Escape(c));
    AsciiBytes(Escape(c));
  }

  lemma {:induction false} EscapedBytes(s: string)
    ensures Utf8Length(Escaped(s)) == ContentBytes(s)
  {
    hide Escape, CharBytes;
    if s != "" {
      EscapeBytes(s[0]);
      EscapedBytes(s[1..]);
      Utf8Concat(Escape(s[0]), Escaped(s[1..]));
    }
  }

  /** A quoted string takes the bytes it is charged. */
  lemma QuotedBytes(s: string)
    ensures Utf8Length(Quoted(s)) == StringBytes(s)
  {
    EscapedBytes(s);
    AsciiBytes("\"");
    Utf8Concat("\"", Escaped(s));
    Utf8Concat("\"" + Escaped(s), "\"");
  }

  function NullableText(s: Option<string>): string {
    match s
    case None => "null"
    case Some(text) => Quoted(text)
  }

  lemma NullableBytes(s: Option<string>)
    ensures Utf8Length(NullableText(s)) == NullableStringBytes(s)
  {
    AsciiBytes("null");
    if s.Some? {
      QuotedBytes(s.value);
    }
  }

  lemma {:induction false} DecimalAscii(n: int)
    ensures Ascii(Decimal(n))
    decreases if n < 0 then 1 - n else n
  {
    if n < 0 {
      DecimalAscii(-n);
    } else if n >= 10 {
      DecimalAscii(n / 10);
    }
  }

  lemma DecimalBytes(n: int)
    ensures Utf8Length(Decimal(n)) == NumberBytes(n)
  {
    DecimalAscii(n);
    AsciiBytes(Decimal(n));
  }

  function VersionText(version: Option<int>): string {
    match version
    case None => "null"
    case Some(n) => Decimal(n)
  }

  // ---- objects ---

  function Pair(key: string, value: string): string {
    "\"" + key + "\":" + value
  }

  /** One more member of an object. */
  function And(members: string, key: string, value: string): string {
    members + "," + Pair(key, value)
  }

  function Braced(members: string): string {
    "{" + members + "}"
  }

  lemma PairBytes(key: string, value: string)
    requires Ascii(key)
    ensures Utf8Length(Pair(key, value)) == Member(key, Utf8Length(value))
  {
    AsciiBytes("\"");
    AsciiBytes(key);
    AsciiBytes("\":");
    hide Utf8Length, Ascii;
    Utf8Concat("\"", key);
    Utf8Concat("\"" + key, "\":");
    Utf8Concat("\"" + key + "\":", value);
  }

  lemma AndBytes(members: string, key: string, value: string)
    requires Ascii(key)
    ensures Utf8Length(And(members, key, value)) == Utf8Length(members) + 1 + Member(key, Utf8Length(value))
  {
    AsciiBytes(",");
    hide Utf8Length, Ascii, Pair;
    PairBytes(key, value);
    Utf8Concat(members, ",");
    Utf8Concat(members + ",", Pair(key, value));
  }

  lemma BracedBytes(members: string)
    ensures Utf8Length(Braced(members)) == 2 + Utf8Length(members)
  {
    AsciiBytes("{");
    AsciiBytes("}");
    hide Utf8Length;
    Utf8Concat("{", members);
    Utf8Concat("{" + members, "}");
  }

  // ---- quarantine entries ---

  function BoolText(b: bool): string {
    if b then "true" else "false"
  }

  lemma BoolBytes(b: bool)
    ensures Utf8Length(BoolText(b)) == if b then 4 else 5
  {
    AsciiBytes(BoolText(b));
  }

  lemma VersionTextBytes(version: Option<int>)
    ensures Utf8Length(VersionText(version)) == VersionBytes(version)
  {
    AsciiBytes("null");
    if version.Some? {
      DecimalBytes(version.value);
    }
  }

  /** The members every entry has apart from its payload. */
  function CommonText(e: Entry): string {
    And(And(And(And(Pair("id", Quoted(e.id)), "resource_id", Quoted(e.resourceId)), "resource_incarnation_id",
      Quoted(e.incarnationId)), "command_type", Quoted(e.commandType)), "expected_record_version",
      VersionText(e.expectedVersion))
  }

  lemma CommonTextBytes(e: Entry)
    ensures Utf8Length(CommonText(e)) == CommonBytes(e) + 4
  {
    hide Utf8Length, Quoted, Pair, And, Member, StringBytes, VersionText, VersionBytes;
    QuotedBytes(e.id);
    QuotedBytes(e.resourceId);
    QuotedBytes(e.incarnationId);
    QuotedBytes(e.commandType);
    VersionTextBytes(e.expectedVersion);
    PairBytes("id", Quoted(e.id));
    var a := And(Pair("id", Quoted(e.id)), "resource_id", Quoted(e.resourceId));
    var b := And(a, "resource_incarnation_id", Quoted(e.incarnationId));
    var c := And(b, "command_type", Quoted(e.commandType));
    AndBytes(Pair("id", Quoted(e.id)), "resource_id", Quoted(e.resourceId));
    AndBytes(a, "resource_incarnation_id", Quoted(e.incarnationId));
    AndBytes(b, "command_type", Quoted(e.commandType));
    AndBytes(c, "expected_record_version", VersionText(e.expectedVersion));
  }

  /** An intent as the quarantine file holds it. */
  function IntentText(e: Entry, authorized: bool, reserved: nat): string {
    Braced(And(And(And(CommonText(e), "payload", NullableText(e.payload)), "initiallyAuthorized",
      BoolText(authorized)), "reserved_bytes", Decimal(reserved)))
  }

  /** A finalized entry: retained with its payload, or invalidated without. */
  function FinalizedText(e: Entry, retained: bool, reserved: nat): string {
    Braced(And(And(And(And(CommonText(e), "state", Quoted(if retained then "pending_review" else "invalidated")),
      "payload", if retained then NullableText(e.payload) else "null"), "exportable", if retained then "1" else "0"),
      "reserved_bytes", Decimal(reserved)))
  }

  /** The measure of an intent is the length of its text. */
  lemma IntentTextBytes(e: Entry, authorized: bool, reserved: nat)
    ensures Utf8Length(IntentText(e, authorized, reserved)) == PendingBytes(e, authorized, reserved)
  {
    hide Utf8Length, And, Braced, Member, CommonText, CommonBytes, Decimal, NumberBytes, BoolText, NullableText,
        NullableStringBytes;
    CommonTextBytes(e);
    NullableBytes(e.payload);
    BoolBytes(authorized);
    DecimalBytes(reserved);
    var a := And(CommonText(e), "payload", NullableText(e.payload));
    var b := And(a, "initiallyAuthorized", BoolText(authorized));
    AndBytes(CommonText(e), "payload", NullableText(e.payload));
    AndBytes(a, "initiallyAuthorized", BoolText(authorized));
    AndBytes(b, "reserved_bytes", Decimal(reserved));
    BracedBytes(And(b, "reserved_bytes", Decimal(reserved)));
  }

  lemma StateTextBytes(retained: bool)
    ensures Utf8Length(Quoted(if retained then "pending_review" else "invalidated")) ==
        2 + if retained then |"pending_review"| else |"invalidated"|
  {
    var text := if retained then "pending_review" else "invalidated";
    PlainText(text);
  }

  lemma MarkBytes()
    ensures Utf8Length("1") == 1 && Utf8Length("0") == 1 && Utf8Length("null") == 4
  {
    AsciiBytes("1");
    AsciiBytes("0");
    AsciiBytes("null");
  }

  /** And so is that of a finalized entry. */
  lemma FinalizedTextBytes(e: Entry, retained: bool, reserved: nat)
    ensures Utf8Length(FinalizedText(e, retained, reserved)) == FinalizedBytes(e, retained, reserved)
  {
    hide Utf8Length, And, Braced, Member, CommonText, CommonBytes, Decimal, NumberBytes, Quoted, NullableText,
        NullableStringBytes;
    CommonTextBytes(e);
    NullableBytes(e.payload);
    StateTextBytes(retained);
    MarkBytes();
    DecimalBytes(reserved);
    var state := Quoted(if retained then "pending_review" else "invalidated");
    var payload, mark := if retained then NullableText(e.payload) else "null", if retained then "1" else "0";
    var a := And(CommonText(e), "state", state);
    var b := And(a, "payload", payload);
    var c := And(b, "exportable", mark);
    AndBytes(CommonText(e), "state", state);
    AndBytes(a, "payload", payload);
    AndBytes(b, "exportable", mark);
    AndBytes(c, "reserved_bytes", Decimal(reserved));
    BracedBytes(And(c, "reserved_bytes", Decimal(reserved)));
  }

  /** A reservation made when an entry is quarantined, from the texts with the widest reservation, covers every text the
      entry is ever written as. */
  lemma EveryTextFits(e: Entry, reserved: nat, flag: bool)
    requires 512 <= reserved <= 65_536
    requires Utf8Length(IntentText(e, true, 65_536)) <= reserved
    requires Utf8Length(FinalizedText(e, true, 65_536)) <= reserved
    requires Utf8Length(FinalizedText(e, false, 65_536)) <= reserved
    ensures Utf8Length(IntentText(e, flag, reserved)) <= reserved
    ensures Utf8Length(FinalizedText(e, flag, reserved)) <= reserved
  {
    hide Utf8Length, IntentText, FinalizedText, PendingBytes, FinalizedBytes;
    IntentTextBytes(e, true, 65_536);
    FinalizedTextBytes(e, true, 65_536);
    FinalizedTextBytes(e, false, 65_536);
    IntentTextBytes(e, flag, reserved);
    FinalizedTextBytes(e, flag, reserved);
    ReservationCovers(e, reserved, flag);
  }

  // ---- commands and results ---

  /** A command as it is measured on admission. */
  function CommandText(c: Command): string {
    Braced(And(And(And(And(And(Pair("commandId", Quoted(c.commandId)), "type", Quoted(KindName(c.kind))), "resourceId",
      Quoted(c.resourceId)), "resourceIncarnationId", Quoted(c.incarnationId)), "expectedRecordVersion",
      Decimal(c.expectedVersion)), "payload", NullableText(c.payload)))
  }

  lemma KindTextBytes(kind: CommandKind)
    ensures Utf8Length(Quoted(KindName(kind))) == |KindName(kind)| + 2
  {
    PlainText(KindName(kind));
  }

  lemma CommandTextBytes(c: Command)
    ensures Utf8Length(CommandText(c)) == CommandBytes(c)
  {
    hide Utf8Length, Pair, And, Braced, Member, Decimal, NumberBytes, Quoted, NullableText, KindName, StringBytes,
        NullableStringBytes;
    QuotedBytes(c.commandId);
    KindTextBytes(c.kind);
    QuotedBytes(c.resourceId);
    QuotedBytes(c.incarnationId);
    DecimalBytes(c.expectedVersion);
    NullableBytes(c.payload);
    PairBytes("commandId", Quoted(c.commandId));
    var first := Pair("commandId", Quoted(c.commandId));
    var a := And(first, "type", Quoted(KindName(c.kind)));
    var b := And(a, "resourceId", Quoted(c.resourceId));
    var d := And(b, "resourceIncarnationId", Quoted(c.incarnationId));
    var e := And(d, "expectedRecordVersion", Decimal(c.expectedVersion));
    AndBytes(first, "type", Quoted(KindName(c.kind)));
    AndBytes(a, "resourceId", Quoted(c.resourceId));
    AndBytes(b, "resourceIncarnationId", Quoted(c.incarnationId));
    AndBytes(d, "expectedRecordVersion", Decimal(c.expectedVersion));
    AndBytes(e, "payload", NullableText(c.payload));
    BracedBytes(And(e, "payload", NullableText(c.payload)));
  }

  /** A terminal result as it is measured; `hex` is the digest in hexadecimal digits. */
  function ResultText(r: TerminalResult, hex: string): string {
    Braced(And(And(And(OutcomeText(r, hex), "previousVersion", Decimal(r.previousVersion)), "currentVersion",
      Decimal(r.currentVersion)), "attemptNumber", Decimal(r.attemptNumber)))
  }

  function OutcomeText(r: TerminalResult, hex: string): string {
    And(And(And(And(Pair("commandId", Quoted(r.commandId)), "resourceId", Quoted(r.resourceId)), "digest",
      Quoted(hex)), "state", Quoted(StateName(r.state))), "code", Quoted(CodeName(r.code)))
  }

  lemma PlainText(text: string)
    requires Plain(text)
    ensures Utf8Length(Quoted(text)) == |text| + 2
  {
    PlainBytes(text);
    QuotedBytes(text);
  }

  lemma StatePlain(state: TerminalState)
    ensures Plain(StateName(state))
  {
  }

  lemma CodePlain(code: TerminalCode)
    ensures Plain(CodeName(code))
  {
    match code {
      case ServedCode(served) => ServedPlain(served);
      case RetryExhausted =>
      case IdempotencyMismatch =>
    }
  }

  lemma ServedPlain(code: ResultCode)
    ensures Plain(CodeName(ServedCode(code)))
  {
    match code {
      case AppliedCode => assert Plain("applied");
      case AlreadyApplied => assert Plain("already_applied");
      case OptimisticConflict => assert Plain("optimistic_conflict");
      case StaleIncarnation => assert Plain("stale_incarnation");
      case CommandDenied => assert Plain("command_denied");
    }
  }

  ghost predicate HexDigest(hex: string) {
    |hex| == 64 && forall i :: 0 <= i < |hex| ==> LowerHex(hex[i])
  }

  lemma DigestPlain(hex: string)
    requires HexDigest(hex)
    ensures Plain(hex)
  {
  }

  lemma OutcomeTextBytes(r: TerminalResult, hex: string)
    requires HexDigest(hex)
    ensures Utf8Length(OutcomeText(r, hex)) == 4 + Member("commandId", StringBytes(r.commandId)) +
        Member("resourceId", StringBytes(r.resourceId)) + Member("digest", 66) +
        Member("state", |StateName(r.state)| + 2) + Member("code", |CodeName(r.code)| + 2)
  {
    hide Utf8Length, Pair, And, Member, Quoted, StringBytes, StateName, CodeName, Plain;
    QuotedBytes(r.commandId);
    QuotedBytes(r.resourceId);
    DigestPlain(hex);
    StatePlain(r.state);
    CodePlain(r.code);
    PlainText(hex);
    PlainText(StateName(r.state));
    PlainText(CodeName(r.code));
    PairBytes("commandId", Quoted(r.commandId));
    var first := Pair("commandId", Quoted(r.commandId));
    var a := And(first, "resourceId", Quoted(r.resourceId));
    var b := And(a, "digest", Quoted(hex));
    var c := And(b, "state", Quoted(StateName(r.state)));
    AndBytes(first, "resourceId", Quoted(r.resourceId));
    AndBytes(a, "digest", Quoted(hex));
    AndBytes(b, "state", Quoted(StateName(r.state)));
    AndBytes(c, "code", Quoted(CodeName(r.code)));
  }

  /** The measure of a terminal result is the length of its text. */
  lemma ResultTextBytes(r: TerminalResult, hex: string)
    requires HexDigest(hex)
    ensures Utf8Length(ResultText(r, hex)) == ResultBytes(r)
  {
    hide Utf8Length, And, Braced, Member, Decimal, NumberBytes, StringBytes, StateName, CodeName, OutcomeText, HexDigest;
    OutcomeTextBytes(r, hex);
    DecimalBytes(r.previousVersion);
    DecimalBytes(r.currentVersion);
    DecimalBytes(r.attemptNumber);
    var a := And(OutcomeText(r, hex), "previousVersion", Decimal(r.previousVersion));
    var b := And(a, "currentVersion", Decimal(r.currentVersion));
    AndBytes(OutcomeText(r, hex), "previousVersion", Decimal(r.previousVersion));
    AndBytes(a, "currentVersion", Decimal(r.currentVersion));
    AndBytes(b, "attemptNumber", Decimal(r.attemptNumber));
    BracedBytes(And(b, "attemptNumber", Decimal(r.attemptNumber)));
  }
}
