/** The quarantine sidecar: its two file versions, the reader that normalizes them, and the merge that
    publishes finalized entries. */
module QuarantineStore {
  import opened Basics
  import opened Json
  import opened CommandProtocol
  import opened Reservations

  datatype QuarantineState = PendingReview | Invalidated

  /** exportable is 1 exactly for entries pending review, so it is not stored twice here. */
  datatype Finalized = Finalized(entry: Entry, state: QuarantineState, reserved: nat)

  datatype Intent = Intent(entry: Entry, authorized: bool, reserved: nat)

  datatype Store = Store(finalized: seq<Finalized>, pending: seq<Intent>)

  datatype QuarantineError =
    | InvalidSidecar | InvalidEntry | InvalidState | InvalidMember | Inconsistent | InvalidVersion | InvalidReservation
    | RepresentationTooLarge | RetainedDenied | LegacyWithoutVersion | DuplicateId

  /** The members of an entry as JSON.parse delivers them; unknown members are ignored. */
  datatype EntryMembers = EntryMembers(
    id: Option<Json>, resourceId: Option<Json>, incarnationId: Option<Json>, commandType: Option<Json>,
    payload: Option<Json>, expectedVersion: Option<Json>, state: Option<Json>, exportable: Option<Json>,
    authorized: Option<Json>, reserved: Option<Json>)

  datatype RawStore =
    | NotAStore
    | Version1(commands: seq<Raw<EntryMembers>>)
    | Version2(finalized: seq<Raw<EntryMembers>>, pending: seq<Raw<EntryMembers>>)

  // ---- reading ---

  /** `Number(value)` where that is an integer; text is not read as a number here. */
  function ToInteger(value: Option<Json>): Option<int> {
    match value
    case Some(JNum(n)) => Some(n)
    case Some(JNull) => Some(0)
    case Some(JBool(b)) => Some(if b then 1 else 0)
    case _ => None
  }

  function NonEmptyText(value: Option<Json>): Option<string> {
    match value
    case Some(JStr(s)) => if s != "" then Some(s) else None
    case _ => None
  }

  /** null, or a non-empty string. */
  function ParsePayload(value: Option<Json>): Result<Option<string>, QuarantineError> {
    match value
    case Some(JNull) => Ok(None)
    case _ => if NonEmptyText(value).Some? then Ok(NonEmptyText(value)) else Err(InvalidMember)
  }

  function ParseVersion(value: Option<Json>): Option<int> {
    match ToInteger(value)
    case Some(n) => if SafePositive(n) then Some(n) else None
    case None => None
  }

  function StateText(state: QuarantineState): string {
    match state
    case PendingReview => "pending_review"
    case Invalidated => "invalidated"
  }

  lemma StateTexts()
    ensures StateText(PendingReview) != StateText(Invalidated)
  {
    assert |StateText(PendingReview)| == 14 && |StateText(Invalidated)| == 11;
  }

  function ParseState(value: Option<Json>): Option<QuarantineState> {
    if value == Some(JStr(StateText(PendingReview))) then Some(PendingReview)
    else if value == Some(JStr(StateText(Invalidated))) then Some(Invalidated)
    else None
  }

  /** The stored reservation when it is large enough, the measured minimum otherwise. */
  function NormalizeReservation(raw: Option<Json>, entry: Entry): Result<nat, QuarantineError> {
    var minimum := EntryReservation(entry);
    var candidate := ToInteger(raw);
    var reserved := if candidate.Some? && SafeInteger(candidate.value) && candidate.value >= minimum then
        candidate.value else minimum;
    if reserved > MAX_BYTES then Err(InvalidReservation) else Ok(reserved)
  }

  function ParseEntry(m: EntryMembers, payload: Option<string>, version: Option<int>): Result<Entry, QuarantineError> {
    var id, resource, incarnation, kind :=
      NonEmptyText(m.id), NonEmptyText(m.resourceId), NonEmptyText(m.incarnationId), NonEmptyText(m.commandType);
    if id.None? || resource.None? || incarnation.None? || kind.None? then Err(InvalidMember)
    else Ok(Entry(id.value, resource.value, incarnation.value, kind.value, payload, version))
  }

  /** State, payload, exportable flag and version are checked before the remaining members. */
  function ParseFinalized(m: EntryMembers, legacy: bool): Result<(QuarantineState, Entry), QuarantineError> {
    var state, payload, exportable := ParseState(m.state), ParsePayload(m.payload), ToInteger(m.exportable);
    var unversioned := m.expectedVersion == Some(JNull) || (legacy && m.expectedVersion.None?);
    if state.None? then Err(InvalidState)
    else if payload.Err? then Err(payload.error)
    else if (state.value.PendingReview? && exportable != Some(1)) ||
            (state.value.Invalidated? && (exportable != Some(0) || payload.value.Some?)) then Err(Inconsistent)
    else if !unversioned && ParseVersion(m.expectedVersion).None? then Err(InvalidVersion)
    else
      match ParseEntry(m, payload.value, if unversioned then None else ParseVersion(m.expectedVersion))
      case Err(error) => Err(error)
      case Ok(entry) => Ok((state.value, entry))
  }

  function NormalizeFinalized(raw: Raw<EntryMembers>, legacy: bool): Result<Finalized, QuarantineError> {
    if raw.NotAnObjectValue? then Err(InvalidEntry)
    else
      match ParseFinalized(raw.members, legacy)
      case Err(error) => Err(error)
      case Ok((state, entry)) =>
        match NormalizeReservation(raw.members.reserved, entry)
        case Err(error) => Err(error)
        case Ok(reserved) =>
          if FinalizedBytes(entry, state.PendingReview?, reserved) > reserved then Err(RepresentationTooLarge)
          else Ok(Finalized(entry, state, reserved))
  }

  function ParsePending(m: EntryMembers): Result<(bool, Entry), QuarantineError> {
    var payload, version := ParsePayload(m.payload), ParseVersion(m.expectedVersion);
    if m.authorized != Some(JBool(true)) && m.authorized != Some(JBool(false)) then Err(InvalidState)
    else if payload.Err? then Err(payload.error)
    else if m.authorized == Some(JBool(false)) && payload.value.Some? then Err(RetainedDenied)
    else if version.None? then Err(InvalidVersion)
    else
      match ParseEntry(m, payload.value, version)
      case Err(error) => Err(error)
      case Ok(entry) => Ok((m.authorized.value.b, entry))
  }

  function NormalizePending(raw: Raw<EntryMembers>): Result<Intent, QuarantineError> {
    if raw.NotAnObjectValue? then Err(InvalidEntry)
    else
      match ParsePending(raw.members)
      case Err(error) => Err(error)
      case Ok((authorized, entry)) =>
        match NormalizeReservation(raw.members.reserved, entry)
        case Err(error) => Err(error)
        case Ok(reserved) =>
          if PendingBytes(entry, authorized, reserved) > reserved then Err(RepresentationTooLarge)
          else Ok(Intent(entry, authorized, reserved))
  }

  function ReadFinalized(raws: seq<Raw<EntryMembers>>): Result<seq<Finalized>, QuarantineError> {
    if raws == [] then Ok([])
    else
      match (ReadFinalized(raws[..|raws| - 1]), NormalizeFinalized(raws[|raws| - 1], false))
      case (Err(error), _) => Err(error)
      case (_, Err(error)) => Err(error)
      case (Ok(rest), Ok(last)) => Ok(rest + [last])
  }

  function ReadPending(raws: seq<Raw<EntryMembers>>): Result<seq<Intent>, QuarantineError> {
    if raws == [] then Ok([])
    else
      match (ReadPending(raws[..|raws| - 1]), NormalizePending(raws[|raws| - 1]))
      case (Err(error), _) => Err(error)
      case (_, Err(error)) => Err(error)
      case (Ok(rest), Ok(last)) => Ok(rest + [last])
  }

  predicate LegacyFinalized(raw: Raw<EntryMembers>) {
    raw.Object? && ParseState(raw.members.state).Some?
  }

  /** A version-1 file mixes finished entries with the intents of an unfinished reset. */
  function ReadLegacy(raws: seq<Raw<EntryMembers>>): Result<Store, QuarantineError> {
    if raws == [] then Ok(Store([], []))
    else
      var last := raws[|raws| - 1];
      match ReadLegacy(raws[..|raws| - 1])
      case Err(error) => Err(error)
      case Ok(rest) =>
        if LegacyFinalized(last) then (
          match NormalizeFinalized(last, true)
          case Err(error) => Err(error)
          case Ok(item) => Ok(rest.(finalized := rest.finalized + [item])))
        else if last.NotAnObjectValue? || last.members.expectedVersion.None? then Err(LegacyWithoutVersion)
        else
          match NormalizePending(last)
          case Err(error) => Err(error)
          case Ok(item) => Ok(rest.(pending := rest.pending + [item]))
  }

  function StoreIds(store: Store): seq<string> {
    seq(|store.finalized|, i requires 0 <= i < |store.finalized| => store.finalized[i].entry.id) +
    seq(|store.pending|, i requires 0 <= i < |store.pending| => store.pending[i].entry.id)
  }

  predicate UniqueIds(ids: seq<string>) {
    forall i, j | 0 <= i < j < |ids| :: ids[i] != ids[j]
  }

  function CheckUnique(store: Store, migrated: bool): Result<(Store, bool), QuarantineError> {
    if UniqueIds(StoreIds(store)) then Ok((store, migrated)) else Err(DuplicateId)
  }

  /** readQuarantineStore on an existing file: the store, and whether it came from a version-1 file. */
  function ReadStore(raw: RawStore): Result<(Store, bool), QuarantineError> {
    match raw
    case NotAStore => Err(InvalidSidecar)
    case Version2(finalized, pending) => (
      match (ReadFinalized(finalized), ReadPending(pending))
      case (Err(error), _) => Err(error)
      case (_, Err(error)) => Err(error)
      case (Ok(f), Ok(p)) => CheckUnique(Store(f, p), false))
    case Version1(commands) =>
      match ReadLegacy(commands)
      case Err(error) => Err(error)
      case Ok(store) => CheckUnique(store, true)
  }

  // ---- writing ---

  function NullableText(value: Option<string>): Option<Json> {
    match value
    case None => Some(JNull)
    case Some(s) => Some(JStr(s))
  }

  function NullableNumber(value: Option<int>): Option<Json> {
    match value
    case None => Some(JNull)
    case Some(n) => Some(JNum(n))
  }

  function WriteFinalized(item: Finalized): Raw<EntryMembers> {
    var e := item.entry;
    Object(EntryMembers(Some(JStr(e.id)), Some(JStr(e.resourceId)), Some(JStr(e.incarnationId)),
        Some(JStr(e.commandType)),
      NullableText(e.payload), NullableNumber(e.expectedVersion), Some(JStr(StateText(item.state))),
      Some(JNum(if item.state.PendingReview? then 1 else 0)), None, Some(JNum(item.reserved))), {})
  }

  function WriteIntent(item: Intent): Raw<EntryMembers> {
    var e := item.entry;
    Object(EntryMembers(Some(JStr(e.id)), Some(JStr(e.resourceId)), Some(JStr(e.incarnationId)),
        Some(JStr(e.commandType)),
      NullableText(e.payload), NullableNumber(e.expectedVersion), None, None, Some(JBool(item.authorized)),
      Some(JNum(item.reserved))), {})
  }

  function WriteAllFinalized(items: seq<Finalized>): seq<Raw<EntryMembers>> {
    if items == [] then [] else WriteAllFinalized(items[..|items| - 1]) + [WriteFinalized(items[|items| - 1])]
  }

  function WriteAllPending(items: seq<Intent>): seq<Raw<EntryMembers>> {
    if items == [] then [] else WriteAllPending(items[..|items| - 1]) + [WriteIntent(items[|items| - 1])]
  }

  function WriteStore(store: Store): RawStore {
    Version2(WriteAllFinalized(store.finalized), WriteAllPending(store.pending))
  }

  // ---- what survives a write and a read ---

  predicate ReadableEntry(e: Entry) {
    && e.id != "" && e.resourceId != "" && e.incarnationId != "" && e.commandType != ""
    && e.payload != Some("")
    && (e.expectedVersion.Some? ==> SafePositive(e.expectedVersion.value))
  }

  predicate ReadableFinalized(item: Finalized) {
    && ReadableEntry(item.entry)
    && (item.state.Invalidated? ==> item.entry.payload.None?)
    && EntryReservation(item.entry) <= item.reserved <= MAX_BYTES
  }

  predicate ReadableIntent(item: Intent) {
    && ReadableEntry(item.entry) && item.entry.expectedVersion.Some?
    && (!item.authorized ==> item.entry.payload.None?)
    && EntryReservation(item.entry) <= item.reserved <= MAX_BYTES
  }

  ghost predicate ReadableStore(store: Store) {
    && AllFinalized(store.finalized)
    && AllPending(store.pending)
    && UniqueIds(StoreIds(store))
  }

  predicate Sized(entry: Entry, reserved: int) {
    EntryReservation(entry) <= reserved <= MAX_BYTES
  }

  lemma ParsesFinalized(item: Finalized)
    ensures var m := WriteFinalized(item).members;
            ParseFinalized(m, false) == Ok((item.state, item.entry)) <==>
              ReadableEntry(item.entry) && (item.state.Invalidated? ==> item.entry.payload.None?)
  {
    StateTexts();
    hide StateText;
  }

  lemma FinalizedRoundTrip(item: Finalized)
    ensures NormalizeFinalized(WriteFinalized(item), false) == Ok(item) <==> ReadableFinalized(item)
  {
    ParsesFinalized(item);
    hide ParseFinalized, FinalizedBytes, EntryReservation, StateText, ReadableEntry;
    if EntryReservation(item.entry) <= item.reserved <= MAX_BYTES {
      ReservationCovers(item.entry, item.reserved, item.state.PendingReview?);
    }
  }

  lemma IntentRoundTrip(item: Intent)
    ensures NormalizePending(WriteIntent(item)) == Ok(item) <==> ReadableIntent(item)
  {
    hide PendingBytes, EntryReservation;
    if EntryReservation(item.entry) <= item.reserved <= MAX_BYTES {
      ReservationCovers(item.entry, item.reserved, item.authorized);
    }
  }

  lemma NormalizedReservation(raw: Option<Json>, entry: Entry)
    ensures var r := NormalizeReservation(raw, entry);
            r.Ok? ==> Sized(entry, r.value) && forall flag ::
              PendingBytes(entry, flag, r.value) <= r.value && FinalizedBytes(entry, flag, r.value) <= r.value
  {
    var r := NormalizeReservation(raw, entry);
    hide PendingBytes, FinalizedBytes, EntryReservation;
    if r.Ok? {
      ReservationCovers(entry, r.value, true);
      ReservationCovers(entry, r.value, false);
    }
  }

  lemma ParsedFinalized(m: EntryMembers, legacy: bool)
    ensures match ParseFinalized(m, legacy)
            case Ok((state, entry)) => ReadableEntry(entry) && (state.Invalidated? ==> entry.payload.None?)
            case Err(error) => error != RepresentationTooLarge
  {
    hide StateText;
  }

  lemma ParsedPending(m: EntryMembers)
    ensures match ParsePending(m)
            case Ok((authorized, entry)) =>
              ReadableEntry(entry) && entry.expectedVersion.Some? && (!authorized ==> entry.payload.None?)
            case Err(error) => error != RepresentationTooLarge
  {
  }

  /** Whatever the reader lets through can be written and read again; sizes never reject it. */
  lemma NormalizedFinalized(raw: Raw<EntryMembers>, legacy: bool)
    ensures NormalizeFinalized(raw, legacy).Ok? ==> ReadableFinalized(NormalizeFinalized(raw, legacy).value)
    ensures NormalizeFinalized(raw, legacy) != Err(RepresentationTooLarge)
  {
    hide FinalizedBytes, EntryReservation, ParseFinalized, PendingBytes, ReadableEntry;
    if raw.Object? {
      ParsedFinalized(raw.members, legacy);
      if ParseFinalized(raw.members, legacy).Ok? {
        NormalizedReservation(raw.members.reserved, ParseFinalized(raw.members, legacy).value.1);
      }
    }
  }

  lemma NormalizedIntent(raw: Raw<EntryMembers>)
    ensures NormalizePending(raw).Ok? ==> ReadableIntent(NormalizePending(raw).value)
    ensures NormalizePending(raw) != Err(RepresentationTooLarge)
  {
    hide FinalizedBytes, EntryReservation, ParsePending, PendingBytes, ReadableEntry;
    if raw.Object? {
      ParsedPending(raw.members);
      if ParsePending(raw.members).Ok? {
        NormalizedReservation(raw.members.reserved, ParsePending(raw.members).value.1);
      }
    }
  }

  lemma AppendInjective<T>(a: seq<T>, x: T, b: seq<T>, y: T)
    ensures a + [x] == b + [y] <==> a == b && x == y
  {
    if a + [x] == b + [y] {
      assert (a + [x])[..|a|] == a && (b + [y])[..|b|] == b;
      assert (a + [x])[|a|] == x && (b + [y])[|b|] == y;
    }
  }

  ghost predicate AllFinalized(items: seq<Finalized>) {
    forall i :: 0 <= i < |items| ==> ReadableFinalized(items[i])
  }

  ghost predicate AllPending(items: seq<Intent>) {
    forall i :: 0 <= i < |items| ==> ReadableIntent(items[i])
  }

  lemma {:induction false} ReadFinalizedWritten(items: seq<Finalized>)
    ensures ReadFinalized(WriteAllFinalized(items)) == Ok(items) <==> AllFinalized(items)
  {
    hide NormalizeFinalized, WriteFinalized, ReadableFinalized;
    if items != [] {
      var rest, last := items[..|items| - 1], items[|items| - 1];
      ReadFinalizedWritten(rest);
      FinalizedRoundTrip(last);
      assert items == rest + [last];
      var raws := WriteAllFinalized(items);
      assert raws[..|raws| - 1] == WriteAllFinalized(rest);
      if ReadFinalized(raws).Ok? {
        AppendInjective(ReadFinalized(WriteAllFinalized(rest)).value, NormalizeFinalized(raws[|raws| - 1], false).value,
            rest, last);
      }
    }
  }

  lemma {:induction false} ReadPendingWritten(items: seq<Intent>)
    ensures ReadPending(WriteAllPending(items)) == Ok(items) <==> AllPending(items)
  {
    hide NormalizePending, WriteIntent, ReadableIntent;
    if items != [] {
      var rest, last := items[..|items| - 1], items[|items| - 1];
      ReadPendingWritten(rest);
      IntentRoundTrip(last);
      assert items == rest + [last];
      var raws := WriteAllPending(items);
      assert raws[..|raws| - 1] == WriteAllPending(rest);
      if ReadPending(raws).Ok? {
        AppendInjective(ReadPending(WriteAllPending(rest)).value, NormalizePending(raws[|raws| - 1]).value, rest, last);
      }
    }
  }

  /** Writing a store and reading it back is the identity exactly on the readable stores; an update queued
      with an empty payload is the way a reset can write one that is not. */
  lemma StoreRoundTrip(store: Store)
    ensures ReadStore(WriteStore(store)) == Ok((store, false)) <==> ReadableStore(store)
  {
    hide UniqueIds, StoreIds, AllFinalized, AllPending, ReadFinalized, ReadPending, WriteAllFinalized, WriteAllPending;
    ReadFinalizedWritten(store.finalized);
    ReadPendingWritten(store.pending);
  }

  lemma {:induction false} ReadFinalizedReadable(raws: seq<Raw<EntryMembers>>)
    ensures ReadFinalized(raws).Ok? ==> AllFinalized(ReadFinalized(raws).value)
  {
    hide NormalizeFinalized, ReadableFinalized;
    if raws != [] {
      ReadFinalizedReadable(raws[..|raws| - 1]);
      NormalizedFinalized(raws[|raws| - 1], false);
    }
  }

  lemma {:induction false} ReadPendingReadable(raws: seq<Raw<EntryMembers>>)
    ensures ReadPending(raws).Ok? ==> AllPending(ReadPending(raws).value)
  {
    hide NormalizePending, ReadableIntent;
    if raws != [] {
      ReadPendingReadable(raws[..|raws| - 1]);
      NormalizedIntent(raws[|raws| - 1]);
    }
  }

  lemma {:induction false} ReadLegacyReadable(raws: seq<Raw<EntryMembers>>)
    ensures ReadLegacy(raws).Ok? ==> AllFinalized(ReadLegacy(raws).value.finalized) && AllPending(ReadLegacy(raws).value.pending)
  {
    hide NormalizeFinalized, NormalizePending, ReadableFinalized, ReadableIntent, LegacyFinalized;
    if raws != [] {
      ReadLegacyReadable(raws[..|raws| - 1]);
      NormalizedFinalized(raws[|raws| - 1], true);
      NormalizedIntent(raws[|raws| - 1]);
    }
  }

  /** Every store the reader accepts, migrated or not, reads back unchanged once written: migration is
      stable, and identifiers stay unique. */
  lemma AcceptedStoreIsStable(raw: RawStore)
    requires ReadStore(raw).Ok?
    ensures ReadableStore(ReadStore(raw).value.0)
    ensures ReadStore(WriteStore(ReadStore(raw).value.0)) == Ok((ReadStore(raw).value.0, false))
  {
    AcceptedStoreIsReadable(raw);
    hide ReadStore, ReadableStore, WriteStore;
    StoreRoundTrip(ReadStore(raw).value.0);
  }

  lemma AcceptedStoreIsReadable(raw: RawStore)
    requires ReadStore(raw).Ok?
    ensures ReadableStore(ReadStore(raw).value.0)
  {
    hide UniqueIds, StoreIds, AllFinalized, AllPending, ReadFinalized, ReadPending, ReadLegacy;
    match raw {
      case Version1(commands) => ReadLegacyReadable(commands);
      case Version2(finalized, pending) =>
        ReadFinalizedReadable(finalized);
        ReadPendingReadable(pending);
      case NotAStore =>
    }
  }

  // ---- what a file says ---

  /** The texts, the payload and the version of an entry stand in the file as they are read. */
  ghost predicate Mirrors(m: EntryMembers, e: Entry) {
    && e.id != "" && m.id == Some(JStr(e.id))
    && e.resourceId != "" && m.resourceId == Some(JStr(e.resourceId))
    && e.incarnationId != "" && m.incarnationId == Some(JStr(e.incarnationId))
    && e.commandType != "" && m.commandType == Some(JStr(e.commandType))
    && (match e.payload
        case None => m.payload == Some(JNull)
        case Some(text) => text != "" && m.payload == Some(JStr(text)))
    && (e.expectedVersion.Some? ==> SaysVersion(m, e.expectedVersion.value))
  }

  /** A version may also be written as true, which JavaScript reads as one. */
  ghost predicate SaysVersion(m: EntryMembers, version: int) {
    && 1 <= version <= 9_007_199_254_740_991
    && (m.expectedVersion == Some(JNum(version)) || (version == 1 && m.expectedVersion == Some(JBool(true))))
  }

  /** The reservation in the file, unless it is missing or too small; then the one measured now. */
  ghost predicate Reserves(m: EntryMembers, e: Entry, reserved: nat) {
    && reserved <= 65_536
    && (match ToInteger(m.reserved)
        case Some(n) =>
          if n >= EntryReservation(e) && n <= 9_007_199_254_740_991 then reserved == n
          else reserved == EntryReservation(e)
        case None => reserved == EntryReservation(e))
  }

  /** What a finished entry of the file has to say to be read as this item. */
  ghost predicate FinalizedFrom(raw: Raw<EntryMembers>, item: Finalized, legacy: bool) {
    && raw.Object? && Mirrors(raw.members, item.entry) && Reserves(raw.members, item.entry, item.reserved)
    && (match item.state
        case PendingReview =>
          raw.members.state == Some(JStr("pending_review")) && ToInteger(raw.members.exportable) == Some(1)
        case Invalidated =>
          raw.members.state == Some(JStr("invalidated")) && ToInteger(raw.members.exportable) == Some(0) &&
          item.entry.payload.None?)
    && (item.entry.expectedVersion.None? <==>
          raw.members.expectedVersion == Some(JNull) || (legacy && raw.members.expectedVersion.None?))
  }

  /** What an intent of the file has to say to be read as this item. */
  ghost predicate IntentFrom(raw: Raw<EntryMembers>, item: Intent) {
    && raw.Object? && Mirrors(raw.members, item.entry) && Reserves(raw.members, item.entry, item.reserved)
    && raw.members.authorized == Some(JBool(item.authorized)) && item.entry.expectedVersion.Some?
    && (!item.authorized ==> item.entry.payload.None?)
  }

  lemma ReservesExactly(m: EntryMembers, e: Entry, reserved: nat)
    ensures NormalizeReservation(m.reserved, e) == Ok(reserved) <==> Reserves(m, e, reserved)
  {
    hide EntryReservation;
  }

  lemma FinalizedExactly(raw: Raw<EntryMembers>, item: Finalized, legacy: bool)
    ensures NormalizeFinalized(raw, legacy) == Ok(item) <==> FinalizedFrom(raw, item, legacy)
  {
    hide NormalizeReservation, Reserves, FinalizedBytes, EntryReservation, ToInteger, ParseFinalized, Mirrors;
    if raw.Object? {
      ReservesExactly(raw.members, item.entry, item.reserved);
      NormalizedReservation(raw.members.reserved, item.entry);
      ParsedFinalizedExactly(raw.members, item.state, item.entry, legacy);
      assert FinalizedBytes(item.entry, item.state.PendingReview?, item.reserved) <= item.reserved ||
          NormalizeReservation(raw.members.reserved, item.entry) != Ok(item.reserved);
    }
  }

  lemma ParsedFinalizedExactly(m: EntryMembers, state: QuarantineState, e: Entry, legacy: bool)
    ensures ParseFinalized(m, legacy) == Ok((state, e)) <==>
              && Mirrors(m, e)
              && (match state
                  case PendingReview => m.state == Some(JStr("pending_review")) && ToInteger(m.exportable) == Some(1)
                  case Invalidated =>
                    m.state == Some(JStr("invalidated")) && ToInteger(m.exportable) == Some(0) && e.payload.None?)
              && (e.expectedVersion.None? <==>
                    m.expectedVersion == Some(JNull) || (legacy && m.expectedVersion.None?))
  {
    StateTexts();
  }

  lemma IntentExactly(raw: Raw<EntryMembers>, item: Intent)
    ensures NormalizePending(raw) == Ok(item) <==> IntentFrom(raw, item)
  {
    hide NormalizeReservation, Reserves, PendingBytes, EntryReservation;
    if raw.Object? {
      ReservesExactly(raw.members, item.entry, item.reserved);
      NormalizedReservation(raw.members.reserved, item.entry);
    }
  }

  /** The finished entries of a version-1 file, in order, and the others. */
  function DoneEntries(raws: seq<Raw<EntryMembers>>): seq<Raw<EntryMembers>> {
    if raws == [] then [] else DoneEntries(raws[..|raws| - 1]) + if IsDone(raws[|raws| - 1]) then [raws[|raws| - 1]] else []
  }

  function OpenEntries(raws: seq<Raw<EntryMembers>>): seq<Raw<EntryMembers>> {
    if raws == [] then []
    else OpenEntries(raws[..|raws| - 1]) + if IsDone(raws[|raws| - 1]) then [] else [raws[|raws| - 1]]
  }

  predicate IsDone(raw: Raw<EntryMembers>) {
    raw.Object? && (raw.members.state == Some(JStr("pending_review")) || raw.members.state == Some(JStr("invalidated")))
  }

  ghost predicate AllFinalizedFrom(raws: seq<Raw<EntryMembers>>, items: seq<Finalized>, legacy: bool) {
    |items| == |raws| && forall i :: 0 <= i < |raws| ==> FinalizedFrom(raws[i], items[i], legacy)
  }

  ghost predicate AllIntentsFrom(raws: seq<Raw<EntryMembers>>, items: seq<Intent>) {
    |items| == |raws| && forall i :: 0 <= i < |raws| ==> IntentFrom(raws[i], items[i])
  }

  lemma {:induction false} FinalizedInOrder(raws: seq<Raw<EntryMembers>>, items: seq<Finalized>)
    ensures ReadFinalized(raws) == Ok(items) <==> AllFinalizedFrom(raws, items, false)
  {
    hide NormalizeFinalized, FinalizedFrom;
    if raws != [] {
      var n := |raws| - 1;
      if |items| == |raws| {
        FinalizedInOrder(raws[..n], items[..n]);
        FinalizedExactly(raws[n], items[n], false);
        assert items == items[..n] + [items[n]];
        LastApart(ReadFinalized(raws[..n]), NormalizeFinalized(raws[n], false), items);
      } else if ReadFinalized(raws[..n]).Ok? {
        FinalizedInOrder(raws[..n], ReadFinalized(raws[..n]).value);
      }
    }
  }

  /** An appended list determines its parts. */
  lemma LastApart<T>(front: Result<seq<T>, QuarantineError>, last: Result<T, QuarantineError>, items: seq<T>)
    requires items != []
    ensures front.Ok? && last.Ok? ==>
        (front.value + [last.value] == items <==> front.value == items[..|items| - 1] && last.value == items[|items| - 1])
  {
    if front.Ok? && last.Ok? && front.value + [last.value] == items {
      assert (front.value + [last.value])[..|items| - 1] == front.value;
    }
    if front.Ok? && last.Ok? && front.value == items[..|items| - 1] && last.value == items[|items| - 1] {
      assert items[..|items| - 1] + [items[|items| - 1]] == items;
    }
  }

  lemma {:induction false} IntentsInOrder(raws: seq<Raw<EntryMembers>>, items: seq<Intent>)
    ensures ReadPending(raws) == Ok(items) <==> AllIntentsFrom(raws, items)
  {
    hide NormalizePending, IntentFrom;
    if raws != [] {
      var n := |raws| - 1;
      if |items| == |raws| {
        IntentsInOrder(raws[..n], items[..n]);
        IntentExactly(raws[n], items[n]);
        assert items == items[..n] + [items[n]];
        LastApart(ReadPending(raws[..n]), NormalizePending(raws[n]), items);
      } else if ReadPending(raws[..n]).Ok? {
        IntentsInOrder(raws[..n], ReadPending(raws[..n]).value);
      }
    }
  }

  /** A version-1 file is read exactly as its finished entries and its other entries, each in the order of the file. */
  lemma {:induction false} LegacyInOrder(raws: seq<Raw<EntryMembers>>, store: Store)
    ensures ReadLegacy(raws) == Ok(store) <==>
        AllFinalizedFrom(DoneEntries(raws), store.finalized, true) && AllIntentsFrom(OpenEntries(raws), store.pending)
    decreases |raws|, 1
  {
    hide NormalizeFinalized, NormalizePending, FinalizedFrom, IntentFrom;
    if raws != [] {
      var n := |raws| - 1;
      if IsDone(raws[n]) {
        LegacyFinished(raws, store);
      } else {
        LegacyUnfinished(raws, store);
      }
    }
  }

  lemma LegacyFinishes(raw: Raw<EntryMembers>)
    ensures LegacyFinalized(raw) <==> IsDone(raw)
    ensures forall item :: IntentFrom(raw, item) ==> raw.Object? && raw.members.expectedVersion.Some?
  {
    StateTexts();
    hide EntryReservation;
  }

  lemma FinishedShape(raws: seq<Raw<EntryMembers>>)
    requires raws != [] && IsDone(raws[|raws| - 1])
    ensures var front, last := raws[..|raws| - 1], raws[|raws| - 1];
            && DoneEntries(raws) == DoneEntries(front) + [last] && OpenEntries(raws) == OpenEntries(front)
            && ReadLegacy(raws) ==
                 match ReadLegacy(front)
                 case Err(error) => Err(error)
                 case Ok(rest) =>
                   match NormalizeFinalized(last, true)
                   case Err(error) => Err(error)
                   case Ok(item) => Ok(rest.(finalized := rest.finalized + [item]))
  {
    hide NormalizeFinalized, NormalizePending, LegacyFinalized, IsDone;
    LegacyFinishes(raws[|raws| - 1]);
    assert OpenEntries(raws) == OpenEntries(raws[..|raws| - 1]) + [];
  }

  lemma AppendedFinalized(raws: seq<Raw<EntryMembers>>, last: Raw<EntryMembers>, items: seq<Finalized>)
    ensures AllFinalizedFrom(raws + [last], items, true) <==>
              items != [] && AllFinalizedFrom(raws, items[..|items| - 1], true) &&
              FinalizedFrom(last, items[|items| - 1], true)
  {
    hide FinalizedFrom;
  }

  lemma LegacyFinished(raws: seq<Raw<EntryMembers>>, store: Store)
    requires raws != [] && IsDone(raws[|raws| - 1])
    ensures ReadLegacy(raws) == Ok(store) <==>
        AllFinalizedFrom(DoneEntries(raws), store.finalized, true) && AllIntentsFrom(OpenEntries(raws), store.pending)
    decreases |raws|, 0
  {
    hide NormalizeFinalized, FinalizedFrom, IsDone, ReadLegacy, DoneEntries, OpenEntries, AllFinalizedFrom, AllIntentsFrom;
    var front, last := raws[..|raws| - 1], raws[|raws| - 1];
    FinishedShape(raws);
    AppendedFinalized(DoneEntries(front), last, store.finalized);
    if store.finalized != [] {
      var m := |store.finalized| - 1;
      LegacyInOrder(front, Store(store.finalized[..m], store.pending));
      FinalizedExactly(last, store.finalized[m], true);
      FinishedAppend(ReadLegacy(front), NormalizeFinalized(last, true), store);
    }
  }

  lemma FinishedAppend(before: Result<Store, QuarantineError>, last: Result<Finalized, QuarantineError>, store: Store)
    requires store.finalized != []
    ensures var m := |store.finalized| - 1;
            before.Ok? && last.Ok? ==>
              (before.value.(finalized := before.value.finalized + [last.value]) == store <==>
                 before.value == Store(store.finalized[..m], store.pending) && last.value == store.finalized[m])
  {
    LastApart(if before.Ok? then Ok(before.value.finalized) else Err(DuplicateId), last, store.finalized);
  }

  lemma UnfinishedShape(raws: seq<Raw<EntryMembers>>)
    requires raws != [] && !IsDone(raws[|raws| - 1])
    ensures var front, last := raws[..|raws| - 1], raws[|raws| - 1];
            && DoneEntries(raws) == DoneEntries(front) && OpenEntries(raws) == OpenEntries(front) + [last]
            && (ReadLegacy(front).Err? ==> ReadLegacy(raws).Err?)
            && (ReadLegacy(front).Ok? && NormalizePending(last).Err? ==> ReadLegacy(raws).Err?)
            && (ReadLegacy(front).Ok? && NormalizePending(last).Ok? ==>
                  ReadLegacy(raws) == Ok(ReadLegacy(front).value.(pending := ReadLegacy(front).value.pending +
                    [NormalizePending(last).value])))
  {
    hide NormalizeFinalized, NormalizePending, LegacyFinalized, IsDone, IntentFrom;
    var last := raws[|raws| - 1];
    LegacyFinishes(last);
    if NormalizePending(last).Ok? {
      IntentExactly(last, NormalizePending(last).value);
    }
    assert DoneEntries(raws) == DoneEntries(raws[..|raws| - 1]) + [];
  }

  lemma AppendedIntent(raws: seq<Raw<EntryMembers>>, last: Raw<EntryMembers>, items: seq<Intent>)
    ensures AllIntentsFrom(raws + [last], items) <==>
        items != [] && AllIntentsFrom(raws, items[..|items| - 1]) && IntentFrom(last, items[|items| - 1])
  {
    hide IntentFrom;
  }

  lemma LegacyUnfinished(raws: seq<Raw<EntryMembers>>, store: Store)
    requires raws != [] && !IsDone(raws[|raws| - 1])
    ensures ReadLegacy(raws) == Ok(store) <==>
        AllFinalizedFrom(DoneEntries(raws), store.finalized, true) && AllIntentsFrom(OpenEntries(raws), store.pending)
    decreases |raws|, 0
  {
    hide NormalizePending, IntentFrom, IsDone, ReadLegacy, DoneEntries, OpenEntries, AllFinalizedFrom, AllIntentsFrom;
    var front, last := raws[..|raws| - 1], raws[|raws| - 1];
    UnfinishedShape(raws);
    AppendedIntent(OpenEntries(front), last, store.pending);
    if store.pending != [] {
      var m := |store.pending| - 1;
      LegacyInOrder(front, Store(store.finalized, store.pending[..m]));
      IntentExactly(last, store.pending[m]);
      UnfinishedAppend(ReadLegacy(front), NormalizePending(last), store);
    }
  }

  lemma UnfinishedAppend(before: Result<Store, QuarantineError>, last: Result<Intent, QuarantineError>, store: Store)
    requires store.pending != []
    ensures var m := |store.pending| - 1;
            before.Ok? && last.Ok? ==>
              (before.value.(pending := before.value.pending + [last.value]) == store <==>
                 before.value == Store(store.finalized, store.pending[..m]) && last.value == store.pending[m])
  {
    LastApart(if before.Ok? then Ok(before.value.pending) else Err(DuplicateId), last, store.pending);
  }

  /** A file is read as a store exactly when its entries say so one by one, in order, and no identifier occurs twice;
      only a version-1 file counts as migrated. */
  lemma ReadExactly(raw: RawStore, store: Store, migrated: bool)
    ensures ReadStore(raw) == Ok((store, migrated)) <==>
              && UniqueIds(StoreIds(store))
              && match raw
                 case NotAStore => false
                 case Version2(finalized, pending) =>
                   !migrated && AllFinalizedFrom(finalized, store.finalized, false) &&
                   AllIntentsFrom(pending, store.pending)
                 case Version1(commands) =>
                   migrated && AllFinalizedFrom(DoneEntries(commands), store.finalized, true) &&
                   AllIntentsFrom(OpenEntries(commands), store.pending)
  {
    hide ReadFinalized, ReadPending, ReadLegacy, AllFinalizedFrom, AllIntentsFrom, UniqueIds, StoreIds, DoneEntries,
        OpenEntries;
    match raw {
      case NotAStore =>
      case Version2(finalized, pending) =>
        FinalizedInOrder(finalized, store.finalized);
        IntentsInOrder(pending, store.pending);
      case Version1(commands) => LegacyInOrder(commands, store);
    }
  }

  // ---- the final form of an intent ---

  /** What an intent becomes: retained only when still visible, and stripped of its payload otherwise. */
  function Finalize(item: Intent, visible: bool): Finalized {
    if visible then Finalized(item.entry, PendingReview, item.reserved)
    else Finalized(item.entry.(payload := None), Invalidated, item.reserved)
  }

  /** Finalizing a readable intent never trips the size check. What is written reads back unchanged unless
      the payload is dropped and the reservation does not cover the bare entry. */
  lemma FinalizeFits(item: Intent, visible: bool)
    requires ReadableIntent(item)
    ensures FinalizedBytes(item.entry, visible, item.reserved) <= item.reserved
    ensures ReadableFinalized(Finalize(item, visible)) <==>
              visible || EntryReservation(item.entry.(payload := None)) <= item.reserved
  {
    hide FinalizedBytes, EntryReservation;
    ReservationCovers(item.entry, item.reserved, visible);
  }

  /** Dropping a payload of two bytes or more never makes an entry longer: `null` costs as much as `"ab"`. */
  lemma PayloadCost(e: Entry)
    ensures e.payload.None? || ContentBytes(e.payload.value) >= 2 ==>
              EntryReservation(e.(payload := None)) <= EntryReservation(e)
    ensures e.payload.Some? && ContentBytes(e.payload.value) == 1 && EntryReservation(e.(payload := None)) > RESULT_FLOOR ==>
              EntryReservation(e.(payload := None)) == EntryReservation(e) + 1
  {
    LiteralLengths();
    ReservationDigits(MAX_BYTES);
    hide ContentBytes, NumberBytes;
  }

  // ---- publishing finalized entries ---

  function FinalizedIds(items: seq<Finalized>): seq<string> {
    seq(|items|, i requires 0 <= i < |items| => items[i].entry.id)
  }

  /** Array.prototype.sort is stable; `collation` ranks identifiers the way localeCompare orders them. */
  function InsertById(items: seq<Finalized>, item: Finalized, collation: string -> real): seq<Finalized> {
    if items == [] || collation(items[|items| - 1].entry.id) <= collation(item.entry.id) then items + [item]
    else InsertById(items[..|items| - 1], item, collation) + [items[|items| - 1]]
  }

  function SortById(items: seq<Finalized>, collation: string -> real): seq<Finalized> {
    if items == [] then []
    else InsertById(SortById(items[..|items| - 1], collation), items[|items| - 1], collation)
  }

  ghost predicate Ordered(items: seq<Finalized>, collation: string -> real) {
    forall i, j :: 0 <= i < j < |items| ==> collation(items[i].entry.id) <= collation(items[j].entry.id)
  }

  lemma {:induction false} InsertKeeps(items: seq<Finalized>, item: Finalized, collation: string -> real)
    ensures multiset(InsertById(items, item, collation)) == multiset(items) + multiset{item}
  {
    if items != [] {
      assert items == items[..|items| - 1] + [items[|items| - 1]];
      if collation(items[|items| - 1].entry.id) > collation(item.entry.id) {
        InsertKeeps(items[..|items| - 1], item, collation);
      }
    }
  }

  lemma {:induction false} InsertOrdered(items: seq<Finalized>, item: Finalized, collation: string -> real)
    requires Ordered(items, collation)
    ensures Ordered(InsertById(items, item, collation), collation)
  {
    if items != [] && collation(items[|items| - 1].entry.id) > collation(item.entry.id) {
      var rest, last := items[..|items| - 1], items[|items| - 1];
      InsertOrdered(rest, item, collation);
      InsertKeeps(rest, item, collation);
      var merged := InsertById(rest, item, collation);
      forall i | 0 <= i < |merged| ensures collation(merged[i].entry.id) <= collation(last.entry.id) {
        InsertedFrom(rest, item, merged, i);
      }
    }
  }

  lemma InsertedFrom(items: seq<Finalized>, item: Finalized, merged: seq<Finalized>, i: nat)
    requires multiset(merged) == multiset(items) + multiset{item} && i < |merged|
    ensures merged[i] == item || merged[i] in items
  {
    assert merged[i] in multiset(merged);
  }

  lemma {:induction false} SortOrdered(items: seq<Finalized>, collation: string -> real)
    ensures Ordered(SortById(items, collation), collation)
    ensures multiset(SortById(items, collation)) == multiset(items)
  {
    if items != [] {
      SortOrdered(items[..|items| - 1], collation);
      InsertOrdered(SortById(items[..|items| - 1], collation), items[|items| - 1], collation);
      InsertKeeps(SortById(items[..|items| - 1], collation), items[|items| - 1], collation);
      assert items == items[..|items| - 1] + [items[|items| - 1]];
    }
  }

  /** mergeFinalizedQuarantine: refuses a repeated identifier, loses and invents nothing, and sorts. */
  method MergeFinalized(existing: seq<Finalized>, additions: seq<Finalized>, collation: string -> real)
    returns (r: Result<seq<Finalized>, QuarantineError>)
    ensures r.Ok? <==> UniqueIds(FinalizedIds(existing + additions))
    ensures r.Ok? ==> r.value == SortById(existing + additions, collation)
    ensures r.Ok? ==> multiset(r.value) == multiset(existing) + multiset(additions) && Ordered(r.value, collation)
  {
    var all := existing + additions;
    var ids: set<string> := {};
    for i := 0 to |all|
      invariant UniqueIds(FinalizedIds(all[..i]))
      invariant forall id :: id in ids <==> id in FinalizedIds(all[..i])
    {
      var id := all[i].entry.id;
      assert FinalizedIds(all[..i + 1]) == FinalizedIds(all[..i]) + [id];
      if id in ids {
        var k :| 0 <= k < i && FinalizedIds(all[..i])[k] == id;
        assert FinalizedIds(all)[k] == FinalizedIds(all)[i];
        return Err(DuplicateId);
      }
      ids := ids + {id};
    }
    assert all[..|all|] == all;
    SortOrdered(all, collation);
    return Ok(SortById(all, collation));
  }

  // ---- acknowledging a finalized entry ---

  function Without(items: seq<Finalized>, id: string): seq<Finalized> {
    if items == [] then []
    else if items[0].entry.id == id then items[1..]
    else [items[0]] + Without(items[1..], id)
  }

  /** persistQuarantineAcknowledgement: the file it writes has no pending intents at all. */
  function Acknowledge(finalized: seq<Finalized>, id: string): Option<Store> {
    if id in FinalizedIds(finalized) then Some(Store(Without(finalized, id), [])) else None
  }

  lemma {:induction false} WithoutRemoves(items: seq<Finalized>, id: string) returns (k: nat)
    requires id in FinalizedIds(items)
    ensures k < |items| && items[k].entry.id == id
    ensures Without(items, id) == items[..k] + items[k + 1..]
  {
    if items[0].entry.id == id {
      k := 0;
    } else {
      var j :| 0 <= j < |items| && FinalizedIds(items)[j] == id;
      assert FinalizedIds(items[1..])[j - 1] == id;
      var i := WithoutRemoves(items[1..], id);
      k := i + 1;
      assert [items[0]] + (items[1..][..i] + items[1..][i + 1..]) == items[..k] + items[k + 1..];
    }
  }

  /** Acknowledging removes exactly the named entry, and keeps the file's pending intents exactly when there
      are none: acknowledging while a reset is unfinished would lose the commands it must account for. */
  lemma AcknowledgeRemoves(store: Store, id: string) returns (k: nat)
    requires id in FinalizedIds(store.finalized)
    ensures k < |store.finalized| && store.finalized[k].entry.id == id
    ensures Acknowledge(store.finalized, id) == Some(Store(store.finalized[..k] + store.finalized[k + 1..], []))
    ensures Acknowledge(store.finalized, id).value.pending == store.pending <==> store.pending == []
  {
    k := WithoutRemoves(store.finalized, id);
  }
}
