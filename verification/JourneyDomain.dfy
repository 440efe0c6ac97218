/** Journeys, route segments and packing items as the web application keeps them, and the reader that
    decides which stored data it accepts. */
module JourneyDomain {
  import opened Basics
  import opened Json

  datatype Status = Planning | Active | Completed | Archived

  datatype Category = Documents | Clothing | Toiletries | Electronics | Other

  datatype Stamp = Stamp(version: int, createdAt: string, updatedAt: string)

  datatype Journey = Journey(id: string, name: string, startDate: Option<string>, endDate: Option<string>,
      status: Status, stamp: Stamp)

  datatype Details = Stay(placeName: string) | Move(originName: string, destinationName: string, transportMode: string)

  datatype Segment = Segment(
    id: string, journeyId: string, position: int, startDate: Option<string>, endDate: Option<string>, notes: string,
    details: Details, stamp: Stamp)

  datatype PackingItem = PackingItem(
    id: string, journeyId: string, caption: string, category: Category, quantity: int, packed: int, essential: bool,
        stamp: Stamp)

  datatype JourneyData = JourneyData(journeys: seq<Journey>, segments: seq<Segment>, packing: seq<PackingItem>)

  // ---- text and dates ---

  predicate IsSpace(c: char) {
    var n := c as int;
    || 9 <= n <= 13 || n == 32 || n == 160 || n == 0x1680 || 0x2000 <= n <= 0x200a
    || n == 0x2028 || n == 0x2029 || n == 0x202f || n == 0x205f || n == 0x3000 || n == 0xfeff
  }

  function TrimStart(s: string): string {
    if s != "" && IsSpace(s[0]) then TrimStart(s[1..]) else s
  }

  function TrimEnd(s: string): string {
    if s != "" && IsSpace(s[|s| - 1]) then TrimEnd(s[..|s| - 1]) else s
  }

  function Trim(s: string): string {
    TrimEnd(TrimStart(s))
  }

  predicate NonEmpty(s: string) {
    Trim(s) != ""
  }

  lemma {:induction false} TrimStartShape(s: string)
    ensures TrimStart(s) == "" || !IsSpace(TrimStart(s)[0])
    ensures |TrimStart(s)| <= |s|
  {
    if s != "" && IsSpace(s[0]) {
      TrimStartShape(s[1..]);
    }
  }

  lemma {:induction false} TrimEndShape(s: string)
    ensures TrimEnd(s) == "" || !IsSpace(TrimEnd(s)[|TrimEnd(s)| - 1])
    ensures TrimEnd(s) <= s
  {
    if s != "" && IsSpace(s[|s| - 1]) {
      TrimEndShape(s[..|s| - 1]);
    }
  }

  /** Trimming twice is trimming once, which is what lets client and server both trim. */
  lemma TrimTwice(s: string)
    ensures Trim(Trim(s)) == Trim(s) && |Trim(s)| <= |s|
    ensures NonEmpty(Trim(s)) <==> NonEmpty(s)
  {
    TrimStartShape(s);
    TrimEndShape(TrimStart(s));
  }

  lemma {:induction false} TrimStartExactly(s: string)
    ensures |TrimStart(s)| <= |s| && TrimStart(s) == s[|s| - |TrimStart(s)|..]
    ensures forall k :: 0 <= k < |s| - |TrimStart(s)| ==> IsSpace(s[k])
  {
    hide IsSpace;
    if s != "" && IsSpace(s[0]) {
      TrimStartExactly(s[1..]);
    }
  }

  lemma {:induction false} TrimEndExactly(s: string)
    ensures TrimEnd(s) <= s
    ensures forall k :: |TrimEnd(s)| <= k < |s| ==> IsSpace(s[k])
  {
    hide IsSpace;
    if s != "" && IsSpace(s[|s| - 1]) {
      TrimEndExactly(s[..|s| - 1]);
    }
  }

  /** Trimming takes away white space from both ends, all of it, and nothing else. */
  lemma TrimExactly(s: string) returns (i: nat, j: nat)
    ensures i <= j <= |s| && Trim(s) == s[i..j]
    ensures forall k :: 0 <= k < |s| && (k < i || k >= j) ==> IsSpace(s[k])
    ensures i < j ==> !IsSpace(s[i]) && !IsSpace(s[j - 1])
  {
    hide IsSpace;
    TrimStartExactly(s);
    TrimEndExactly(TrimStart(s));
    TrimStartShape(s);
    TrimEndShape(TrimStart(s));
    i := |s| - |TrimStart(s)|;
    j := i + |Trim(s)|;
    forall k | j <= k < |s| ensures IsSpace(s[k]) {
      assert s[k] == TrimStart(s)[k - i];
    }
  }

  /** `input < other` on strings: by code units, a proper prefix first. */
  predicate Before(a: string, b: string)
    decreases |a|
  {
    b != "" && (a == "" || a[0] < b[0] || (a[0] == b[0] && Before(a[1..], b[1..])))
  }

  predicate IsDigit(c: char) {
    '0' <= c <= '9'
  }

  /** The shape the reader demands: four, two and two digits. */
  predicate LocalDate(s: string) {
    |s| == 10 && forall i | 0 <= i < 10 :: if i == 4 || i == 7 then s[i] == '-' else IsDigit(s[i])
  }

  predicate NullableDate(date: Option<string>) {
    date.Some? ==> LocalDate(date.value)
  }

  predicate DatesInOrder(start: Option<string>, end: Option<string>) {
    start.Some? && end.Some? && start.value != "" && end.value != "" ==> !Before(end.value, start.value)
  }

  /** An ISO timestamp to the reader: Date.parse takes it and it has a time part. */
  predicate Timestamp(s: string, parseable: string -> bool) {
    parseable(s) && 'T' in s
  }

  predicate ValidStamp(stamp: Stamp, parseable: string -> bool) {
    stamp.version >= 1 && Timestamp(stamp.createdAt, parseable) && Timestamp(stamp.updatedAt, parseable)
  }

  // ---- what is accepted ---

  predicate ValidJourney(j: Journey, parseable: string -> bool) {
    && NonEmpty(j.id) && NonEmpty(j.name) && NullableDate(j.startDate) && NullableDate(j.endDate)
    && DatesInOrder(j.startDate, j.endDate) && ValidStamp(j.stamp, parseable)
  }

  predicate ValidDetails(details: Details) {
    match details
    case Stay(place) => NonEmpty(place)
    case Move(origin, destination, _) => NonEmpty(origin) && NonEmpty(destination)
  }

  predicate ValidSegment(s: Segment, parseable: string -> bool) {
    && NonEmpty(s.id) && NonEmpty(s.journeyId) && s.position >= 0 && NullableDate(s.startDate) &&
        NullableDate(s.endDate)
    && DatesInOrder(s.startDate, s.endDate) && ValidDetails(s.details) && ValidStamp(s.stamp, parseable)
  }

  predicate ValidPacking(p: PackingItem, parseable: string -> bool) {
    && NonEmpty(p.id) && NonEmpty(p.journeyId) && NonEmpty(p.caption) && 1 <= p.quantity <= 99 &&
        0 <= p.packed <= p.quantity
    && ValidStamp(p.stamp, parseable)
  }

  predicate HasJourney(journeys: seq<Journey>, id: string) {
    exists i | 0 <= i < |journeys| :: journeys[i].id == id
  }

  ghost predicate DistinctJourneys(journeys: seq<Journey>) {
    forall i, j :: 0 <= i < j < |journeys| ==> journeys[i].id != journeys[j].id
  }

  ghost predicate DistinctSegments(segments: seq<Segment>) {
    forall i, j :: 0 <= i < j < |segments| ==> segments[i].id != segments[j].id
  }

  ghost predicate DistinctPacking(packing: seq<PackingItem>) {
    forall i, j :: 0 <= i < j < |packing| ==> packing[i].id != packing[j].id
  }

  ghost predicate DistinctPositions(segments: seq<Segment>) {
    forall i, j :: 0 <= i < j < |segments| && segments[i].journeyId == segments[j].journeyId ==>
      segments[i].position != segments[j].position
  }

  /** What parseJourneyData lets through, stated on the decoded data. */
  ghost predicate Accepted(data: JourneyData, parseable: string -> bool) {
    && (forall i :: 0 <= i < |data.journeys| ==> ValidJourney(data.journeys[i], parseable))
    && (forall i :: 0 <= i < |data.segments| ==>
          ValidSegment(data.segments[i], parseable) && HasJourney(data.journeys, data.segments[i].journeyId))
    && (forall i :: 0 <= i < |data.packing| ==>
          ValidPacking(data.packing[i], parseable) && HasJourney(data.journeys, data.packing[i].journeyId))
    && DistinctJourneys(data.journeys) && DistinctSegments(data.segments) && DistinctPacking(data.packing)
    && DistinctPositions(data.segments)
  }

  // ---- reading untrusted data ---

  datatype RawRecord<T> = NotARecord | Record(members: T)

  datatype RawList<T> = NotAList | Items(items: seq<RawRecord<T>>)

  datatype StampMembers = StampMembers(recordVersion: Option<Json>, createdAt: Option<Json>, updatedAt: Option<Json>)

  datatype JourneyMembers = JourneyMembers(
    id: Option<Json>, name: Option<Json>, startDate: Option<Json>, endDate: Option<Json>, status: Option<Json>,
        stamp: StampMembers)

  datatype SegmentMembers = SegmentMembers(
    id: Option<Json>, journeyId: Option<Json>, kind: Option<Json>, position: Option<Json>, startDate: Option<Json>,
        endDate: Option<Json>,
    notes: Option<Json>, placeName: Option<Json>, originName: Option<Json>, destinationName: Option<Json>,
        transportMode: Option<Json>,
    stamp: StampMembers)

  datatype PackingMembers = PackingMembers(
    id: Option<Json>, journeyId: Option<Json>, caption: Option<Json>, category: Option<Json>, quantity: Option<Json>,
    packedQuantity: Option<Json>, essential: Option<Json>, stamp: StampMembers)

  datatype DataMembers = DataMembers(
    schemaVersion: Option<Json>, journeys: RawList<JourneyMembers>, segments: RawList<SegmentMembers>,
        packing: RawList<PackingMembers>)

  function Text(value: Option<Json>): Option<string> {
    match value
    case Some(JStr(s)) => Some(s)
    case _ => None
  }

  function Whole(value: Option<Json>): Option<int> {
    match value
    case Some(JNum(n)) => Some(n)
    case _ => None
  }

  function Truth(value: Option<Json>): Option<bool> {
    match value
    case Some(JBool(b)) => Some(b)
    case _ => None
  }

  /** null, or a string; anything else, including a missing member, is refused. */
  function DateOrNull(value: Option<Json>): Option<Option<string>> {
    match value
    case Some(JNull) => Some(None)
    case Some(JStr(s)) => Some(Some(s))
    case _ => None
  }

  function StatusName(status: Status): string {
    match status
    case Planning => "planning"
    case Active => "active"
    case Completed => "completed"
    case Archived => "archived"
  }

  function CategoryName(category: Category): string {
    match category
    case Documents => "documents"
    case Clothing => "clothing"
    case Toiletries => "toiletries"
    case Electronics => "electronics"
    case Other => "other"
  }

  function ParseStatus(value: Option<Json>): Option<Status> {
    if value == Some(JStr(StatusName(Planning))) then Some(Planning)
    else if value == Some(JStr(StatusName(Active))) then Some(Active)
    else if value == Some(JStr(StatusName(Completed))) then Some(Completed)
    else if value == Some(JStr(StatusName(Archived))) then Some(Archived)
    else None
  }

  function ParseCategory(value: Option<Json>): Option<Category> {
    if value == Some(JStr(CategoryName(Documents))) then Some(Documents)
    else if value == Some(JStr(CategoryName(Clothing))) then Some(Clothing)
    else if value == Some(JStr(CategoryName(Toiletries))) then Some(Toiletries)
    else if value == Some(JStr(CategoryName(Electronics))) then Some(Electronics)
    else if value == Some(JStr(CategoryName(Other))) then Some(Other)
    else None
  }

  function DecodeStamp(m: StampMembers): Option<Stamp> {
    var version, created, updated := Whole(m.recordVersion), Text(m.createdAt), Text(m.updatedAt);
    if version.None? || created.None? || updated.None? then None
    else Some(Stamp(version.value, created.value, updated.value))
  }

  function DecodeJourney(raw: RawRecord<JourneyMembers>): Option<Journey> {
    if raw.NotARecord? then None
    else
      var m := raw.members;
      var id, name, status, stamp := Text(m.id), Text(m.name), ParseStatus(m.status), DecodeStamp(m.stamp);
      var start, end := DateOrNull(m.startDate), DateOrNull(m.endDate);
      if id.None? || name.None? || status.None? || stamp.None? || start.None? || end.None? then None
      else Some(Journey(id.value, name.value, start.value, end.value, status.value, stamp.value))
  }

  function DecodeDetails(m: SegmentMembers): Option<Details> {
    if m.kind == Some(JStr("stay")) then
      if Text(m.placeName).Some? then Some(Stay(Text(m.placeName).value)) else None
    else if m.kind == Some(JStr("move")) then
      if Text(m.originName).Some? && Text(m.destinationName).Some? && Text(m.transportMode).Some?
      then Some(Move(Text(m.originName).value, Text(m.destinationName).value, Text(m.transportMode).value)) else None
    else None
  }

  function DecodeSegment(raw: RawRecord<SegmentMembers>): Option<Segment> {
    if raw.NotARecord? then None
    else
      var m := raw.members;
      var id, journeyId, position, notes := Text(m.id), Text(m.journeyId), Whole(m.position), Text(m.notes);
      var start, end, details, stamp := DateOrNull(m.startDate), DateOrNull(m.endDate), DecodeDetails(m),
          DecodeStamp(m.stamp);
      if id.None? || journeyId.None? || position.None? || notes.None? || start.None? || end.None? || details.None? ||
          stamp.None? then None
      else Some(Segment(id.value, journeyId.value, position.value, start.value, end.value, notes.value, details.value,
          stamp.value))
  }

  function DecodePacking(raw: RawRecord<PackingMembers>): Option<PackingItem> {
    if raw.NotARecord? then None
    else
      var m := raw.members;
      var id, journeyId, caption, category := Text(m.id), Text(m.journeyId), Text(m.caption), ParseCategory(m.category);
      var quantity, packed, essential, stamp := Whole(m.quantity), Whole(m.packedQuantity), Truth(m.essential),
          DecodeStamp(m.stamp);
      if id.None? || journeyId.None? || caption.None? || category.None? || quantity.None? || packed.None? ||
          essential.None? || stamp.None?
      then None
      else Some(PackingItem(id.value, journeyId.value, caption.value, category.value, quantity.value, packed.value,
          essential.value, stamp.value))
  }

  // ---- what the decoded values say of the stored ones ---

  ghost predicate SaysDate(value: Option<Json>, date: Option<string>) {
    match date
    case None => value == Some(JNull)
    case Some(text) => value == Some(JStr(text))
  }

  ghost predicate SaysStamp(m: StampMembers, stamp: Stamp) {
    && m.recordVersion == Some(JNum(stamp.version)) && m.createdAt == Some(JStr(stamp.createdAt))
    && m.updatedAt == Some(JStr(stamp.updatedAt))
  }

  lemma StatusWords(m: JourneyMembers, status: Status)
    ensures ParseStatus(m.status) == Some(status) <==>
              m.status == Some(JStr(match status
                                    case Planning => "planning"
                                    case Active => "active"
                                    case Completed => "completed"
                                    case Archived => "archived"))
  {
    assert |"planning"| == 8 && |"active"| == 6 && |"completed"| == 9 && |"archived"| == 8;
    assert "planning"[0] == 'p' && "archived"[0] == 'a';
  }

  lemma CategoryWords(m: PackingMembers, category: Category)
    ensures ParseCategory(m.category) == Some(category) <==>
              m.category == Some(JStr(match category
                                      case Documents => "documents"
                                      case Clothing => "clothing"
                                      case Toiletries => "toiletries"
                                      case Electronics => "electronics"
                                      case Other => "other"))
  {
    assert |"documents"| == 9 && |"clothing"| == 8 && |"toiletries"| == 10 && |"electronics"| == 11 && |"other"| == 5;
  }

  /** A stored journey is read as this one exactly when every member says so. */
  lemma JourneySays(raw: RawRecord<JourneyMembers>, j: Journey)
    ensures DecodeJourney(raw) == Some(j) <==>
              && raw.Record? && raw.members.id == Some(JStr(j.id)) && raw.members.name == Some(JStr(j.name))
              && SaysDate(raw.members.startDate, j.startDate) && SaysDate(raw.members.endDate, j.endDate)
              && raw.members.status == Some(JStr(match j.status
                                                 case Planning => "planning"
                                                 case Active => "active"
                                                 case Completed => "completed"
                                                 case Archived => "archived"))
              && SaysStamp(raw.members.stamp, j.stamp)
  {
    hide ParseStatus;
    if raw.Record? {
      StatusWords(raw.members, j.status);
    }
  }

  lemma SegmentSays(raw: RawRecord<SegmentMembers>, s: Segment)
    ensures DecodeSegment(raw) == Some(s) <==>
              && raw.Record? && raw.members.id == Some(JStr(s.id))
              && raw.members.journeyId == Some(JStr(s.journeyId)) && raw.members.position == Some(JNum(s.position))
              && SaysDate(raw.members.startDate, s.startDate) && SaysDate(raw.members.endDate, s.endDate)
              && raw.members.notes == Some(JStr(s.notes)) && SaysStamp(raw.members.stamp, s.stamp)
              && (match s.details
                  case Stay(place) =>
                    raw.members.kind == Some(JStr("stay")) && raw.members.placeName == Some(JStr(place))
                  case Move(origin, destination, transport) =>
                    && raw.members.kind == Some(JStr("move")) && raw.members.originName == Some(JStr(origin))
                    && raw.members.destinationName == Some(JStr(destination))
                    && raw.members.transportMode == Some(JStr(transport)))
  {
    assert "stay"[0] == 's' && "move"[0] == 'm';
  }

  lemma PackingSays(raw: RawRecord<PackingMembers>, p: PackingItem)
    ensures DecodePacking(raw) == Some(p) <==>
              && raw.Record? && raw.members.id == Some(JStr(p.id))
              && raw.members.journeyId == Some(JStr(p.journeyId)) && raw.members.caption == Some(JStr(p.caption))
              && raw.members.category == Some(JStr(match p.category
                                                   case Documents => "documents"
                                                   case Clothing => "clothing"
                                                   case Toiletries => "toiletries"
                                                   case Electronics => "electronics"
                                                   case Other => "other"))
              && raw.members.quantity == Some(JNum(p.quantity))
              && raw.members.packedQuantity == Some(JNum(p.packed))
              && raw.members.essential == Some(JBool(p.essential)) && SaysStamp(raw.members.stamp, p.stamp)
  {
    hide ParseCategory;
    if raw.Record? {
      CategoryWords(raw.members, p.category);
    }
  }

  // ---- the reader ---

  ghost predicate DecodesJourneys(raws: seq<RawRecord<JourneyMembers>>, items: seq<Journey>) {
    |raws| == |items| && forall i :: 0 <= i < |raws| ==> DecodeJourney(raws[i]) == Some(items[i])
  }

  ghost predicate DecodesSegments(raws: seq<RawRecord<SegmentMembers>>, items: seq<Segment>) {
    |raws| == |items| && forall i :: 0 <= i < |raws| ==> DecodeSegment(raws[i]) == Some(items[i])
  }

  ghost predicate DecodesPacking(raws: seq<RawRecord<PackingMembers>>, items: seq<PackingItem>) {
    |raws| == |items| && forall i :: 0 <= i < |raws| ==> DecodePacking(raws[i]) == Some(items[i])
  }

  ghost predicate GoodJourneys(items: seq<Journey>, parseable: string -> bool) {
    (forall i :: 0 <= i < |items| ==> ValidJourney(items[i], parseable)) && DistinctJourneys(items)
  }

  ghost predicate GoodSegments(items: seq<Segment>, journeys: seq<Journey>, parseable: string -> bool) {
    && (forall i :: 0 <= i < |items| ==> ValidSegment(items[i], parseable) && HasJourney(journeys, items[i].journeyId))
    && DistinctSegments(items) && DistinctPositions(items)
  }

  ghost predicate GoodPacking(items: seq<PackingItem>, journeys: seq<Journey>, parseable: string -> bool) {
    && (forall i :: 0 <= i < |items| ==> ValidPacking(items[i], parseable) && HasJourney(journeys, items[i].journeyId))
    && DistinctPacking(items)
  }

  lemma AcceptedParts(data: JourneyData, parseable: string -> bool)
    ensures Accepted(data, parseable) <==>
              GoodJourneys(data.journeys, parseable) && GoodSegments(data.segments, data.journeys, parseable) &&
              GoodPacking(data.packing, data.journeys, parseable)
  {
    hide ValidJourney, ValidSegment, ValidPacking, HasJourney, DistinctJourneys, DistinctSegments, DistinctPacking,
        DistinctPositions;
  }

  /** First loop: every journey, with a set of the identifiers seen so far. */
  method ReadJourneys(raws: seq<RawRecord<JourneyMembers>>, parseable: string -> bool) returns (r: Option<seq<Journey>>,
      ids: set<string>)
    ensures match r
            case Some(items) =>
              DecodesJourneys(raws, items) && GoodJourneys(items, parseable) &&
                  (forall id :: id in ids <==> HasJourney(items, id))
            case None => forall items :: DecodesJourneys(raws, items) ==> !GoodJourneys(items, parseable)
  {
    hide ValidJourney, DecodeJourney;
    var items: seq<Journey> := [];
    ids := {};
    for i := 0 to |raws|
      invariant DecodesJourneys(raws[..i], items) && GoodJourneys(items, parseable)
      invariant forall id :: id in ids <==> HasJourney(items, id)
    {
      var item := DecodeJourney(raws[i]);
      if item.None? || !ValidJourney(item.value, parseable) || item.value.id in ids {
        ReadJourneysFails(raws, items, i, parseable);
        return None, {};
      }
      assert forall id :: HasJourney(items + [item.value], id) <==> HasJourney(items, id) || id == item.value.id by {
        JourneyAppend(items, item.value);
      }
      items, ids := items + [item.value], ids + {item.value.id};
    }
    assert raws[..|raws|] == raws;
    r := Some(items);
  }

  lemma JourneyAppend(items: seq<Journey>, item: Journey)
    ensures forall id :: HasJourney(items + [item], id) <==> HasJourney(items, id) || id == item.id
  {
    forall id ensures HasJourney(items + [item], id) <==> HasJourney(items, id) || id == item.id {
      if HasJourney(items, id) {
        var i :| 0 <= i < |items| && items[i].id == id;
        assert (items + [item])[i].id == id;
      }
      assert (items + [item])[|items|] == item;
    }
  }

  lemma ReadJourneysFails(raws: seq<RawRecord<JourneyMembers>>, read: seq<Journey>, i: nat, parseable: string -> bool)
    requires i < |raws| && DecodesJourneys(raws[..i], read)
    requires var item := DecodeJourney(raws[i]); item.None? || !ValidJourney(item.value, parseable) || HasJourney(read, item.value.id)
    ensures forall items :: DecodesJourneys(raws, items) ==> !GoodJourneys(items, parseable)
  {
    hide ValidJourney, DecodeJourney;
    forall items: seq<Journey> | DecodesJourneys(raws, items) ensures !GoodJourneys(items, parseable) {
      assert forall k :: 0 <= k < i ==> raws[..i][k] == raws[k];
      assert DecodeJourney(raws[i]) == Some(items[i]);
      if HasJourney(read, items[i].id) {
        var k :| 0 <= k < |read| && read[k].id == items[i].id;
        assert items[k] == read[k];
      }
    }
  }

  ghost predicate Tracks(positions: map<string, set<int>>, items: seq<Segment>) {
    forall journeyId, position ::
      (journeyId in positions && position in positions[journeyId]) <==> TakenPosition(items, journeyId, position)
  }

  ghost predicate TakenPosition(items: seq<Segment>, journeyId: string, position: int) {
    exists i :: 0 <= i < |items| && items[i].journeyId == journeyId && items[i].position == position
  }

  predicate HasSegment(segments: seq<Segment>, id: string) {
    exists i | 0 <= i < |segments| :: segments[i].id == id
  }

  lemma SegmentAppend(items: seq<Segment>, item: Segment)
    ensures forall id :: HasSegment(items + [item], id) <==> HasSegment(items, id) || id == item.id
    ensures forall journeyId, position :: TakenPosition(items + [item], journeyId, position) <==>
              TakenPosition(items, journeyId, position) || (journeyId == item.journeyId && position == item.position)
  {
    assert (items + [item])[|items|] == item;
    forall id ensures HasSegment(items + [item], id) <==> HasSegment(items, id) || id == item.id {
      if HasSegment(items, id) {
        var i :| 0 <= i < |items| && items[i].id == id;
        assert (items + [item])[i].id == id;
      }
    }
    forall journeyId, position
      ensures TakenPosition(items + [item], journeyId, position) <==>
                TakenPosition(items, journeyId, position) || (journeyId == item.journeyId && position == item.position)
    {
      if TakenPosition(items, journeyId, position) {
        var i :| 0 <= i < |items| && items[i].journeyId == journeyId && items[i].position == position;
        assert (items + [item])[i] == items[i];
      }
    }
  }

  lemma ReadSegmentsFails(raws: seq<RawRecord<SegmentMembers>>, read: seq<Segment>, i: nat, journeys: seq<Journey>,
      parseable: string -> bool)
    requires i < |raws| && DecodesSegments(raws[..i], read)
    requires var item := DecodeSegment(raws[i]);
             || item.None? || !ValidSegment(item.value, parseable) || !HasJourney(journeys, item.value.journeyId)
             || HasSegment(read, item.value.id) || TakenPosition(read, item.value.journeyId, item.value.position)
    ensures forall items :: DecodesSegments(raws, items) ==> !GoodSegments(items, journeys, parseable)
  {
    hide ValidSegment, DecodeSegment, HasJourney;
    forall items: seq<Segment> | DecodesSegments(raws, items) ensures !GoodSegments(items, journeys, parseable) {
      assert forall k :: 0 <= k < i ==> raws[..i][k] == raws[k];
      assert DecodeSegment(raws[i]) == Some(items[i]);
      if HasSegment(read, items[i].id) {
        var k :| 0 <= k < |read| && read[k].id == items[i].id;
        assert items[k] == read[k];
      } else if TakenPosition(read, items[i].journeyId, items[i].position) {
        var k :| 0 <= k < |read| && read[k].journeyId == items[i].journeyId && read[k].position == items[i].position;
        assert items[k] == read[k];
      }
    }
  }

  /** Second loop: segments, with the positions taken in each journey. */
  method ReadSegments(raws: seq<RawRecord<SegmentMembers>>, journeys: seq<Journey>, journeyIds: set<string>,
      parseable: string -> bool)
    returns (r: Option<seq<Segment>>)
    requires forall id :: id in journeyIds <==> HasJourney(journeys, id)
    ensures match r
            case Some(items) => DecodesSegments(raws, items) && GoodSegments(items, journeys, parseable)
            case None => forall items :: DecodesSegments(raws, items) ==> !GoodSegments(items, journeys, parseable)
  {
    hide ValidSegment, DecodeSegment, HasJourney, TakenPosition, HasSegment, DistinctPositions, DistinctSegments;
    var items: seq<Segment> := [];
    var ids: set<string> := {};
    var positions: map<string, set<int>> := map[];
    NothingTaken();
    for i := 0 to |raws|
      invariant DecodesSegments(raws[..i], items) && GoodSegments(items, journeys, parseable)
      invariant forall id :: id in ids <==> HasSegment(items, id)
      invariant Tracks(positions, items)
    {
      var item := DecodeSegment(raws[i]);
      if item.None? || !ValidSegment(item.value, parseable) || item.value.id in ids ||
          item.value.journeyId !in journeyIds ||
         (item.value.journeyId in positions && item.value.position in positions[item.value.journeyId]) {
        ReadSegmentsFails(raws, items, i, journeys, parseable);
        return None;
      }
      var s := item.value;
      SegmentAppend(items, s);
      SegmentDistinct(items, s);
      var taken := if s.journeyId in positions then positions[s.journeyId] else {};
      positions := positions[s.journeyId := taken + {s.position}];
      items, ids := items + [s], ids + {s.id};
    }
    assert raws[..|raws|] == raws;
    r := Some(items);
  }

  lemma NothingTaken()
    ensures Tracks(map[], []) && forall id :: !HasSegment([], id)
    ensures DistinctPositions([]) && DistinctSegments([])
  {
  }

  lemma SegmentDistinct(items: seq<Segment>, s: Segment)
    requires DistinctSegments(items) && DistinctPositions(items)
    requires !HasSegment(items, s.id) && !TakenPosition(items, s.journeyId, s.position)
    ensures DistinctSegments(items + [s]) && DistinctPositions(items + [s])
  {
  }

  predicate HasPacking(packing: seq<PackingItem>, id: string) {
    exists i | 0 <= i < |packing| :: packing[i].id == id
  }

  lemma ReadPackingFails(raws: seq<RawRecord<PackingMembers>>, read: seq<PackingItem>, i: nat, journeys: seq<Journey>,
      parseable: string -> bool)
    requires i < |raws| && DecodesPacking(raws[..i], read)
    requires var item := DecodePacking(raws[i]);
             || item.None? || !ValidPacking(item.value, parseable) || !HasJourney(journeys, item.value.journeyId)
             || HasPacking(read, item.value.id)
    ensures forall items :: DecodesPacking(raws, items) ==> !GoodPacking(items, journeys, parseable)
  {
    hide ValidPacking, DecodePacking, HasJourney;
    forall items: seq<PackingItem> | DecodesPacking(raws, items) ensures !GoodPacking(items, journeys, parseable) {
      assert forall k :: 0 <= k < i ==> raws[..i][k] == raws[k];
      assert DecodePacking(raws[i]) == Some(items[i]);
      if HasPacking(read, items[i].id) {
        var k :| 0 <= k < |read| && read[k].id == items[i].id;
        assert items[k] == read[k];
      }
    }
  }

  lemma PackingAppend(items: seq<PackingItem>, item: PackingItem)
    ensures forall id :: HasPacking(items + [item], id) <==> HasPacking(items, id) || id == item.id
    ensures DistinctPacking(items) && !HasPacking(items, item.id) ==> DistinctPacking(items + [item])
  {
    assert (items + [item])[|items|] == item;
    forall id ensures HasPacking(items + [item], id) <==> HasPacking(items, id) || id == item.id {
      if HasPacking(items, id) {
        var i :| 0 <= i < |items| && items[i].id == id;
        assert (items + [item])[i].id == id;
      }
    }
  }

  /** Third loop: packing items. */
  method ReadPacking(raws: seq<RawRecord<PackingMembers>>, journeys: seq<Journey>, journeyIds: set<string>,
      parseable: string -> bool)
    returns (r: Option<seq<PackingItem>>)
    requires forall id :: id in journeyIds <==> HasJourney(journeys, id)
    ensures match r
            case Some(items) => DecodesPacking(raws, items) && GoodPacking(items, journeys, parseable)
            case None => forall items :: DecodesPacking(raws, items) ==> !GoodPacking(items, journeys, parseable)
  {
    hide ValidPacking, DecodePacking, HasJourney, HasPacking, DistinctPacking;
    var items: seq<PackingItem> := [];
    var ids: set<string> := {};
    NothingPacked();
    for i := 0 to |raws|
      invariant DecodesPacking(raws[..i], items) && GoodPacking(items, journeys, parseable)
      invariant forall id :: id in ids <==> HasPacking(items, id)
    {
      var item := DecodePacking(raws[i]);
      if item.None? || !ValidPacking(item.value, parseable) || item.value.id in ids ||
          item.value.journeyId !in journeyIds {
        ReadPackingFails(raws, items, i, journeys, parseable);
        return None;
      }
      PackingAppend(items, item.value);
      items, ids := items + [item.value], ids + {item.value.id};
    }
    assert raws[..|raws|] == raws;
    r := Some(items);
  }

  lemma NothingPacked()
    ensures DistinctPacking([]) && forall id :: !HasPacking([], id)
  {
  }

  ghost predicate Decodes(raw: RawRecord<DataMembers>, data: JourneyData) {
    && raw.Record? && raw.members.schemaVersion == Some(JNum(1))
    && raw.members.journeys.Items? && DecodesJourneys(raw.members.journeys.items, data.journeys)
    && raw.members.segments.Items? && DecodesSegments(raw.members.segments.items, data.segments)
    && raw.members.packing.Items? && DecodesPacking(raw.members.packing.items, data.packing)
  }

  /** parseJourneyData: returns data exactly when the value decodes to accepted data, and then that data. */
  method ParseJourneyData(raw: RawRecord<DataMembers>, parseable: string -> bool) returns (r: Option<JourneyData>)
    ensures r.Some? ==> Decodes(raw, r.value) && Accepted(r.value, parseable)
    ensures r.None? ==> forall data :: Decodes(raw, data) ==> !Accepted(data, parseable)
  {
    hide Accepted, GoodJourneys, GoodSegments, GoodPacking;
    forall data {
      AcceptedParts(data, parseable);
    }
    if raw.NotARecord? || raw.members.schemaVersion != Some(JNum(1)) || raw.members.journeys.NotAList? ||
       raw.members.segments.NotAList? || raw.members.packing.NotAList? {
      return None;
    }
    var journeys, ids := ReadJourneys(raw.members.journeys.items, parseable);
    if journeys.None? {
      return None;
    }
    var segments := ReadSegments(raw.members.segments.items, journeys.value, ids, parseable);
    if segments.None? {
      OneDecoding(raw.members.journeys.items, journeys.value);
      return None;
    }
    var packing := ReadPacking(raw.members.packing.items, journeys.value, ids, parseable);
    if packing.None? {
      OneDecoding(raw.members.journeys.items, journeys.value);
      return None;
    }
    return Some(JourneyData(journeys.value, segments.value, packing.value));
  }

  lemma OneDecoding(raws: seq<RawRecord<JourneyMembers>>, items: seq<Journey>)
    requires DecodesJourneys(raws, items)
    ensures forall others :: DecodesJourneys(raws, others) ==> others == items
  {
    hide DecodeJourney;
    forall others | DecodesJourneys(raws, others) ensures others == items {
      assert forall i :: 0 <= i < |raws| ==> others[i] == items[i];
    }
  }
}
