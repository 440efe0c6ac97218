/** JSON values as JSON.parse delivers them, and the UTF-8 byte lengths JSON.stringify produces. */
module Json {
  import opened Basics

  const MAX_SAFE_INTEGER := 9_007_199_254_740_991

  /** JFrac is a number that is not an integer. */
  datatype Json =
    | JNull
    | JBool(b: bool)
    | JNum(n: int)
    | JFrac(r: real)
    | JStr(s: string)
    | JArr(items: seq<Json>)
    | JObj(fields: map<string, Json>)

  predicate SafeInteger(n: int) {
    -MAX_SAFE_INTEGER <= n <= MAX_SAFE_INTEGER
  }

  function Field(value: Json, key: string): Option<Json> {
    if value.JObj? && key in value.fields then Some(value.fields[key]) else None
  }

  function Digit(d: nat): char
    requires d < 10
  {
    "0123456789"[d]
  }

  function Decimal(n: int): string
    decreases if n < 0 then 1 - n else n
  {
    if n < 0 then "-" + Decimal(-n)
    else if n < 10 then [Digit(n)]
    else Decimal(n / 10) + [Digit(n % 10)]
  }

  /** ECMAScript `String(value)`. */
  function JsString(value: Json): string
    decreases value
  {
    match value
    case JNull => "null"
    case JBool(b) => if b then "true" else "false"
    case JNum(n) => Decimal(n)
    case JFrac(_) => "fraction"
    case JStr(s) => s
    case JArr(items) => JoinItems(items)
    case JObj(_) => "[object Object]"
  }

  /** Array.prototype.join with a comma; a null item joins as the empty string. */
  function JoinItems(items: seq<Json>): string
    decreases items
  {
    if items == [] then ""
    else
      var head := if items[0].JNull? then "" else JsString(items[0]);
      if |items| == 1 then head else head + "," + JoinItems(items[1..])
  }

  /** UTF-16 code units, which is what a string's `length` counts. */
  function Utf16Length(s: string): nat {
    if s == "" then 0 else (if s[0] as int >= 0x1_0000 then 2 else 1) + Utf16Length(s[1..])
  }

  /** Bytes of one character inside a JSON string literal encoded as UTF-8. */
  function CharBytes(c: char): nat {
    if c == '"' || c == '\\' then 2
    else if c as int in {8, 9, 10, 12, 13} then 2
    else if c as int < 0x20 then 6
    else if c as int < 0x80 then 1
    else if c as int < 0x800 then 2
    else if c as int < 0x1_0000 then 3
    else 4
  }

  function ContentBytes(s: string): nat {
    if s == "" then 0 else CharBytes(s[0]) + ContentBytes(s[1..])
  }

  function StringBytes(s: string): nat {
    2 + ContentBytes(s)
  }

  function NullableStringBytes(s: Option<string>): nat {
    match s
    case None => 4
    case Some(text) => StringBytes(text)
  }

  function NumberBytes(n: int): nat {
    |Decimal(n)|
  }

  /** Bytes of `"key":value` for a key that needs no escaping. */
  function Member(key: string, valueBytes: nat): nat {
    |key| + 3 + valueBytes
  }

  predicate Plain(s: string) {
    forall i :: 0 <= i < |s| ==> CharBytes(s[i]) == 1
  }

  /** Unescaped ASCII text costs one byte a character. */
  lemma {:induction false} PlainBytes(s: string)
    requires Plain(s)
    ensures ContentBytes(s) == |s|
  {
    if s != "" {
      PlainBytes(s[1..]);
    }
  }

  lemma {:induction false} DecimalLength(n: nat, digits: nat, bound: nat)
    requires 1 <= digits <= 17
    requires bound == Pow10(digits)
    requires n < bound
    ensures 1 <= |Decimal(n)| <= digits
  {
    if n >= 10 {
      DecimalLength(n / 10, digits - 1, Pow10(digits - 1));
    }
  }

  function Pow10(e: nat): (r: nat)
    ensures r >= 1
  {
    if e == 0 then 1 else 10 * Pow10(e - 1)
  }

  lemma SafeIntegerDigits(n: nat)
    requires SafeInteger(n)
    ensures 1 <= NumberBytes(n) <= 16
  {
    assert Pow10(16) == 10_000_000_000_000_000 by {
      assert Pow10(4) == 10_000;
      assert Pow10(8) == 100_000_000;
      assert Pow10(12) == 1_000_000_000_000;
    }
    DecimalLength(n, 16, Pow10(16));
  }

  /** Fewer than five extra digits: every number up to 65,536 prints no longer than 65,536. */
  lemma ReservationDigits(n: nat)
    requires n <= 65_536
    ensures 1 <= NumberBytes(n) <= NumberBytes(65_536) == 5
  {
    assert Pow10(5) == 100_000;
    DecimalLength(n, 5, Pow10(5));
    assert Decimal(65_536) == Decimal(6_553) + [Digit(6)];
    assert Decimal(6_553) == Decimal(655) + [Digit(3)];
    assert Decimal(655) == Decimal(65) + [Digit(5)];
    assert Decimal(65) == Decimal(6) + [Digit(5)];
  }
}
