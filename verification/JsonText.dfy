/** JSON as Python's `json` and pydantic's serializer read and write it.
    Numbers keep their source text: float arithmetic is not part of this model. */
module JsonText {
  import opened Basics

  datatype Json =
    | Null
    | Bool(value: bool)
    | Num(lexeme: string)
    | Str(text: string)
    | Arr(items: seq<Json>)
    | Obj(fields: seq<(string, Json)>)

  // ---------------------------------------------------------------- characters

  predicate IsDigit(c: char) { '0' <= c <= '9' }

  predicate IsJsonSpace(c: char) { c == ' ' || c == '\t' || c == '\n' || c == '\r' }

  /** The characters that `str.strip()` removes. */
  predicate IsSpace(c: char) {
    var n := c as int;
    || 0x09 <= n <= 0x0d || 0x1c <= n <= 0x20 || n == 0x85 || n == 0xa0 || n == 0x1680
    || 0x2000 <= n <= 0x200a || n == 0x2028 || n == 0x2029 || n == 0x202f || n == 0x205f || n == 0x3000
  }

  function Strip(s: string): (r: string)
    ensures |r| <= |s|
  {
    if s == "" then s
    else if IsSpace(s[0]) then Strip(s[1..])
    else if IsSpace(s[|s| - 1]) then Strip(s[..|s| - 1])
    else s
  }

  function HexDigit(n: int): (c: char)
    requires 0 <= n < 16
    ensures HexValue(c) == Some(n)
    ensures '0' <= c <= '9' || 'a' <= c <= 'f'
  {
    "0123456789abcdef"[n]
  }

  function HexValue(c: char): (r: Option<int>)
    ensures r.Some? ==> 0 <= r.value < 16
  {
    if '0' <= c <= '9' then Some(c as int - '0' as int)
    else if 'a' <= c <= 'f' then Some(c as int - 'a' as int + 10)
    else if 'A' <= c <= 'F' then Some(c as int - 'A' as int + 10)
    else None
  }

  // ------------------------------------------------------------------- writing

  /** pydantic's compact form, and that of `json.dumps`, which puts a space after a comma and after
      a colon and writes ASCII only. */
  datatype Style = Compact | Spaced

  /** A 16-bit code unit as an escape sequence. */
  function UnitEscape(n: int): (e: string)
    requires 0 <= n < 0x10000
    ensures |e| == 6 && e[0] == '\\' && e[1] == 'u'
  {
    "\\u" + [HexDigit(n / 0x1000), HexDigit(n / 0x100 % 0x10), HexDigit(n / 0x10 % 0x10), HexDigit(n % 0x10)]
  }

  /** A character beyond the 16-bit range becomes a surrogate pair. */
  function HighUnit(n: int): (u: int)
    requires 0x10000 <= n < 0x110000
    ensures 0xd800 <= u < 0xdc00
  {
    0xd800 + (n - 0x10000) / 0x400
  }

  function LowUnit(n: int): (u: int)
    requires 0x10000 <= n < 0x110000
    ensures 0xdc00 <= u < 0xe000
  {
    0xdc00 + (n - 0x10000) % 0x400
  }

  function EscapeChar(st: Style, c: char): string {
    if c == '\"' then "\\\""
    else if c == '\\' then "\\\\"
    else if c as int == 8 then "\\b"
    else if c as int == 12 then "\\f"
    else if c == '\n' then "\\n"
    else if c == '\r' then "\\r"
    else if c == '\t' then "\\t"
    else if c as int < 0x20 then UnitEscape(c as int)
    else if st.Compact? || c <= '~' then [c]
    else if c as int < 0x10000 then UnitEscape(c as int)
    else UnitEscape(HighUnit(c as int)) + UnitEscape(LowUnit(c as int))
  }

  function Escape(st: Style, text: string): string {
    if text == "" then "" else EscapeChar(st, text[0]) + Escape(st, text[1..])
  }

  function Quote(st: Style, text: string): string { "\"" + Escape(st, text) + "\"" }

  /** Decimal digits of a natural number, as Python prints an `int`. */
  function Decimal(n: nat): (s: string)
    ensures s != ""
    ensures forall c | c in s :: IsDigit(c)
    ensures |s| > 1 ==> s[0] != '0'
  {
    var digit := ('0' as int + n % 10) as char;
    if n < 10 then [digit] else Decimal(n / 10) + [digit]
  }

  function DecimalValue(s: string): nat
    requires forall c | c in s :: IsDigit(c)
  {
    if s == "" then 0
    else
      assert IsDigit(s[|s| - 1]);
      10 * DecimalValue(s[..|s| - 1]) + (s[|s| - 1] as int - '0' as int)
  }

  lemma {:induction false} DecimalRoundTrip(n: nat)
    ensures DecimalValue(Decimal(n)) == n
  {
    var s := Decimal(n);
    if n >= 10 {
      DecimalRoundTrip(n / 10);
      assert s[..|s| - 1] == Decimal(n / 10);
    } else {
      assert s[..|s| - 1] == "";
    }
  }

  // ------------------------------------------------------------------- reading

  function SkipSpace(s: string): (r: string)
    ensures |r| <= |s|
  {
    if s != "" && IsJsonSpace(s[0]) then SkipSpace(s[1..]) else s
  }

  /** Four hexadecimal digits at the head of `s`. */
  function ReadHex4(s: string): (r: Option<int>)
    ensures r.Some? ==> |s| >= 4 && 0 <= r.value < 0x10000
  {
    if |s| < 4 then None
    else match (HexValue(s[0]), HexValue(s[1]), HexValue(s[2]), HexValue(s[3]))
      case (Some(a), Some(b), Some(c), Some(d)) => Some(0x1000 * a + 0x100 * b + 0x10 * c + d)
      case _ => None
  }

  /** One escape sequence, `s` starting after the backslash. A surrogate that is not part of a
      pair has no character here and is refused. */
  function ReadEscape(s: string): (r: Option<(char, string)>)
    ensures r.Some? ==> |r.value.1| < |s|
  {
    if s == "" then None
    else match s[0]
      case '\"' => Some(('\"', s[1..]))
      case '\\' => Some(('\\', s[1..]))
      case '/' => Some(('/', s[1..]))
      case 'b' => Some((8 as char, s[1..]))
      case 'f' => Some((12 as char, s[1..]))
      case 'n' => Some(('\n', s[1..]))
      case 'r' => Some(('\r', s[1..]))
      case 't' => Some(('\t', s[1..]))
      case 'u' =>
        (match ReadHex4(s[1..])
         case None => None
         case Some(hi) =>
           var rest := s[5..];
           if hi < 0xd800 || 0xe000 <= hi then Some((hi as char, rest))
           else if hi < 0xdc00 && |rest| >= 6 && rest[..2] == "\\u" then
             (match ReadHex4(rest[2..])
              case Some(lo) =>
                if 0xdc00 <= lo < 0xe000 then
                  Some(((0x10000 + 0x400 * (hi - 0xd800) + (lo - 0xdc00)) as char, rest[6..]))
                else None
              case None => None)
           else None)
      case _ => None
  }

  /** The rest of a string literal, `s` starting after the opening quote. */
  function ReadString(s: string): (r: Option<(string, string)>)
    ensures r.Some? ==> |r.value.1| < |s|
    decreases |s|
  {
    if s == "" || s[0] as int < 0x20 then None
    else if s[0] == '\"' then Some(("", s[1..]))
    else if s[0] == '\\' then
      match ReadEscape(s[1..])
      case None => None
      case Some((c, rest)) =>
        (match ReadString(rest)
         case None => None
         case Some((tail, rest')) => Some(([c] + tail, rest')))
    else
      match ReadString(s[1..])
      case None => None
      case Some((tail, rest)) => Some(([s[0]] + tail, rest))
  }

  function DigitRun(s: string): (k: nat)
    ensures k <= |s|
    ensures forall i | 0 <= i < k :: IsDigit(s[i])
    ensures k < |s| ==> !IsDigit(s[k])
  {
    if s != "" && IsDigit(s[0]) then 1 + DigitRun(s[1..]) else 0
  }

  predicate IsNumberChar(c: char) { IsDigit(c) || c in ".eE+-" }

  /** `s` starts with `k` characters of a number. */
  predicate NumberChars(s: string, k: nat) {
    k <= |s| && forall i | 0 <= i < k :: IsNumberChar(s[i])
  }

  lemma NumberCharsJoin(s: string, a: nat, b: nat)
    requires NumberChars(s, a) && NumberChars(s[a..], b)
    ensures NumberChars(s, a + b)
  {
    forall i | a <= i < a + b
      ensures IsNumberChar(s[i])
    {
      assert s[i] == s[a..][i - a];
    }
  }

  /** A number literal is read part by part; each length is 0 if the part is not there. */
  function FractionLength(s: string): (k: nat)
    ensures NumberChars(s, k)
  {
    if s == "" || s[0] != '.' then 0
    else
      var run := DigitRun(s[1..]);
      NumberCharsJoin(s, 1, run);
      if run > 0 then 1 + run else 0
  }

  function SignedDigits(s: string): (k: nat)
    ensures NumberChars(s, k)
  {
    if s == "" || (s[0] != '+' && s[0] != '-') then DigitRun(s)
    else
      var run := DigitRun(s[1..]);
      NumberCharsJoin(s, 1, run);
      if run > 0 then 1 + run else 0
  }

  function ExponentLength(s: string): (k: nat)
    ensures NumberChars(s, k)
  {
    if s == "" || (s[0] != 'e' && s[0] != 'E') then 0
    else
      var k := SignedDigits(s[1..]);
      NumberCharsJoin(s, 1, k);
      if k > 0 then 1 + k else 0
  }

  function WholeLength(s: string): (k: nat)
    ensures NumberChars(s, k)
    ensures k > 0 ==> IsDigit(s[0])
  {
    if s != "" && s[0] == '0' then 1 else DigitRun(s)
  }

  /** Fraction and exponent. */
  function TailLength(s: string): (k: nat)
    ensures NumberChars(s, k)
  {
    var a := FractionLength(s);
    var b := ExponentLength(s[a..]);
    NumberCharsJoin(s, a, b);
    a + b
  }

  function MagnitudeLength(s: string): (k: nat)
    ensures NumberChars(s, k)
    ensures k > 0 ==> IsDigit(s[0])
  {
    var a := WholeLength(s);
    if a == 0 then 0
    else
      var b := TailLength(s[a..]);
      NumberCharsJoin(s, a, b);
      a + b
  }

  /** Length of the number literal at the head of `s`. */
  function NumberLength(s: string): (k: nat)
    ensures NumberChars(s, k)
    ensures k > 0 ==> s[0] == '-' || IsDigit(s[0])
  {
    if s == "" || s[0] != '-' then MagnitudeLength(s)
    else
      var k := MagnitudeLength(s[1..]);
      NumberCharsJoin(s, 1, k);
      if k > 0 then 1 + k else 0
  }

  function ReadWord(s: string, word: string, v: Json): (r: Option<(Json, string)>)
    requires word != ""
    ensures r.Some? ==> |r.value.1| < |s|
  {
    if word <= s then Some((v, s[|word|..])) else None
  }

  function ReadValue(s: string): (r: Option<(Json, string)>)
    ensures r.Some? ==> |r.value.1| < |s|
    decreases |s|, 0
  {
    if s == "" then None
    else if s[0] == '\"' then
      match ReadString(s[1..])
      case None => None
      case Some((text, rest)) => Some((Str(text), rest))
    else if s[0] == '{' then
      var t := SkipSpace(s[1..]);
      if t != "" && t[0] == '}' then Some((Obj([]), t[1..]))
      else
        match ReadMembers(t)
        case None => None
        case Some((fields, rest)) => Some((Obj(fields), rest))
    else if s[0] == '[' then
      var t := SkipSpace(s[1..]);
      if t != "" && t[0] == ']' then Some((Arr([]), t[1..]))
      else
        match ReadItems(t)
        case None => None
        case Some((items, rest)) => Some((Arr(items), rest))
    else if s[0] == 'n' then ReadWord(s, "null", Null)
    else if s[0] == 't' then ReadWord(s, "true", Bool(true))
    else if s[0] == 'f' then ReadWord(s, "false", Bool(false))
    else if NumberLength(s) > 0 then Some((Num(s[..NumberLength(s)]), s[NumberLength(s)..]))
    else if s[0] == 'N' then ReadWord(s, "NaN", Num("NaN"))
    else if s[0] == 'I' then ReadWord(s, "Infinity", Num("Infinity"))
    else if s[0] == '-' then ReadWord(s, "-Infinity", Num("-Infinity"))
    else None
  }

  /** One or more array items and the closing bracket. */
  function ReadItems(s: string): (r: Option<(seq<Json>, string)>)
    ensures r.Some? ==> |r.value.1| < |s|
    decreases |s|, 1
  {
    match ReadValue(s)
    case None => None
    case Some((v, rest)) =>
      var t := SkipSpace(rest);
      if t == "" then None
      else if t[0] == ']' then Some(([v], t[1..]))
      else if t[0] != ',' then None
      else
        (match ReadItems(SkipSpace(t[1..]))
         case None => None
         case Some((vs, rest')) => Some(([v] + vs, rest')))
  }

  /** One `"key": value` member and what follows it. */
  function ReadMember(s: string): (r: Option<((string, Json), string)>)
    ensures r.Some? ==> |r.value.1| < |s|
    decreases |s|, 1
  {
    if s == "" || s[0] != '\"' then None
    else
      match ReadString(s[1..])
      case None => None
      case Some((key, rest)) =>
        var t := SkipSpace(rest);
        if t == "" || t[0] != ':' then None
        else
          (match ReadValue(SkipSpace(t[1..]))
           case None => None
           case Some((v, rest')) => Some(((key, v), rest')))
  }

  /** One or more members and the closing brace. */
  function ReadMembers(s: string): (r: Option<(seq<(string, Json)>, string)>)
    ensures r.Some? ==> |r.value.1| < |s|
    decreases |s|, 2
  {
    match ReadMember(s)
    case None => None
    case Some((member, rest)) =>
      var t := SkipSpace(rest);
      if t == "" then None
      else if t[0] == '}' then Some(([member], t[1..]))
      else if t[0] != ',' then None
      else
        (match ReadMembers(SkipSpace(t[1..]))
         case None => None
         case Some((members, rest')) => Some(([member] + members, rest')))
  }

  /** `json.loads`: `None` stands for a `JSONDecodeError`. */
  function Loads(s: string): Option<Json> {
    match ReadValue(SkipSpace(s))
    case Some((v, rest)) => if SkipSpace(rest) == "" then Some(v) else None
    case None => None
  }

  // ------------------------------------------------- Python's view of a value

  function DigitsOf(s: string): (d: string)
    ensures forall c | c in d :: IsDigit(c)
  {
    if s == "" then "" else (if IsDigit(s[0]) then [s[0]] else "") + DigitsOf(s[1..])
  }

  /** Where a number's exponent, or its fraction, begins. */
  function Until(s: string, marks: string): (k: nat)
    ensures k <= |s|
  {
    if s == "" || s[0] in marks then 0 else 1 + Until(s[1..], marks)
  }

  function Pow(base: nat, n: nat): nat {
    if n == 0 then 1 else base * Pow(base, n - 1)
  }

  /** Whether Python's number is zero: all digits before the exponent are, or the value is at most
      half of the smallest float, 2 to the power of -1075, and becomes 0.0. */
  predicate IsZero(lexeme: string) {
    var k := Until(lexeme, "eE");
    var head, exponent := lexeme[..k], lexeme[k..];
    var mantissa := DecimalValue(DigitsOf(head));
    var places := |DigitsOf(head[Until(head, ".")..])|;
    var power := DecimalValue(DigitsOf(exponent));
    var shift := if |exponent| > 1 && exponent[1] == '-' then places + power else places - power;
    NumberLength(lexeme) > 0 && (mantissa == 0 || (shift > 0 && mantissa * Pow(2, 1075) <= Pow(10, shift)))
  }

  predicate Truthy(v: Json) {
    match v
    case Null => false
    case Bool(b) => b
    case Num(lexeme) => !IsZero(lexeme)
    case Str(text) => text != ""
    case Arr(items) => items != []
    case Obj(fields) => fields != []
  }

  /** The value a key stands for: of two equal keys the later one counts. */
  function Lookup(fields: seq<(string, Json)>, key: string): Option<Json> {
    if fields == [] then None
    else if fields[|fields| - 1].0 == key then Some(fields[|fields| - 1].1)
    else Lookup(fields[..|fields| - 1], key)
  }

  /** A key that occurs has the value it was given last. */
  lemma {:induction false} LookupIsLast(fields: seq<(string, Json)>, key: string)
    ensures Lookup(fields, key) == None <==> forall i | 0 <= i < |fields| :: fields[i].0 != key
    ensures Lookup(fields, key).Some? ==> exists i | 0 <= i < |fields| ::
      fields[i] == (key, Lookup(fields, key).value) && forall k | i < k < |fields| :: fields[k].0 != key
  {
    if fields != [] {
      var n := |fields| - 1;
      LookupIsLast(fields[..n], key);
      if fields[n].0 == key {
        assert fields[n] == (key, Lookup(fields, key).value);
      }
    }
  }

  predicate AllSpace(s: string) { forall i | 0 <= i < |s| :: IsSpace(s[i]) }

  lemma MoreSpace(s: string, c: char)
    requires AllSpace(s) && IsSpace(c)
    ensures AllSpace([c] + s) && AllSpace(s + [c])
  {
    hide IsSpace;
  }

  /** `Strip` takes the spaces off both ends, and nothing else. */
  lemma {:induction false} StripIsExact(s: string) returns (l: string, r: string)
    ensures s == l + Strip(s) + r && AllSpace(l) && AllSpace(r)
    ensures Strip(s) != "" ==> !IsSpace(Strip(s)[0]) && !IsSpace(Strip(s)[|Strip(s)| - 1])
    decreases |s|
  {
    hide IsSpace, AllSpace;
    NoSpace();
    if s == "" {
      l, r := "", "";
    } else if IsSpace(s[0]) {
      var l', r' := StripIsExact(s[1..]);
      MoreSpace(l', s[0]);
      l, r := [s[0]] + l', r';
    } else if IsSpace(s[|s| - 1]) {
      var n := |s| - 1;
      var l', r' := StripIsExact(s[..n]);
      MoreSpace(r', s[n]);
      l, r := l', r' + [s[n]];
      assert s == s[..n] + [s[n]];
    } else {
      l, r := "", "";
    }
  }

  lemma NoSpace()
    ensures AllSpace("")
  {
  }

  predicate Occurs(needle: string, hay: string) {
    needle <= hay || (hay != "" && Occurs(needle, hay[1..]))
  }

  lemma {:induction false} OccursIsExact(needle: string, hay: string)
    ensures Occurs(needle, hay) <==> exists k :: 0 <= k <= |hay| && needle <= hay[k..]
  {
    assert hay[0..] == hay;
    if needle <= hay {
      assert needle <= hay[0..];
    } else if hay != "" {
      OccursIsExact(needle, hay[1..]);
      forall k | 0 <= k <= |hay| - 1
        ensures hay[1..][k..] == hay[k + 1..]
      {
      }
      forall k | 0 <= k <= |hay| && needle <= hay[k..]
        ensures k > 0 && needle <= hay[1..][k - 1..]
      {
      }
    }
  }

  /** `key in v`; `None` stands for a `TypeError`. */
  function Contains(v: Json, key: string): Option<bool> {
    match v
    case Obj(fields) => Some(Lookup(fields, key).Some?)
    case Arr(items) => Some(Str(key) in items)
    case Str(text) => Some(Occurs(key, text))
    case _ => None
  }

  /** `v[key]` for a string key; `None` stands for a `TypeError` or `KeyError`. */
  function Index(v: Json, key: string): Option<Json> {
    if v.Obj? then Lookup(v.fields, key) else None
  }

  /** `v[0]`; `None` stands for an exception. */
  function First(v: Json): Option<Json> {
    match v
    case Arr(items) => if items == [] then None else Some(items[0])
    case Str(text) => if text == "" then None else Some(Str(text[..1]))
    case _ => None
  }
}
