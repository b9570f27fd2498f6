/** What a JSON text of a value is (RFC 8259), with Python's three extra numbers, said without any
    reader: spaces, escapes and exponents as the writer likes. */
module JsonGrammar {
  import opened JsonText

  // ------------------------------------------------------- numbers (section 6)

  predicate Digits(s: string) {
    s != "" && forall i | 0 <= i < |s| :: '0' <= s[i] <= '9'
  }

  /** No leading zero. */
  predicate Whole(s: string) { Digits(s) && (|s| > 1 ==> s[0] != '0') }

  predicate Fraction(s: string) { s == "" || (s[0] == '.' && Digits(s[1..])) }

  predicate Exponent(s: string) {
    || s == ""
    || ((s[0] == 'e' || s[0] == 'E')
        && (Digits(s[1..]) || (|s| > 1 && (s[1] == '+' || s[1] == '-') && Digits(s[2..]))))
  }

  function Unsigned(s: string): string { if s != "" && s[0] == '-' then s[1..] else s }

  /** `a` and `b` are where the fraction and the exponent begin. */
  predicate NumberParts(s: string, a: nat, b: nat) {
    a <= b <= |s| && Whole(Unsigned(s[..a])) && Fraction(s[a..b]) && Exponent(s[b..])
  }

  predicate JsonNumber(s: string) {
    exists a: nat, b: nat | a <= |s| && b <= |s| :: NumberParts(s, a, b)
  }

  /** A number as JSON (and Python) spells it. */
  predicate IsNumeral(lexeme: string) {
    JsonNumber(lexeme) || lexeme == "NaN" || lexeme == "Infinity" || lexeme == "-Infinity"
  }

  // ------------------------------------------------------- strings (section 7)

  function Hex(c: char): int {
    if '0' <= c <= '9' then c as int - 48
    else if 'a' <= c <= 'f' then c as int - 87
    else if 'A' <= c <= 'F' then c as int - 55
    else -1
  }

  /** `\u` and four hexadecimal digits. */
  predicate SpellsUnit(s: string, n: int) {
    && |s| == 6 && s[0] == '\\' && s[1] == 'u'
    && Hex(s[2]) >= 0 && Hex(s[3]) >= 0 && Hex(s[4]) >= 0 && Hex(s[5]) >= 0
    && n == 4096 * Hex(s[2]) + 256 * Hex(s[3]) + 16 * Hex(s[4]) + Hex(s[5])
  }

  predicate SpellsShort(e: char, c: char) {
    || (e == '\"' && c == '\"') || (e == '\\' && c == '\\') || (e == '/' && c == '/')
    || (e == 'b' && c as int == 8) || (e == 'f' && c as int == 12) || (e == 'n' && c as int == 10)
    || (e == 'r' && c as int == 13) || (e == 't' && c as int == 9)
  }

  /** One character: itself, or one of its escapes. */
  predicate SpellsChar(s: string, c: char) {
    || (s == [c] && c as int >= 0x20 && c != '\"' && c != '\\')
    || (|s| == 2 && s[0] == '\\' && SpellsShort(s[1], c))
    || SpellsUnit(s, c as int)
    || (|s| == 12 && c as int >= 0x10000
        && SpellsUnit(s[..6], 0xd800 + (c as int - 0x10000) / 0x400)
        && SpellsUnit(s[6..], 0xdc00 + (c as int - 0x10000) % 0x400))
  }

  predicate SpellsText(s: string, text: string)
    decreases |text|
  {
    if text == "" then s == ""
    else exists k: nat | k <= |s| :: k > 0 && SpellsChar(s[..k], text[0]) && SpellsText(s[k..], text[1..])
  }

  predicate SpellsString(s: string, text: string) {
    |s| >= 2 && s[0] == '\"' && s[|s| - 1] == '\"' && SpellsText(s[1..|s| - 1], text)
  }

  // ------------------------------------------------------------- values (sections 2 to 5)

  predicate Spaces(s: string) {
    forall i | 0 <= i < |s| :: s[i] == ' ' || s[i] == '\t' || s[i] == '\n' || s[i] == '\r'
  }

  /** A text of the value, with spaces around it. */
  ghost predicate Spells(s: string, v: Json)
    decreases v, 1
  {
    exists l, m, r :: s == l + m + r && Spaces(l) && SpellsBare(m, v) && Spaces(r)
  }

  ghost predicate SpellsBare(s: string, v: Json)
    decreases v, 0
  {
    match v
    case Null => s == "null"
    case Bool(b) => s == if b then "true" else "false"
    case Num(lexeme) => s == lexeme && IsNumeral(lexeme)
    case Str(text) => SpellsString(s, text)
    case Arr(items) =>
      && |s| >= 2 && s[0] == '[' && s[|s| - 1] == ']'
      && if items == [] then Spaces(s[1..|s| - 1]) else SpellsItems(s[1..|s| - 1], items)
    case Obj(fields) =>
      && |s| >= 2 && s[0] == '{' && s[|s| - 1] == '}'
      && if fields == [] then Spaces(s[1..|s| - 1]) else SpellsMembers(s[1..|s| - 1], fields)
  }

  ghost predicate SpellsItems(s: string, items: seq<Json>)
    requires items != []
    decreases items, 0
  {
    if |items| == 1 then Spells(s, items[0])
    else exists a, b :: s == a + "," + b && Spells(a, items[0]) && SpellsItems(b, items[1..])
  }

  ghost predicate SpellsMember(s: string, m: (string, Json))
    decreases m, 0
  {
    exists l, key, r, value ::
      s == l + key + r + ":" + value && Spaces(l) && SpellsString(key, m.0) && Spaces(r) && Spells(value, m.1)
  }

  ghost predicate SpellsMembers(s: string, fields: seq<(string, Json)>)
    requires fields != []
    decreases fields, 0
  {
    if |fields| == 1 then SpellsMember(s, fields[0])
    else exists a, b :: s == a + "," + b && SpellsMember(a, fields[0]) && SpellsMembers(b, fields[1..])
  }
}
