/** Writing JSON and reading it back: for every value, `Loads` inverts both of the printing styles
    in use (section 7 of RFC 8259 for the strings). */
module JsonRoundTrip {
  import opened Basics
  import opened JsonText
  import opened JsonGrammar

  function Comma(st: Style): string { if st.Compact? then "," else ", " }
  function Colon(st: Style): string { if st.Compact? then ":" else ": " }

  function Print(st: Style, v: Json): string
    decreases v
  {
    match v
    case Null => "null"
    case Bool(b) => if b then "true" else "false"
    case Num(lexeme) => lexeme
    case Str(text) => Quote(st, text)
    case Arr(items) => "[" + PrintItems(st, items) + "]"
    case Obj(fields) => "{" + PrintMembers(st, fields) + "}"
  }

  function PrintItems(st: Style, items: seq<Json>): string
    decreases items
  {
    if items == [] then ""
    else if |items| == 1 then Print(st, items[0])
    else Print(st, items[0]) + Comma(st) + PrintItems(st, items[1..])
  }

  function PrintMember(st: Style, m: (string, Json)): string
    decreases m
  {
    Quote(st, m.0) + Colon(st) + Print(st, m.1)
  }

  function PrintMembers(st: Style, fields: seq<(string, Json)>): string
    decreases fields
  {
    if fields == [] then ""
    else if |fields| == 1 then PrintMember(st, fields[0])
    else PrintMember(st, fields[0]) + Comma(st) + PrintMembers(st, fields[1..])
  }

  /** How Python prints a float; any numeral will do here. */
  type FloatText = s: string | IsNumeral(s) witness "NaN"

  ghost predicate Printable(v: Json)
    decreases v
  {
    match v
    case Num(lexeme) => IsNumeral(lexeme)
    case Arr(items) => forall i | 0 <= i < |items| :: Printable(items[i])
    case Obj(fields) => forall i | 0 <= i < |fields| :: Printable(fields[i].1)
    case _ => true
  }

  // ------------------------------------------------------------------- strings

  /** What `ReadString` makes of one more character in front. */
  function Prepend(c: char, r: Option<(string, string)>): Option<(string, string)> {
    match r
    case None => None
    case Some((text, rest)) => Some(([c] + text, rest))
  }

  lemma UnitReads(n: int, tail: string)
    requires 0 <= n < 0x10000
    ensures ReadHex4((UnitEscape(n) + tail)[2..]) == Some(n) && (UnitEscape(n) + tail)[6..] == tail
  {
    var s := (UnitEscape(n) + tail)[2..];
    assert s[0] == HexDigit(n / 0x1000) && s[1] == HexDigit(n / 0x100 % 0x10);
    assert s[2] == HexDigit(n / 0x10 % 0x10) && s[3] == HexDigit(n % 0x10);
    HexDigits(n);
  }

  lemma HexDigits(n: int)
    requires 0 <= n < 0x10000
    ensures 0x1000 * (n / 0x1000) + 0x100 * (n / 0x100 % 0x10) + 0x10 * (n / 0x10 % 0x10) + n % 0x10 == n
  {
    assert n / 0x100 == n / 0x10 / 0x10 && n / 0x1000 == n / 0x100 / 0x10;
  }

  lemma UnitEscapeReads(c: char, tail: string)
    requires c as int < 0x10000
    ensures ReadEscape((UnitEscape(c as int) + tail)[1..]) == Some((c, tail))
  {
    hide UnitEscape, ReadHex4;
    var s := UnitEscape(c as int) + tail;
    UnitReads(c as int, tail);
    assert s[1..][1..] == s[2..] && s[1..][5..] == s[6..];
  }

  lemma PairEscapeReads(c: char, tail: string)
    requires c as int >= 0x10000
    ensures ReadEscape((UnitEscape(HighUnit(c as int)) + (UnitEscape(LowUnit(c as int)) + tail))[1..])
         == Some((c, tail))
  {
    hide UnitEscape, ReadHex4;
    var hi, lo := HighUnit(c as int), LowUnit(c as int);
    var rest := UnitEscape(lo) + tail;
    var s := UnitEscape(hi) + rest;
    UnitReads(hi, rest);
    UnitReads(lo, tail);
    assert s[1..][1..] == s[2..] && s[1..][5..] == s[6..];
    assert rest[..2] == "\\u";
  }

  /** `ReadString` on an escape sequence, given what `ReadEscape` makes of it. */
  lemma EscapeStep(s: string, c: char, tail: string)
    requires s != "" && s[0] == '\\' && ReadEscape(s[1..]) == Some((c, tail))
    ensures ReadString(s) == Prepend(c, ReadString(tail))
  {
    hide ReadEscape;
  }

  lemma ShortEscape(st: Style, c: char, tail: string)
    requires |EscapeChar(st, c)| == 2
    ensures ReadEscape([EscapeChar(st, c)[1]] + tail) == Some((c, tail))
  {
    assert ([EscapeChar(st, c)[1]] + tail)[1..] == tail;
  }

  lemma PlainChar(st: Style, c: char, tail: string)
    requires EscapeChar(st, c) == [c]
    ensures ReadString([c] + tail) == Prepend(c, ReadString(tail))
  {
    hide ReadEscape;
    assert ([c] + tail)[1..] == tail;
  }

  lemma EscapedCharReads(st: Style, c: char, tail: string)
    ensures ReadString(EscapeChar(st, c) + tail) == Prepend(c, ReadString(tail))
  {
    hide ReadString, ReadEscape, UnitEscape;
    var e := EscapeChar(st, c);
    var s := e + tail;
    if |e| == 1 {
      PlainChar(st, c, tail);
    } else if |e| == 2 {
      ShortEscape(st, c, tail);
      assert s[1..] == [e[1]] + tail;
      EscapeStep(s, c, tail);
    } else if |e| == 6 {
      UnitEscapeReads(c, tail);
      EscapeStep(s, c, tail);
    } else {
      PairEscapeReads(c, tail);
      assert s == UnitEscape(HighUnit(c as int)) + (UnitEscape(LowUnit(c as int)) + tail);
      EscapeStep(s, c, tail);
    }
  }

  lemma QuoteEnds(rest: string)
    ensures ReadString("\"" + rest) == Some(("", rest))
  {
    assert ("\"" + rest)[1..] == rest;
  }

  lemma {:induction false} EscapedTextReads(st: Style, text: string, rest: string)
    ensures ReadString(Escape(st, text) + ("\"" + rest)) == Some((text, rest))
  {
    hide ReadString, ReadEscape, EscapeChar;
    if text == "" {
      QuoteEnds(rest);
      assert Escape(st, text) + ("\"" + rest) == "\"" + rest;
    } else {
      var tail := Escape(st, text[1..]) + ("\"" + rest);
      EscapedTextReads(st, text[1..], rest);
      EscapedCharReads(st, text[0], tail);
      assert Escape(st, text) + ("\"" + rest) == EscapeChar(st, text[0]) + tail;
      assert [text[0]] + text[1..] == text;
    }
  }

  /** No escaped text contains a control character, so none contains a line break. */
  lemma {:induction false} EscapeHasNoControls(st: Style, text: string)
    ensures forall c | c in Escape(st, text) :: c as int >= 0x20
  {
    hide EscapeChar;
    if text != "" {
      CharHasNoControls(st, text[0]);
      EscapeHasNoControls(st, text[1..]);
    }
  }

  lemma CharHasNoControls(st: Style, c: char)
    ensures forall x | x in EscapeChar(st, c) :: x as int >= 0x20
  {
  }

  /** `json.dumps` writes ASCII only. */
  lemma {:induction false} DumpsIsAscii(text: string)
    ensures forall c | c in Quote(Spaced, text) :: ' ' <= c <= '~'
  {
    hide EscapeChar;
    if text != "" {
      DumpsIsAscii(text[1..]);
      CharIsAscii(text[0]);
      assert forall c | c in Escape(Spaced, text[1..]) :: c in Quote(Spaced, text[1..]);
    }
  }

  lemma CharIsAscii(c: char)
    ensures forall x | x in EscapeChar(Spaced, c) :: ' ' <= x <= '~'
  {
  }

  /** A character that a style may leave as it is. */
  predicate Plain(st: Style, c: char) { c >= ' ' && c != '\"' && c != '\\' && (st.Compact? || c <= '~') }

  lemma PlainStaysOne(st: Style, c: char)
    ensures Plain(st, c) ==> EscapeChar(st, c) == [c]
  {
  }

  /** Nothing is escaped without need. */
  lemma {:induction false} PlainStays(st: Style, text: string)
    requires forall i | 0 <= i < |text| :: Plain(st, text[i])
    ensures Escape(st, text) == text
  {
    hide EscapeChar, Plain;
    if text != "" {
      PlainStaysOne(st, text[0]);
      PlainStays(st, text[1..]);
    }
  }

  // ------------------------------------------------------------------- numbers

  /** What follows cannot be taken for more of a number. */
  predicate Stops(rest: string) { rest == "" || !IsNumberChar(rest[0]) }

  lemma {:induction false} DigitRunStops(s: string, rest: string)
    requires Stops(rest)
    ensures DigitRun(s + rest) == DigitRun(s)
  {
    if s == "" {
      assert s + rest == rest;
    } else {
      assert (s + rest)[1..] == s[1..] + rest;
      DigitRunStops(s[1..], rest);
    }
  }

  lemma FractionStops(s: string, rest: string)
    requires Stops(rest)
    ensures FractionLength(s + rest) == FractionLength(s)
  {
    hide DigitRun;
    if s == "" {
      assert s + rest == rest;
    } else {
      assert (s + rest)[0] == s[0] && (s + rest)[1..] == s[1..] + rest;
      DigitRunStops(s[1..], rest);
    }
  }

  lemma SignedDigitsStop(s: string, rest: string)
    requires Stops(rest)
    ensures SignedDigits(s + rest) == SignedDigits(s)
  {
    hide DigitRun;
    DigitRunStops(s, rest);
    if s == "" {
      assert s + rest == rest;
    } else {
      assert (s + rest)[0] == s[0] && (s + rest)[1..] == s[1..] + rest;
      DigitRunStops(s[1..], rest);
    }
  }

  lemma ExponentStops(s: string, rest: string)
    requires Stops(rest)
    ensures ExponentLength(s + rest) == ExponentLength(s)
  {
    hide SignedDigits;
    if s == "" {
      assert s + rest == rest;
    } else {
      assert (s + rest)[0] == s[0] && (s + rest)[1..] == s[1..] + rest;
      SignedDigitsStop(s[1..], rest);
    }
  }

  lemma TailStops(s: string, rest: string)
    requires Stops(rest)
    ensures TailLength(s + rest) == TailLength(s)
  {
    hide FractionLength, ExponentLength;
    FractionStops(s, rest);
    var a := FractionLength(s);
    assert (s + rest)[a..] == s[a..] + rest;
    ExponentStops(s[a..], rest);
  }

  lemma MagnitudeStops(s: string, rest: string)
    requires Stops(rest)
    ensures MagnitudeLength(s + rest) == MagnitudeLength(s)
  {
    hide TailLength, DigitRun;
    DigitRunStops(s, rest);
    if s == "" {
      assert s + rest == rest;
    } else {
      assert (s + rest)[0] == s[0];
    }
    var a := WholeLength(s);
    assert (s + rest)[a..] == s[a..] + rest;
    TailStops(s[a..], rest);
  }

  lemma NumberStops(s: string, rest: string)
    requires Stops(rest) && s != ""
    ensures NumberLength(s + rest) == NumberLength(s)
  {
    hide MagnitudeLength;
    assert (s + rest)[0] == s[0] && (s + rest)[1..] == s[1..] + rest;
    MagnitudeStops(s, rest);
    MagnitudeStops(s[1..], rest);
  }

  // The reader's lengths against the grammar.

  lemma {:induction false} DigitsRun(s: string, rest: string)
    requires Digits(s) && (rest == "" || !IsDigit(rest[0]))
    ensures DigitRun(s + rest) == |s|
  {
    assert (s + rest)[1..] == s[1..] + rest && (s + rest)[0] == s[0];
    if |s| > 1 {
      DigitsRun(s[1..], rest);
    } else {
      assert s[1..] + rest == rest;
    }
  }

  lemma RunIsDigits(s: string)
    requires DigitRun(s) > 0
    ensures Digits(s[..DigitRun(s)])
  {
    hide DigitRun;
  }

  lemma ExponentReads(s: string)
    ensures ExponentLength(s) == |s| <==> Exponent(s)
  {
    hide DigitRun;
    if s != "" {
      SignedReads(s[1..]);
    }
  }

  lemma SignedReads(s: string)
    ensures s != "" && SignedDigits(s) == |s| <==>
      Digits(s) || (s != "" && (s[0] == '+' || s[0] == '-') && Digits(s[1..]))
  {
    AllRun(s);
    if s != "" {
      AllRun(s[1..]);
    }
  }

  lemma AllRun(s: string)
    ensures s != "" && DigitRun(s) == |s| <==> Digits(s)
  {
    hide DigitRun;
    if Digits(s) {
      DigitsRun(s, "");
      assert s + "" == s;
    }
    assert s[..|s|] == s;
    if s != "" && DigitRun(s) == |s| {
      RunIsDigits(s);
    }
  }

  lemma FractionReads(f: string, e: string)
    requires Fraction(f) && Exponent(e)
    ensures FractionLength(f + e) == |f|
  {
    hide DigitRun;
    if f == "" {
      assert f + e == e;
    } else {
      assert (f + e)[1..] == f[1..] + e && (f + e)[0] == f[0];
      DigitsRun(f[1..], e);
    }
  }

  lemma TailReads(f: string, e: string)
    requires Fraction(f) && Exponent(e)
    ensures TailLength(f + e) == |f| + |e|
  {
    hide FractionLength, ExponentLength, Fraction, Exponent;
    FractionReads(f, e);
    ExponentReads(e);
    assert (f + e)[|f|..] == e;
  }

  lemma WholeReads(w: string, rest: string)
    requires Whole(w) && (rest == "" || !IsDigit(rest[0]))
    ensures WholeLength(w + rest) == |w|
  {
    hide DigitRun;
    DigitsRun(w, rest);
    assert (w + rest)[0] == w[0];
  }

  lemma MagnitudeReads(w: string, f: string, e: string)
    requires Whole(w) && Fraction(f) && Exponent(e)
    ensures MagnitudeLength(w + (f + e)) == |w| + |f| + |e|
  {
    TailReads(f, e);
    TailStart(f, e);
    WholeReads(w, f + e);
    assert (w + (f + e))[|w|..] == f + e;
    hide WholeLength, TailLength, Digits, Fraction, Exponent;
  }

  lemma TailStart(f: string, e: string)
    requires Fraction(f) && Exponent(e)
    ensures f + e == "" || !IsDigit((f + e)[0])
  {
    hide Digits;
    if f == "" {
      assert f + e == e;
    }
  }

  /** What the grammar calls a number, the reader takes whole. */
  lemma GrammarReads(s: string, a: nat, b: nat)
    requires NumberParts(s, a, b)
    ensures s != "" && NumberLength(s) == |s|
  {
    hide MagnitudeLength, Digits, Fraction, Exponent;
    var w, f, e := Unsigned(s[..a]), s[a..b], s[b..];
    MagnitudeReads(w, f, e);
    WholeNotEmpty(w);
    if s[0] == '-' {
      assert s[1..] == w + (f + e);
    } else {
      assert s == w + (f + e);
    }
  }

  lemma WholeNotEmpty(w: string)
    requires Whole(w)
    ensures w != "" && w[0] != '-'
  {
  }

  /** What the reader takes whole, the grammar calls a number. */
  lemma ReadIsGrammar(s: string)
    requires s != "" && NumberLength(s) == |s|
    ensures JsonNumber(s)
  {
    hide MagnitudeLength, Whole, Fraction, Exponent, NumberParts;
    if s[0] == '-' {
      var a, b := MagnitudeParts(s[1..]);
      SignedParts(s, a, b);
    } else {
      var a, b := MagnitudeParts(s);
      PlainParts(s, a, b);
    }
  }

  lemma SignedParts(s: string, a: nat, b: nat)
    requires s != "" && s[0] == '-' && a <= b < |s|
    requires Whole(s[1..][..a]) && Fraction(s[1..][a..b]) && Exponent(s[1..][b..])
    ensures NumberParts(s, a + 1, b + 1)
  {
    hide Whole, Fraction, Exponent;
    Shift(s, 1, 0, a);
    Shift(s, 1, a, b);
    Shift(s, 1, b, |s| - 1);
    Shift(s[..a + 1], 1, 0, a);
    assert s[..a + 1][1..] == s[..a + 1][1..][..a] && s[1..][b..] == s[1..][b..|s| - 1] && s[b + 1..] == s[b + 1..|s|];
    assert s[..a + 1][1..a + 1] == s[1..a + 1];
  }

  lemma Shift(s: string, k: nat, a: nat, b: nat)
    requires a <= b && k + b <= |s|
    ensures s[k..][a..b] == s[k + a..k + b]
  {
    var x, y := s[k..][a..b], s[k + a..k + b];
    forall i | 0 <= i < b - a
      ensures x[i] == y[i]
    {
    }
  }

  lemma PlainParts(s: string, a: nat, b: nat)
    requires 0 < a <= b <= |s| && s[0] != '-'
    requires Whole(s[..a]) && Fraction(s[a..b]) && Exponent(s[b..])
    ensures NumberParts(s, a, b)
  {
    hide Whole, Fraction, Exponent;
  }

  lemma MagnitudeParts(u: string) returns (a: nat, b: nat)
    requires u != "" && MagnitudeLength(u) == |u|
    ensures a <= b <= |u| && Whole(u[..a]) && Fraction(u[a..b]) && Exponent(u[b..])
    ensures a > 0 && u[0] != '-'
  {
    hide DigitRun, FractionLength, ExponentLength, Whole, Fraction, Exponent;
    a := WholeLength(u);
    b := a + FractionLength(u[a..]);
    WholeIs(u);
    FractionIs(u[a..]);
    ExponentReads(u[b..]);
    assert u[a..][..b - a] == u[a..b] && u[a..][b - a..] == u[b..];
  }

  lemma WholeIs(u: string)
    requires WholeLength(u) > 0
    ensures Whole(u[..WholeLength(u)])
  {
    hide DigitRun;
    if u[0] != '0' {
      RunIsDigits(u);
    }
  }

  lemma FractionIs(t: string)
    ensures Fraction(t[..FractionLength(t)])
  {
    hide DigitRun;
    if FractionLength(t) > 0 {
      RunIsDigits(t[1..]);
      assert t[..FractionLength(t)][1..] == t[1..][..DigitRun(t[1..])];
    }
  }

  /** The numbers the reader takes are those of the grammar. */
  lemma NumbersAreGrammar(s: string)
    ensures s != "" && NumberLength(s) == |s| <==> JsonNumber(s)
  {
    hide NumberLength, NumberParts;
    if JsonNumber(s) {
      var a: nat, b: nat :| a <= |s| && b <= |s| && NumberParts(s, a, b);
      GrammarReads(s, a, b);
    } else if s != "" && NumberLength(s) == |s| {
      ReadIsGrammar(s);
    }
  }

  lemma WordReads(word: string, rest: string, v: Json)
    requires word != ""
    ensures ReadWord(word + rest, word, v) == Some((v, rest))
  {
    assert (word + rest)[..|word|] == word && (word + rest)[|word|..] == rest;
  }

  lemma NoDigitNoNumber(s: string)
    requires s != "" && !IsDigit(s[0]) && (s[0] == '-' ==> |s| > 1 && !IsDigit(s[1]))
    ensures NumberLength(s) == 0
  {
    hide MagnitudeLength;
    if s[0] == '-' {
      assert s[1..][0] == s[1];
    }
  }

  lemma NumeralReads(lexeme: string, rest: string)
    requires IsNumeral(lexeme) && Stops(rest)
    ensures ReadValue(lexeme + rest) == Some((Num(lexeme), rest))
  {
    hide NumberLength, ReadString, ReadItems, ReadMembers, SkipSpace, ReadWord, Stops, JsonNumber;
    var s := lexeme + rest;
    NumbersAreGrammar(lexeme);
    NumeralStart(lexeme);
    NumberStops(lexeme, rest);
    if NumberLength(lexeme) > 0 && NumberLength(lexeme) == |lexeme| {
      assert s[..|lexeme|] == lexeme && s[|lexeme|..] == rest;
    } else {
      NoDigitNoNumber(lexeme);
      WordReads(lexeme, rest, Num(lexeme));
    }
  }

  lemma NumeralStart(lexeme: string)
    requires IsNumeral(lexeme)
    ensures lexeme != "" && (lexeme[0] == '-' || IsDigit(lexeme[0]) || lexeme[0] == 'N' || lexeme[0] == 'I')
  {
    hide NumberLength, JsonNumber;
    NumbersAreGrammar(lexeme);
  }

  lemma DecimalIsNumeral(n: nat)
    ensures IsNumeral(Decimal(n))
  {
    var s := Decimal(n);
    assert forall i | 0 <= i < |s| :: s[i] in s;
    assert s[..|s|] == s && s[|s|..|s|] == "" && s[|s|..] == "";
    assert NumberParts(s, |s|, |s|);
  }

  lemma ZeroIsNumeral()
    ensures IsNumeral("0")
  {
    hide IsNumeral;
    DecimalIsNumeral(0);
    assert Decimal(0) == "0";
  }

  lemma AllDigits(s: string)
    requires forall c | c in s :: IsDigit(c)
    ensures DigitRun(s) == |s|
  {
    if s != "" {
      assert s[0] in s;
      AllDigits(s[1..]);
    }
  }

  // -------------------------------------------------------------------- values

  lemma QuoteReads(st: Style, text: string, rest: string)
    ensures ReadValue(Quote(st, text) + rest) == Some((Str(text), rest))
    ensures ReadString((Quote(st, text) + rest)[1..]) == Some((text, rest))
  {
    hide ReadItems, ReadMembers, ReadString, SkipSpace, NumberLength, Escape;
    var s := Quote(st, text) + rest;
    EscapedTextReads(st, text, rest);
    assert s[1..] == Escape(st, text) + ("\"" + rest);
  }

  /** A printed value starts with neither a space nor a closing bracket. */
  lemma PrintStart(st: Style, v: Json)
    requires Printable(v)
    ensures var s := Print(st, v); s != "" && !IsJsonSpace(s[0]) && s[0] != ']' && s[0] != '}'
  {
    hide IsNumeral;
    if v.Num? {
      NumeralStart(v.lexeme);
    }
  }

  lemma SkipNothing(s: string)
    requires s == "" || !IsJsonSpace(s[0])
    ensures SkipSpace(s) == s
  {
  }

  lemma SkipAfterComma(st: Style, tail: string)
    requires tail != "" && !IsJsonSpace(tail[0])
    ensures var s := Comma(st) + tail; s != "" && s[0] == ',' && SkipSpace(s[1..]) == tail && SkipSpace(s) == s
  {
    if st.Spaced? {
      assert (Comma(st) + tail)[1..] == " " + tail && (" " + tail)[1..] == tail;
    } else {
      assert (Comma(st) + tail)[1..] == tail;
    }
  }

  lemma SkipAfterColon(st: Style, tail: string)
    requires tail != "" && !IsJsonSpace(tail[0])
    ensures var s := Colon(st) + tail; s != "" && s[0] == ':' && SkipSpace(s[1..]) == tail && SkipSpace(s) == s
  {
    if st.Spaced? {
      assert (Colon(st) + tail)[1..] == " " + tail && (" " + tail)[1..] == tail;
    } else {
      assert (Colon(st) + tail)[1..] == tail;
    }
  }

  lemma LastItem(s: string, v: Json, rest: string)
    requires ReadValue(s) == Some((v, "]" + rest))
    ensures ReadItems(s) == Some(([v], rest))
  {
    hide ReadValue;
    assert ("]" + rest)[1..] == rest;
  }

  lemma MoreItems(s: string, v: Json, u: string, tail: string, vs: seq<Json>, rest: string)
    requires ReadValue(s) == Some((v, u)) && u != "" && u[0] == ',' && SkipSpace(u) == u && SkipSpace(u[1..]) == tail
    requires ReadItems(tail) == Some((vs, rest))
    ensures ReadItems(s) == Some(([v] + vs, rest))
  {
    hide ReadValue, SkipSpace;
  }

  lemma LastMember(s: string, m: (string, Json), rest: string)
    requires ReadMember(s) == Some((m, "}" + rest))
    ensures ReadMembers(s) == Some(([m], rest))
  {
    hide ReadMember;
    assert ("}" + rest)[1..] == rest;
  }

  lemma MoreMembers(s: string, m: (string, Json), u: string, tail: string, ms: seq<(string, Json)>, rest: string)
    requires ReadMember(s) == Some((m, u)) && u != "" && u[0] == ',' && SkipSpace(u) == u && SkipSpace(u[1..]) == tail
    requires ReadMembers(tail) == Some((ms, rest))
    ensures ReadMembers(s) == Some(([m] + ms, rest))
  {
    hide ReadMember, SkipSpace;
  }

  lemma OneMember(s: string, key: string, u: string, tail: string, v: Json, rest: string)
    requires s != "" && s[0] == '\"' && ReadString(s[1..]) == Some((key, u))
    requires u != "" && u[0] == ':' && SkipSpace(u) == u && SkipSpace(u[1..]) == tail
    requires ReadValue(tail) == Some((v, rest))
    ensures ReadMember(s) == Some(((key, v), rest))
  {
    hide ReadString, ReadValue, SkipSpace;
  }

  lemma ArrayReads(t: string, items: seq<Json>, rest: string)
    requires t != "" && t[0] != ']' && SkipSpace(t) == t && ReadItems(t) == Some((items, rest))
    ensures ReadValue("[" + t) == Some((Arr(items), rest))
  {
    hide ReadItems, ReadMembers, ReadString, SkipSpace, NumberLength;
    assert ("[" + t)[1..] == t;
  }

  lemma ObjectReads(t: string, fields: seq<(string, Json)>, rest: string)
    requires t != "" && t[0] != '}' && SkipSpace(t) == t && ReadMembers(t) == Some((fields, rest))
    ensures ReadValue("{" + t) == Some((Obj(fields), rest))
  {
    hide ReadItems, ReadMembers, ReadString, SkipSpace, NumberLength;
    assert ("{" + t)[1..] == t;
  }

  lemma EmptyReads(rest: string)
    ensures ReadValue("[]" + rest) == Some((Arr([]), rest)) && ReadValue("{}" + rest) == Some((Obj([]), rest))
  {
    hide ReadItems, ReadMembers, ReadString, NumberLength;
    assert ("[]" + rest)[1..] == "]" + rest && ("]" + rest)[1..] == rest;
    assert ("{}" + rest)[1..] == "}" + rest && ("}" + rest)[1..] == rest;
    SkipNothing("]" + rest);
    SkipNothing("}" + rest);
  }

  lemma ItemsStart(st: Style, items: seq<Json>)
    requires items != [] && Printable(items[0])
    ensures var s := PrintItems(st, items);
      s != "" && s[0] == Print(st, items[0])[0] && !IsJsonSpace(s[0]) && s[0] != ']'
  {
    hide Print;
    PrintStart(st, items[0]);
  }

  lemma MembersStart(st: Style, fields: seq<(string, Json)>)
    requires fields != []
    ensures var s := PrintMembers(st, fields); s != "" && s[0] == '\"'
  {
    hide Print;
    assert PrintMember(st, fields[0])[0] == '\"';
  }

  lemma WordsRead(rest: string)
    ensures ReadValue("null" + rest) == Some((Null, rest))
    ensures ReadValue("true" + rest) == Some((Bool(true), rest))
    ensures ReadValue("false" + rest) == Some((Bool(false), rest))
  {
    hide ReadItems, ReadMembers, ReadString, SkipSpace, NumberLength, ReadWord;
    WordReads("null", rest, Null);
    WordReads("true", rest, Bool(true));
    WordReads("false", rest, Bool(false));
  }

  lemma ItemsPrint(st: Style, items: seq<Json>, x: string)
    requires items != []
    ensures |items| == 1 ==> PrintItems(st, items) + x == Print(st, items[0]) + x
    ensures |items| > 1 ==>
      PrintItems(st, items) + x == Print(st, items[0]) + (Comma(st) + (PrintItems(st, items[1..]) + x))
  {
    hide Print, Comma;
    if |items| > 1 {
      Regroup(Print(st, items[0]), Comma(st), PrintItems(st, items[1..]), x);
    }
  }

  lemma MembersPrint(st: Style, fields: seq<(string, Json)>, x: string)
    requires fields != []
    ensures |fields| == 1 ==> PrintMembers(st, fields) + x == PrintMember(st, fields[0]) + x
    ensures |fields| > 1 ==>
      PrintMembers(st, fields) + x == PrintMember(st, fields[0]) + (Comma(st) + (PrintMembers(st, fields[1..]) + x))
  {
    hide PrintMember, Comma;
    if |fields| > 1 {
      Regroup(PrintMember(st, fields[0]), Comma(st), PrintMembers(st, fields[1..]), x);
    }
  }

  lemma Regroup(a: string, b: string, c: string, d: string)
    ensures a + b + c + d == a + (b + (c + d))
  {
  }

  lemma {:induction false} PrintReads(st: Style, v: Json, rest: string)
    requires Printable(v) && Stops(rest)
    ensures ReadValue(Print(st, v) + rest) == Some((v, rest))
    decreases v, 0
  {
    hide ReadValue, ReadItems, ReadMembers, SkipSpace;
    match v {
      case Null => WordsRead(rest);
      case Bool(b) => WordsRead(rest);
      case Num(lexeme) => NumeralReads(lexeme, rest);
      case Str(text) => QuoteReads(st, text, rest);
      case Arr(items) =>
        if items == [] {
          EmptyReads(rest);
          assert Print(st, v) == "[]";
        } else {
          ArrPrintReads(st, items, rest);
        }
      case Obj(fields) =>
        if fields == [] {
          EmptyReads(rest);
          assert Print(st, v) == "{}";
        } else {
          ObjPrintReads(st, fields, rest);
        }
    }
  }

  lemma {:induction false} ArrPrintReads(st: Style, items: seq<Json>, rest: string)
    requires items != [] && forall i | 0 <= i < |items| :: Printable(items[i])
    ensures ReadValue("[" + PrintItems(st, items) + "]" + rest) == Some((Arr(items), rest))
    decreases items, 1
  {
    hide ReadValue, ReadItems, SkipSpace, Printable, PrintItems;
    var t := PrintItems(st, items) + ("]" + rest);
    ItemsStart(st, items);
    SkipNothing(t);
    ItemsRead(st, items, rest);
    ArrayReads(t, items, rest);
    assert "[" + PrintItems(st, items) + "]" + rest == "[" + t;
  }

  lemma {:induction false} ObjPrintReads(st: Style, fields: seq<(string, Json)>, rest: string)
    requires fields != [] && forall i | 0 <= i < |fields| :: Printable(fields[i].1)
    ensures ReadValue("{" + PrintMembers(st, fields) + "}" + rest) == Some((Obj(fields), rest))
    decreases fields, 1
  {
    hide ReadValue, ReadMembers, SkipSpace, Printable, PrintMembers;
    var t := PrintMembers(st, fields) + ("}" + rest);
    MembersStart(st, fields);
    SkipNothing(t);
    MembersRead(st, fields, rest);
    ObjectReads(t, fields, rest);
    assert "{" + PrintMembers(st, fields) + "}" + rest == "{" + t;
  }

  lemma {:induction false} ItemsRead(st: Style, items: seq<Json>, rest: string)
    requires items != [] && forall i | 0 <= i < |items| :: Printable(items[i])
    ensures ReadItems(PrintItems(st, items) + ("]" + rest)) == Some((items, rest))
    decreases items, 0
  {
    hide ReadValue, ReadItems, SkipSpace, Print, PrintItems, Printable;
    var s := PrintItems(st, items) + ("]" + rest);
    ItemsPrint(st, items, "]" + rest);
    if |items| == 1 {
      PrintReads(st, items[0], "]" + rest);
      LastItem(s, items[0], rest);
      assert [items[0]] == items;
    } else {
      var tail := PrintItems(st, items[1..]) + ("]" + rest);
      ItemsStart(st, items[1..]);
      SkipAfterComma(st, tail);
      PrintReads(st, items[0], Comma(st) + tail);
      ItemsRead(st, items[1..], rest);
      MoreItems(s, items[0], Comma(st) + tail, tail, items[1..], rest);
      assert [items[0]] + items[1..] == items;
    }
  }

  lemma {:induction false} MemberReads(st: Style, m: (string, Json), rest: string)
    requires Printable(m.1) && Stops(rest)
    ensures ReadMember(PrintMember(st, m) + rest) == Some((m, rest))
    decreases m
  {
    hide ReadValue, ReadMember, ReadString, SkipSpace, Print, Printable;
    var s := PrintMember(st, m) + rest;
    var tail := Print(st, m.1) + rest;
    assert s == Quote(st, m.0) + (Colon(st) + tail);
    QuoteReads(st, m.0, Colon(st) + tail);
    PrintStart(st, m.1);
    SkipAfterColon(st, tail);
    PrintReads(st, m.1, rest);
    OneMember(s, m.0, Colon(st) + tail, tail, m.1, rest);
  }

  lemma {:induction false} MembersRead(st: Style, fields: seq<(string, Json)>, rest: string)
    requires fields != [] && forall i | 0 <= i < |fields| :: Printable(fields[i].1)
    ensures ReadMembers(PrintMembers(st, fields) + ("}" + rest)) == Some((fields, rest))
    decreases fields, 0
  {
    hide ReadMember, ReadMembers, SkipSpace, PrintMember, PrintMembers, Printable;
    var s := PrintMembers(st, fields) + ("}" + rest);
    MembersPrint(st, fields, "}" + rest);
    if |fields| == 1 {
      MemberReads(st, fields[0], "}" + rest);
      LastMember(s, fields[0], rest);
      assert [fields[0]] == fields;
    } else {
      var tail := PrintMembers(st, fields[1..]) + ("}" + rest);
      MembersStart(st, fields[1..]);
      SkipAfterComma(st, tail);
      MemberReads(st, fields[0], Comma(st) + tail);
      MembersRead(st, fields[1..], rest);
      MoreMembers(s, fields[0], Comma(st) + tail, tail, fields[1..], rest);
      assert [fields[0]] + fields[1..] == fields;
    }
  }

  /** `json.loads` inverts the printer on every value, in either style. */
  lemma LoadsInvertsPrint(st: Style, v: Json)
    requires Printable(v)
    ensures Loads(Print(st, v)) == Some(v)
  {
    PrintReads(st, v, "");
    PrintStart(st, v);
    SkipNothing(Print(st, v));
    assert Print(st, v) + "" == Print(st, v);
  }

  lemma ThreeMembers(st: Style, fields: seq<(string, Json)>)
    requires |fields| == 3
    ensures Print(st, Obj(fields)) == "{" + PrintMember(st, fields[0]) + Comma(st) + PrintMember(st, fields[1])
      + Comma(st) + PrintMember(st, fields[2]) + "}"
  {
    hide PrintMember, Comma;
    assert fields[1..][1..] == [fields[2]];
    assert PrintMembers(st, fields[1..]) == PrintMember(st, fields[1]) + Comma(st) + PrintMember(st, fields[2]);
  }
}
