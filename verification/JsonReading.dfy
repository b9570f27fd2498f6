/** The reader against the grammar: `Loads` gives a value for its texts, all of them, and for no
    others. */
module JsonReading {
  import opened Basics
  import opened JsonText
  import opened JsonGrammar
  import opened JsonRoundTrip

  // --------------------------------------------------------- texts are read

  lemma {:induction false} SpacesSkip(l: string, m: string)
    requires Spaces(l)
    ensures SkipSpace(l + m) == SkipSpace(m)
  {
    if l == "" {
      assert l + m == m;
    } else {
      assert (l + m)[1..] == l[1..] + m && (l + m)[0] == l[0];
      SpacesSkip(l[1..], m);
    }
  }

  lemma SkipTo(l: string, m: string)
    requires Spaces(l) && (m == "" || !IsJsonSpace(m[0]))
    ensures SkipSpace(l + m) == m
  {
    SpacesSkip(l, m);
    SkipNothing(m);
  }

  lemma HexAgrees(c: char)
    ensures HexValue(c) == if Hex(c) >= 0 then Some(Hex(c)) else None
  {
  }

  lemma UnitValue(e: string, n: int, tail: string)
    requires SpellsUnit(e, n)
    ensures ReadHex4((e + tail)[2..]) == Some(n) && (e + tail)[6..] == tail && 0 <= n < 0x10000
  {
    var s := (e + tail)[2..];
    HexAgrees(e[2]);
    HexAgrees(e[3]);
    HexAgrees(e[4]);
    HexAgrees(e[5]);
    assert s[0] == e[2] && s[1] == e[3] && s[2] == e[4] && s[3] == e[5];
  }

  lemma SpelledUnitReads(e: string, c: char, tail: string)
    requires SpellsUnit(e, c as int)
    ensures ReadEscape((e + tail)[1..]) == Some((c, tail))
  {
    hide ReadHex4;
    var s := e + tail;
    UnitValue(e, c as int, tail);
    assert s[1..][1..] == s[2..] && s[1..][5..] == s[6..] && s[1] == 'u';
  }

  lemma SpelledPairReads(e: string, c: char, tail: string)
    requires |e| == 12 && c as int >= 0x10000
    requires SpellsUnit(e[..6], 0xd800 + (c as int - 0x10000) / 0x400)
    requires SpellsUnit(e[6..], 0xdc00 + (c as int - 0x10000) % 0x400)
    ensures ReadEscape((e + tail)[1..]) == Some((c, tail))
  {
    hide ReadHex4;
    var s, rest := e + tail, e[6..] + tail;
    assert s == e[..6] + rest;
    UnitValue(e[..6], 0xd800 + (c as int - 0x10000) / 0x400, rest);
    UnitValue(e[6..], 0xdc00 + (c as int - 0x10000) % 0x400, tail);
    assert s[1..][1..] == s[2..] && s[1..][5..] == s[6..] && s[1] == 'u';
    assert rest[..2] == "\\u";
  }

  lemma CharReads(e: string, c: char, tail: string)
    requires SpellsChar(e, c)
    ensures e != "" && ReadString(e + tail) == Prepend(c, ReadString(tail))
  {
    hide ReadString, ReadEscape;
    var s := e + tail;
    if |e| == 1 {
      PlainReads(c, tail);
    } else {
      if |e| == 2 {
        ShortReads(e, c, tail);
      } else if |e| == 6 {
        SpelledUnitReads(e, c, tail);
      } else {
        SpelledPairReads(e, c, tail);
        assert e[0] == e[..6][0];
      }
      EscapeStep(s, c, tail);
    }
  }

  lemma PlainReads(c: char, tail: string)
    requires c as int >= 0x20 && c != '\"' && c != '\\'
    ensures ReadString([c] + tail) == Prepend(c, ReadString(tail))
  {
    hide ReadEscape;
    assert ([c] + tail)[1..] == tail;
  }

  lemma ShortReads(e: string, c: char, tail: string)
    requires |e| == 2 && e[0] == '\\' && SpellsShort(e[1], c)
    ensures ReadEscape((e + tail)[1..]) == Some((c, tail))
  {
    hide ReadHex4;
    var s := (e + tail)[1..];
    assert s[0] == e[1] && s[1..] == tail;
  }

  lemma {:induction false} TextReads(s: string, text: string, rest: string)
    requires SpellsText(s, text)
    ensures ReadString(s + ("\"" + rest)) == Some((text, rest))
    decreases |text|
  {
    hide ReadString, SpellsChar;
    if text == "" {
      QuoteEnds(rest);
      assert s + ("\"" + rest) == "\"" + rest;
    } else {
      var k: nat :| k <= |s| && k > 0 && SpellsChar(s[..k], text[0]) && SpellsText(s[k..], text[1..]);
      TextReads(s[k..], text[1..], rest);
      CharReads(s[..k], text[0], s[k..] + ("\"" + rest));
      assert s + ("\"" + rest) == s[..k] + (s[k..] + ("\"" + rest));
      assert text == [text[0]] + text[1..];
    }
  }

  lemma StringReads(s: string, text: string, rest: string)
    requires SpellsString(s, text)
    ensures (s + rest)[0] == '\"' && ReadString((s + rest)[1..]) == Some((text, rest))
    ensures ReadValue(s + rest) == Some((Str(text), rest))
  {
    hide ReadString, SpellsText, ReadItems, ReadMembers, NumberLength;
    var mid := s[1..|s| - 1];
    TextReads(mid, text, rest);
    assert (s + rest)[1..] == mid + ("\"" + rest);
  }

  /** What a value's text begins with. */
  predicate Begins(s: string) {
    s != "" && !IsJsonSpace(s[0]) && s[0] != ']' && s[0] != '}' && s[0] != ',' && s[0] != ':'
  }

  lemma {:induction false} BareReads(s: string, v: Json, rest: string)
    requires SpellsBare(s, v) && Stops(rest)
    ensures ReadValue(s + rest) == Some((v, rest)) && Begins(s)
    decreases v, 0
  {
    hide ReadValue, ReadItems, ReadMembers, SkipSpace, SpellsString, IsNumeral, SpellsItems, SpellsMembers;
    match v {
      case Null => WordsRead(rest);
      case Bool(b) => WordsRead(rest);
      case Num(lexeme) =>
        NumeralReads(lexeme, rest);
        NumeralStart(lexeme);
      case Str(text) =>
        StringReads(s, text, rest);
        StringBegins(s, text);
      case Arr(items) =>
        var mid := s[1..|s| - 1];
        assert s + rest == "[" + (mid + ("]" + rest));
        if items == [] {
          EmptyArrayReads(mid, rest);
        } else {
          ItemsReads(mid, items, rest);
          OpenArray(mid + ("]" + rest), items, rest);
        }
      case Obj(fields) =>
        var mid := s[1..|s| - 1];
        assert s + rest == "{" + (mid + ("}" + rest));
        if fields == [] {
          EmptyObjectReads(mid, rest);
        } else {
          MembersReads(mid, fields, rest);
          OpenObject(mid + ("}" + rest), fields, rest);
        }
    }
  }

  lemma StringBegins(s: string, text: string)
    requires SpellsString(s, text)
    ensures Begins(s)
  {
    hide SpellsText;
  }

  lemma EmptyArrayReads(mid: string, rest: string)
    requires Spaces(mid)
    ensures ReadValue("[" + (mid + ("]" + rest))) == Some((Arr([]), rest))
  {
    hide ReadItems, ReadMembers, ReadString, NumberLength, SkipSpace;
    SkipTo(mid, "]" + rest);
    assert ("[" + (mid + ("]" + rest)))[1..] == mid + ("]" + rest) && ("]" + rest)[1..] == rest;
  }

  lemma EmptyObjectReads(mid: string, rest: string)
    requires Spaces(mid)
    ensures ReadValue("{" + (mid + ("}" + rest))) == Some((Obj([]), rest))
  {
    hide ReadItems, ReadMembers, ReadString, NumberLength, SkipSpace;
    SkipTo(mid, "}" + rest);
    assert ("{" + (mid + ("}" + rest)))[1..] == mid + ("}" + rest) && ("}" + rest)[1..] == rest;
  }

  lemma OpenArray(u: string, items: seq<Json>, rest: string)
    requires ReadItems(SkipSpace(u)) == Some((items, rest)) && SkipSpace(u) != "" && SkipSpace(u)[0] != ']'
    ensures ReadValue("[" + u) == Some((Arr(items), rest))
  {
    hide ReadItems, ReadMembers, ReadString, NumberLength, SkipSpace;
    assert ("[" + u)[1..] == u;
  }

  lemma OpenObject(u: string, fields: seq<(string, Json)>, rest: string)
    requires ReadMembers(SkipSpace(u)) == Some((fields, rest)) && SkipSpace(u) != "" && SkipSpace(u)[0] != '}'
    ensures ReadValue("{" + u) == Some((Obj(fields), rest))
  {
    hide ReadItems, ReadMembers, ReadString, NumberLength, SkipSpace;
    assert ("{" + u)[1..] == u;
  }

  /** Characters that may follow a value and the spaces behind it. */
  predicate Follows(x: string) { x == "" || (!IsJsonSpace(x[0]) && !IsNumberChar(x[0])) }

  lemma StopsBehind(r: string, x: string)
    requires Spaces(r) && Follows(x)
    ensures Stops(r + x)
  {
    if r == "" {
      assert r + x == x;
    } else {
      assert (r + x)[0] == r[0];
    }
  }

  /** A padded text, read where its padding ends; `r` are the spaces behind. */
  lemma {:induction false} PaddedReads(s: string, v: Json, x: string) returns (r: string)
    requires Spells(s, v) && Follows(x)
    ensures var t := SkipSpace(s + x);
      Begins(t) && ReadValue(t) == Some((v, r + x)) && SkipSpace(r + x) == x
    decreases v, 1
  {
    hide ReadValue, SkipSpace, SpellsBare, Spaces;
    var l, m, behind :| s == l + m + behind && Spaces(l) && SpellsBare(m, v) && Spaces(behind);
    r := behind;
    StopsBehind(r, x);
    BareReads(m, v, r + x);
    assert s + x == l + (m + (r + x));
    SkipTo(l, m + (r + x));
    SkipTo(r, x);
  }

  lemma CutAt(a: string, b: string, x: string)
    ensures a + "," + b + x == a + ("," + (b + x))
  {
  }

  lemma {:induction false} ItemsReads(s: string, items: seq<Json>, rest: string)
    requires items != [] && SpellsItems(s, items)
    ensures var t := SkipSpace(s + ("]" + rest)); Begins(t) && ReadItems(t) == Some((items, rest))
    decreases items, 0
  {
    hide ReadValue, ReadItems, SkipSpace, Spells;
    if |items| == 1 {
      var r := PaddedReads(s, items[0], "]" + rest);
      ItemsEnd(SkipSpace(s + ("]" + rest)), items[0], r, rest);
      assert items == [items[0]];
    } else {
      var a, b :| s == a + "," + b && Spells(a, items[0]) && SpellsItems(b, items[1..]);
      var more := b + ("]" + rest);
      CutAt(a, b, "]" + rest);
      var r := PaddedReads(a, items[0], "," + more);
      ItemsReads(b, items[1..], rest);
      ItemsGoOn(SkipSpace(a + ("," + more)), items[0], r, more, items[1..], rest);
      assert items == [items[0]] + items[1..];
    }
  }

  lemma ItemsEnd(t: string, v: Json, r: string, rest: string)
    requires ReadValue(t) == Some((v, r + ("]" + rest))) && SkipSpace(r + ("]" + rest)) == "]" + rest
    ensures ReadItems(t) == Some(([v], rest))
  {
    hide ReadValue, SkipSpace;
    assert ("]" + rest)[1..] == rest;
  }

  lemma ItemsGoOn(t: string, v: Json, r: string, more: string, vs: seq<Json>, rest: string)
    requires ReadValue(t) == Some((v, r + ("," + more))) && SkipSpace(r + ("," + more)) == "," + more
    requires ReadItems(SkipSpace(more)) == Some((vs, rest))
    ensures ReadItems(t) == Some(([v] + vs, rest))
  {
    hide ReadValue, SkipSpace;
    assert ("," + more)[1..] == more;
  }

  lemma {:induction false} OneMemberReads(s: string, m: (string, Json), x: string) returns (r: string)
    requires SpellsMember(s, m) && Follows(x)
    ensures var t := SkipSpace(s + x);
      Begins(t) && ReadMember(t) == Some((m, r + x)) && SkipSpace(r + x) == x
    decreases m, 0
  {
    hide ReadValue, ReadMember, ReadString, SkipSpace, Spells, SpellsString, Spaces;
    var l, key, mid, value :|
      s == l + key + mid + ":" + value && Spaces(l) && SpellsString(key, m.0) && Spaces(mid) && Spells(value, m.1);
    var more := value + x;
    var behind := mid + (":" + more);
    CutMember(l, key, mid, value, x);
    StringReads(key, m.0, behind);
    StringBegins(key, m.0);
    SkipTo(l, key + behind);
    SkipTo(mid, ":" + more);
    r := PaddedReads(value, m.1, x);
    MemberFits(key + behind, m.0, behind, more, m.1, r + x);
  }

  lemma CutMember(l: string, key: string, mid: string, value: string, x: string)
    ensures l + key + mid + ":" + value + x == l + (key + (mid + (":" + (value + x))))
  {
  }

  lemma MemberFits(t: string, key: string, behind: string, more: string, v: Json, rest: string)
    requires t != "" && t[0] == '\"' && ReadString(t[1..]) == Some((key, behind)) && SkipSpace(behind) == ":" + more
    requires ReadValue(SkipSpace(more)) == Some((v, rest))
    ensures ReadMember(t) == Some(((key, v), rest))
  {
    hide ReadString, ReadValue, SkipSpace;
    assert (":" + more)[1..] == more;
  }

  lemma {:induction false} MembersReads(s: string, fields: seq<(string, Json)>, rest: string)
    requires fields != [] && SpellsMembers(s, fields)
    ensures var t := SkipSpace(s + ("}" + rest)); Begins(t) && ReadMembers(t) == Some((fields, rest))
    decreases fields, 0
  {
    hide ReadMember, ReadMembers, SkipSpace, SpellsMember;
    if |fields| == 1 {
      var r := OneMemberReads(s, fields[0], "}" + rest);
      MembersEnd(SkipSpace(s + ("}" + rest)), fields[0], r, rest);
      assert fields == [fields[0]];
    } else {
      var a, b :| s == a + "," + b && SpellsMember(a, fields[0]) && SpellsMembers(b, fields[1..]);
      var more := b + ("}" + rest);
      CutAt(a, b, "}" + rest);
      var r := OneMemberReads(a, fields[0], "," + more);
      MembersReads(b, fields[1..], rest);
      MembersGoOn(SkipSpace(a + ("," + more)), fields[0], r, more, fields[1..], rest);
      assert fields == [fields[0]] + fields[1..];
    }
  }

  lemma MembersEnd(t: string, m: (string, Json), r: string, rest: string)
    requires ReadMember(t) == Some((m, r + ("}" + rest))) && SkipSpace(r + ("}" + rest)) == "}" + rest
    ensures ReadMembers(t) == Some(([m], rest))
  {
    hide ReadMember, SkipSpace;
    assert ("}" + rest)[1..] == rest;
  }

  lemma MembersGoOn(t: string, m: (string, Json), r: string, more: string, ms: seq<(string, Json)>, rest: string)
    requires ReadMember(t) == Some((m, r + ("," + more))) && SkipSpace(r + ("," + more)) == "," + more
    requires ReadMembers(SkipSpace(more)) == Some((ms, rest))
    ensures ReadMembers(t) == Some(([m] + ms, rest))
  {
    hide ReadMember, SkipSpace;
    assert ("," + more)[1..] == more;
  }

  lemma TextLoads(s: string, v: Json)
    requires Spells(s, v)
    ensures Loads(s) == Some(v)
  {
    hide ReadValue, SkipSpace, Spells;
    var r := PaddedReads(s, v, "");
    assert s + "" == s && r + "" == r;
  }

  // ------------------------------------------------------- only texts are read

  lemma {:induction false} SkipSplit(s: string) returns (l: string)
    ensures s == l + SkipSpace(s) && Spaces(l)
  {
    if s != "" && IsJsonSpace(s[0]) {
      var m := SkipSplit(s[1..]);
      l := [s[0]] + m;
    } else {
      l := "";
    }
  }

  lemma UnitSpells(s: string)
    requires ReadHex4(s).Some?
    ensures |s| >= 4 && SpellsUnit("\\u" + s[..4], ReadHex4(s).value)
  {
    HexAgrees(s[0]);
    HexAgrees(s[1]);
    HexAgrees(s[2]);
    HexAgrees(s[3]);
    var e := "\\u" + s[..4];
    assert e[2] == s[0] && e[3] == s[1] && e[4] == s[2] && e[5] == s[3];
  }

  /** What the reader takes for an escape is one. */
  lemma EscapeSpells(s: string) returns (e: string)
    requires ReadEscape(s).Some?
    ensures var (c, rest) := ReadEscape(s).value; "\\" + s == e + rest && SpellsChar(e, c) && e != ""
  {
    hide ReadHex4, SpellsUnit;
    var c := ReadEscape(s).value.0;
    if s[0] != 'u' {
      e := ['\\', s[0]];
      assert "\\" + s == e + s[1..];
    } else {
      UnitSpells(s[1..]);
      assert s[1..][..4] == s[1..5];
      var n := ReadHex4(s[1..]).value;
      if n < 0xd800 || 0xe000 <= n {
        e := "\\u" + s[1..5];
        assert "\\" + s == e + s[5..];
      } else {
        e := PairSpells(s);
      }
    }
  }

  lemma PairSpells(s: string) returns (e: string)
    requires ReadEscape(s).Some? && s[0] == 'u'
    requires ReadHex4(s[1..]).Some? && 0xd800 <= ReadHex4(s[1..]).value < 0xe000
    ensures var (c, rest) := ReadEscape(s).value; "\\" + s == e + rest && SpellsChar(e, c) && e != ""
  {
    hide ReadHex4, SpellsUnit;
    var rest := s[5..];
    UnitSpells(s[1..]);
    UnitSpells(rest[2..]);
    assert s[1..][..4] == s[1..5] && rest[2..][..4] == rest[2..6];
    var first, second := "\\u" + s[1..5], "\\u" + rest[2..6];
    e := first + second;
    assert e[..6] == first && e[6..] == second;
    assert rest == second + rest[6..];
    assert "\\" + s == first + rest;
    var hi, lo := ReadHex4(s[1..]).value, ReadHex4(rest[2..]).value;
    PairValue(hi, lo);
  }

  lemma PairValue(hi: int, lo: int)
    requires 0xd800 <= hi < 0xdc00 && 0xdc00 <= lo < 0xe000
    ensures var n := 0x10000 + 0x400 * (hi - 0xd800) + (lo - 0xdc00);
      0x10000 <= n < 0x110000 && 0xd800 + (n - 0x10000) / 0x400 == hi && 0xdc00 + (n - 0x10000) % 0x400 == lo
  {
  }

  lemma {:induction false} StringSpells(s: string) returns (body: string)
    requires ReadString(s).Some?
    ensures var (text, rest) := ReadString(s).value; s == body + ("\"" + rest) && SpellsText(body, text)
    decreases |s|
  {
    hide ReadEscape, SpellsChar;
    var text := ReadString(s).value.0;
    if s[0] == '\"' {
      body := "";
      assert s == "" + ("\"" + s[1..]);
    } else if s[0] == '\\' {
      var e := EscapeSpells(s[1..]);
      var tail := ReadEscape(s[1..]).value.1;
      assert s == "\\" + s[1..];
      var more := StringSpells(tail);
      body := e + more;
      assert text[1..] == ReadString(tail).value.0;
      assert s == e + tail;
      OneMoreChar(e, text[0], more, text[1..]);
      assert text == [text[0]] + text[1..];
    } else {
      var more := StringSpells(s[1..]);
      body := [s[0]] + more;
      PlainSpells(s[0]);
      assert text[1..] == ReadString(s[1..]).value.0;
      assert s == [s[0]] + s[1..];
      OneMoreChar([s[0]], text[0], more, text[1..]);
      assert text == [text[0]] + text[1..];
    }
  }

  lemma OneMoreChar(e: string, c: char, more: string, tail: string)
    requires SpellsChar(e, c) && e != "" && SpellsText(more, tail)
    ensures SpellsText(e + more, [c] + tail)
  {
    hide SpellsChar;
    var s, text := e + more, [c] + tail;
    assert s[..|e|] == e && s[|e|..] == more && text[1..] == tail && text[0] == c;
  }

  lemma PlainSpells(c: char)
    ensures c as int >= 0x20 && c != '\"' && c != '\\' ==> SpellsChar([c], c)
  {
  }

  lemma QuotedSpells(s: string, body: string, text: string, rest: string) returns (m: string)
    requires s != "" && s[0] == '\"' && s[1..] == body + ("\"" + rest) && SpellsText(body, text)
    ensures s == m + rest && SpellsString(m, text)
  {
    hide SpellsText;
    m := "\"" + body + "\"";
    assert m[1..|m| - 1] == body;
    assert s == "\"" + s[1..];
  }

  lemma {:induction false} ValueSpells(s: string) returns (m: string)
    requires ReadValue(s).Some?
    ensures var (v, rest) := ReadValue(s).value; s == m + rest && SpellsBare(m, v)
    decreases |s|, 0
  {
    hide NumberLength, ReadString, ReadItems, ReadMembers, SkipSpace;
    hide SpellsString, SpellsItems, SpellsMembers, IsNumeral;
    if s[0] == '\"' {
      var body := StringSpells(s[1..]);
      var (text, rest) := ReadString(s[1..]).value;
      m := QuotedSpells(s, body, text, rest);
    } else if s[0] == '{' {
      m := ObjectSpells(s);
    } else if s[0] == '[' {
      m := ArraySpells(s);
    } else {
      m := ScalarSpells(s);
    }
  }

  lemma ScalarSpells(s: string) returns (m: string)
    requires ReadValue(s).Some? && s[0] != '\"' && s[0] != '{' && s[0] != '['
    ensures var (v, rest) := ReadValue(s).value; s == m + rest && SpellsBare(m, v)
  {
    hide NumberLength, ReadString, ReadItems, ReadMembers, SkipSpace, JsonNumber;
    var rest := ReadValue(s).value.1;
    m := s[..|s| - |rest|];
    if s[0] != 'n' && s[0] != 't' && s[0] != 'f' && NumberLength(s) > 0 {
      NumberPrefix(s);
      assert m == s[..NumberLength(s)];
    }
  }

  lemma NumberPrefix(s: string)
    requires s != "" && NumberLength(s) > 0
    ensures IsNumeral(s[..NumberLength(s)])
  {
    hide NumberLength, JsonNumber;
    PrefixLength(s);
    NumbersAreGrammar(s[..NumberLength(s)]);
  }

  /** A number is read the same way without what follows it. */
  lemma PrefixLength(s: string)
    requires s != "" && NumberLength(s) > 0
    ensures var n := s[..NumberLength(s)]; NumberLength(n) == |n|
  {
    hide MagnitudeLength;
    var k := NumberLength(s);
    if s[0] == '-' {
      MagnitudePrefix(s[1..]);
      Shift(s[..k], 1, 0, k - 1);
      assert s[..k][1..] == s[1..][..k - 1];
    } else {
      MagnitudePrefix(s);
    }
  }

  lemma MagnitudePrefix(u: string)
    requires MagnitudeLength(u) > 0
    ensures var n := u[..MagnitudeLength(u)]; MagnitudeLength(n) == |n|
  {
    hide WholeLength, FractionLength, ExponentLength, Whole, Fraction, Exponent;
    var a := WholeLength(u);
    var t := u[a..];
    var f := FractionLength(t);
    var x := t[f..];
    var e := ExponentLength(x);
    WholeIs(u);
    FractionIs(t);
    ExponentPrefix(x);
    MagnitudeReads(u[..a], t[..f], x[..e]);
    ThreeParts(u, a, f, e);
  }

  lemma ThreeParts(u: string, a: nat, f: nat, e: nat)
    requires a + f + e <= |u|
    ensures u[..a + f + e] == u[..a] + (u[a..][..f] + u[a..][f..][..e])
  {
    TwoParts(u, a, f + e);
    TwoParts(u[a..], f, e);
  }

  lemma TwoParts(u: string, a: nat, b: nat)
    requires a + b <= |u|
    ensures u[..a + b] == u[..a] + u[a..][..b]
  {
    var x, y := u[..a + b], u[..a] + u[a..][..b];
    forall i | 0 <= i < a + b
      ensures x[i] == y[i]
    {
    }
  }

  lemma ExponentPrefix(x: string)
    ensures Exponent(x[..ExponentLength(x)])
  {
    hide DigitRun, Exponent;
    var e := ExponentLength(x);
    if e > 0 {
      SignedPrefix(x[1..]);
      assert x[..e][1..] == x[1..][..e - 1];
      ExponentReads(x[..e]);
    } else {
      ExponentReads("");
      assert x[..e] == "";
    }
  }

  lemma SignedPrefix(s: string)
    requires SignedDigits(s) > 0
    ensures var n := s[..SignedDigits(s)]; SignedDigits(n) == |n|
  {
    hide DigitRun;
    var k := SignedDigits(s);
    if s[0] == '+' || s[0] == '-' {
      RunIsDigits(s[1..]);
      assert s[..k][1..] == s[1..][..k - 1];
      AllRun(s[..k][1..]);
    } else {
      RunIsDigits(s);
      AllRun(s[..k]);
    }
  }

  lemma ArraySpells(s: string) returns (m: string)
    requires s != "" && s[0] == '[' && ReadValue(s).Some?
    ensures var (v, rest) := ReadValue(s).value; s == m + rest && SpellsBare(m, v)
    decreases |s| - 1, 9
  {
    hide NumberLength, ReadString, ReadItems, ReadMembers, SkipSpace, Spaces, SpellsItems;
    var u := s[1..];
    var l := SkipSplit(u);
    var t := SkipSpace(u);
    if t != "" && t[0] == ']' {
      m := "[" + l + "]";
      assert m[1..|m| - 1] == l;
      assert s == "[" + (l + ("]" + t[1..]));
    } else {
      var mid := ItemsSpell(u);
      var rest := ReadItems(t).value.1;
      m := "[" + mid + "]";
      assert m[1..|m| - 1] == mid;
      assert s == "[" + (mid + ("]" + rest));
      SomeItems(t);
    }
  }

  lemma SomeItems(t: string)
    ensures ReadItems(t).Some? ==> ReadItems(t).value.0 != []
    ensures ReadMembers(t).Some? ==> ReadMembers(t).value.0 != []
  {
    hide ReadValue, ReadMember, SkipSpace;
  }

  lemma ObjectSpells(s: string) returns (m: string)
    requires s != "" && s[0] == '{' && ReadValue(s).Some?
    ensures var (v, rest) := ReadValue(s).value; s == m + rest && SpellsBare(m, v)
    decreases |s| - 1, 9
  {
    hide NumberLength, ReadString, ReadItems, ReadMembers, SkipSpace, Spaces, SpellsMembers;
    var u := s[1..];
    var l := SkipSplit(u);
    var t := SkipSpace(u);
    if t != "" && t[0] == '}' {
      m := "{" + l + "}";
      assert m[1..|m| - 1] == l;
      assert s == "{" + (l + ("}" + t[1..]));
    } else {
      var mid := MembersSpell(u);
      var rest := ReadMembers(t).value.1;
      m := "{" + mid + "}";
      assert m[1..|m| - 1] == mid;
      assert s == "{" + (mid + ("}" + rest));
      SomeItems(t);
    }
  }

  lemma PaddedSpells(l: string, m: string, r: string, v: Json)
    requires Spaces(l) && SpellsBare(m, v) && Spaces(r)
    ensures Spells(l + m + r, v)
  {
    hide SpellsBare, Spaces;
  }

  lemma {:induction false} ItemsSpell(s: string) returns (m: string)
    requires ReadItems(SkipSpace(s)).Some?
    ensures var (items, rest) := ReadItems(SkipSpace(s)).value;
      items != [] && s == m + ("]" + rest) && SpellsItems(m, items)
    decreases |s|, 1
  {
    hide ReadValue, SkipSpace, Spells, SpellsBare, Spaces;
    var l := SkipSplit(s);
    var t := SkipSpace(s);
    var v, behind := ReadValue(t).value.0, ReadValue(t).value.1;
    var one := ValueSpells(t);
    var r := SkipSplit(behind);
    var u := SkipSpace(behind);
    PaddedSpells(l, one, r, v);
    if u[0] == ']' {
      m := l + one + r;
      assert s == m + ("]" + u[1..]);
    } else {
      var more := ItemsSpell(u[1..]);
      var (items, rest) := ReadItems(SkipSpace(u[1..])).value;
      var head := l + one + r;
      m := head + "," + more;
      assert s == head + ("," + u[1..]);
      assert s == m + ("]" + rest);
      MoreItemsSpell(head, v, more, items);
    }
  }

  lemma MoreItemsSpell(head: string, v: Json, more: string, items: seq<Json>)
    requires Spells(head, v) && items != [] && SpellsItems(more, items)
    ensures SpellsItems(head + "," + more, [v] + items)
  {
    hide Spells;
    var all := [v] + items;
    assert all[1..] == items && all[0] == v;
  }

  lemma {:induction false} MemberSpells(s: string) returns (m: string)
    requires ReadMember(SkipSpace(s)).Some?
    ensures var (member, rest) := ReadMember(SkipSpace(s)).value;
      forall r | Spaces(r) :: s == m + rest && SpellsMember(m + r, member)
    decreases |s|, 1
  {
    hide ReadValue, ReadString, SkipSpace, Spells, SpellsBare, SpellsText, SpellsString, Spaces;
    var l := SkipSplit(s);
    var t := SkipSpace(s);
    var key, behind := ReadString(t[1..]).value.0, ReadString(t[1..]).value.1;
    var body := StringSpells(t[1..]);
    var quoted := QuotedSpells(t, body, key, behind);
    var mid := SkipSplit(behind);
    var u := SkipSpace(behind);
    var lead := SkipSplit(u[1..]);
    var w := SkipSpace(u[1..]);
    var v, rest := ReadValue(w).value.0, ReadValue(w).value.1;
    var one := ValueSpells(w);
    m := l + quoted + mid + ":" + (lead + one);
    assert u == ":" + u[1..];
    assert s == m + rest;
    forall r | Spaces(r)
      ensures SpellsMember(m + r, (key, v))
    {
      PaddedSpells(lead, one, r, v);
      MemberOf(l, quoted, mid, lead + one + r, key, v);
      assert m + r == l + quoted + mid + ":" + (lead + one + r);
    }
  }

  lemma MemberOf(l: string, quoted: string, mid: string, tail: string, key: string, v: Json)
    requires Spaces(l) && SpellsString(quoted, key) && Spaces(mid) && Spells(tail, v)
    ensures SpellsMember(l + quoted + mid + ":" + tail, (key, v))
  {
    hide Spaces, SpellsString, Spells;
  }

  lemma {:induction false} MembersSpell(s: string) returns (m: string)
    requires ReadMembers(SkipSpace(s)).Some?
    ensures var (fields, rest) := ReadMembers(SkipSpace(s)).value;
      fields != [] && s == m + ("}" + rest) && SpellsMembers(m, fields)
    decreases |s|, 2
  {
    hide ReadMember, SkipSpace, SpellsMember, Spaces;
    var t := SkipSpace(s);
    var member, behind := ReadMember(t).value.0, ReadMember(t).value.1;
    var one := MemberSpells(s);
    var r := SkipSplit(behind);
    var u := SkipSpace(behind);
    if u[0] == '}' {
      m := one + r;
      assert s == m + ("}" + u[1..]);
    } else {
      var more := MembersSpell(u[1..]);
      var (fields, rest) := ReadMembers(SkipSpace(u[1..])).value;
      var head := one + r;
      m := head + "," + more;
      assert s == head + ("," + u[1..]);
      assert s == m + ("}" + rest);
      MoreMembersSpell(head, member, more, fields);
    }
  }

  lemma MoreMembersSpell(head: string, member: (string, Json), more: string, fields: seq<(string, Json)>)
    requires SpellsMember(head, member) && fields != [] && SpellsMembers(more, fields)
    ensures SpellsMembers(head + "," + more, [member] + fields)
  {
    hide SpellsMember;
    var all := [member] + fields;
    assert all[1..] == fields && all[0] == member;
  }

  /** `json.loads` gives `v` for the texts of `v`, all of them, and for nothing else. */
  lemma LoadsIsExact(s: string, v: Json)
    ensures Loads(s) == Some(v) <==> Spells(s, v)
  {
    hide Spells, SpellsBare, ReadValue, SkipSpace, Spaces;
    if Spells(s, v) {
      TextLoads(s, v);
    }
    if Loads(s).Some? {
      LoadedSpells(s);
    }
  }

  lemma LoadedSpells(s: string)
    requires Loads(s).Some?
    ensures Spells(s, Loads(s).value)
  {
    hide Spells, SpellsBare, ReadValue, SkipSpace, Spaces;
    var l := SkipSplit(s);
    var t := SkipSpace(s);
    var m := ValueSpells(t);
    var rest := ReadValue(t).value.1;
    var r := SkipSplit(rest);
    PaddedSpells(l, m, r, Loads(s).value);
    assert s == l + m + r;
  }
}
