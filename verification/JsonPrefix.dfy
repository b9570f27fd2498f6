/** A JSON text that is cut short: what `json.loads` has read of it would have been read the same
    way with more text behind it, so no proper beginning of a printed object is itself an object. */
module JsonPrefix {
  import opened Basics
  import opened JsonText
  import opened JsonRoundTrip

  lemma {:induction false} SkipMore(s: string, q: string)
    requires SkipSpace(s) != ""
    ensures SkipSpace(s + q) == SkipSpace(s) + q
  {
    if IsJsonSpace(s[0]) {
      assert (s + q)[1..] == s[1..] + q;
      SkipMore(s[1..], q);
    }
  }

  lemma {:induction false} SkippedIsSpace(s: string)
    ensures SkipSpace(s) == "" <==> forall c | c in s :: IsJsonSpace(c)
  {
    if s != "" && IsJsonSpace(s[0]) {
      SkippedIsSpace(s[1..]);
      assert s == [s[0]] + s[1..];
    }
  }

  lemma EscapeMore(s: string, q: string)
    requires ReadEscape(s).Some?
    ensures ReadEscape(s + q) == Some((ReadEscape(s).value.0, ReadEscape(s).value.1 + q))
  {
    hide ReadHex4;
    assert (s + q)[0] == s[0] && (s + q)[1..] == s[1..] + q;
    if s[0] == 'u' {
      HexMore(s[1..], q);
      HexHasFour(s[1..]);
      assert (s + q)[5..] == s[5..] + q;
      if |s[5..]| >= 6 {
        PairMore(s[5..], q);
      }
    }
  }

  lemma PairMore(rest: string, q: string)
    requires |rest| >= 6
    ensures (rest + q)[..2] == rest[..2] && (rest + q)[6..] == rest[6..] + q
    ensures ReadHex4(rest[2..]).Some? ==> ReadHex4((rest + q)[2..]) == ReadHex4(rest[2..])
  {
    hide ReadHex4;
    assert (rest + q)[2..] == rest[2..] + q;
    if ReadHex4(rest[2..]).Some? {
      HexMore(rest[2..], q);
    }
  }

  lemma HexMore(s: string, q: string)
    requires ReadHex4(s).Some?
    ensures ReadHex4(s + q) == ReadHex4(s)
  {
  }

  lemma {:induction false} StringMore(s: string, q: string)
    requires ReadString(s).Some?
    ensures ReadString(s + q) == Some((ReadString(s).value.0, ReadString(s).value.1 + q))
    decreases |s|
  {
    hide ReadEscape;
    assert (s + q)[1..] == s[1..] + q;
    if s[0] == '\"' {
    } else if s[0] == '\\' {
      EscapeMore(s[1..], q);
      StringMore(ReadEscape(s[1..]).value.1, q);
    } else {
      StringMore(s[1..], q);
    }
  }

  lemma NumberMore(s: string, q: string)
    requires 0 < NumberLength(s) < |s| && Stops(s[NumberLength(s)..])
    ensures NumberLength(s + q) == NumberLength(s)
  {
    hide NumberLength;
    var k := NumberLength(s);
    var number, rest := s[..k], s[k..];
    assert s == number + rest && s + q == number + (rest + q);
    NumberStops(number, rest);
    NumberStops(number, rest + q);
  }

  lemma WordMore(s: string, q: string, word: string, v: Json)
    requires word != "" && ReadWord(s, word, v).Some?
    ensures ReadWord(s, word, v).value.0 == v
    ensures ReadWord(s + q, word, v) == Some((v, ReadWord(s, word, v).value.1 + q))
  {
    assert (s + q)[..|word|] == s[..|word|] && (s + q)[|word|..] == s[|word|..] + q;
  }

  /** A value followed by one of these cannot be a number that goes on. */
  lemma ClosedStops(rest: string)
    requires SkipSpace(rest) != "" && SkipSpace(rest)[0] in ",]}"
    ensures rest != "" && Stops(rest)
  {
  }

  predicate Complete(v: Json, rest: string) { v.Num? ==> rest != "" && Stops(rest) }

  lemma {:induction false} ValueMore(s: string, q: string)
    requires ReadValue(s).Some? && Complete(ReadValue(s).value.0, ReadValue(s).value.1)
    ensures ReadValue(s + q) == Some((ReadValue(s).value.0, ReadValue(s).value.1 + q))
    decreases |s|, 0
  {
    hide NumberLength, ReadWord, ReadString, ReadMembers, ReadItems, SkipSpace, Stops;
    assert (s + q)[0] == s[0] && (s + q)[1..] == s[1..] + q;
    if s[0] == '\"' {
      StringMore(s[1..], q);
    } else if s[0] == '{' {
      ObjectMore(s, q);
    } else if s[0] == '[' {
      ArrayMore(s, q);
    } else {
      ScalarMore(s, q);
    }
  }

  lemma ScalarMore(s: string, q: string)
    requires s != "" && s[0] != '\"' && s[0] != '{' && s[0] != '['
    requires ReadValue(s).Some? && Complete(ReadValue(s).value.0, ReadValue(s).value.1)
    ensures ReadValue(s + q) == Some((ReadValue(s).value.0, ReadValue(s).value.1 + q))
  {
    hide NumberLength, ReadWord, ReadString, ReadMembers, ReadItems, SkipSpace, Stops;
    assert (s + q)[0] == s[0];
    if s[0] == 'n' {
      WordMore(s, q, "null", Null);
    } else if s[0] == 't' {
      WordMore(s, q, "true", Bool(true));
    } else if s[0] == 'f' {
      WordMore(s, q, "false", Bool(false));
    } else if NumberLength(s) > 0 {
      NumberMore(s, q);
      var k := NumberLength(s);
      assert (s + q)[..k] == s[..k] && (s + q)[k..] == s[k..] + q;
    } else {
      OtherMore(s, q);
    }
  }

  lemma OtherMore(s: string, q: string)
    requires s != "" && s[0] != '\"' && s[0] != '{' && s[0] != '[' && s[0] != 'n' && s[0] != 't' && s[0] != 'f'
    requires ReadValue(s).Some? && NumberLength(s) == 0
    ensures ReadValue(s + q) == Some((ReadValue(s).value.0, ReadValue(s).value.1 + q))
  {
    hide NumberLength, ReadWord, ReadString, ReadMembers, ReadItems, SkipSpace;
    assert (s + q)[0] == s[0];
    assert s[0] == 'N' || s[0] == 'I' || s[0] == '-';
    NotANumberMore(s, q);
    if s[0] == 'N' {
      WordMore(s, q, "NaN", Num("NaN"));
    } else if s[0] == 'I' {
      WordMore(s, q, "Infinity", Num("Infinity"));
    } else {
      WordMore(s, q, "-Infinity", Num("-Infinity"));
    }
  }

  lemma NotANumberMore(s: string, q: string)
    requires s != "" && NumberLength(s) == 0 && ReadValue(s).Some?
    requires s[0] == 'N' || s[0] == 'I' || s[0] == '-'
    ensures NumberLength(s + q) == 0
  {
    hide NumberLength, ReadString, ReadMembers, ReadItems, SkipSpace;
    if s[0] == '-' {
      assert s[..9] == "-Infinity" && s[1] == s[..9][1];
    }
    NoDigitNoNumber(s + q);
  }

  lemma ObjectMore(s: string, q: string)
    requires s != "" && s[0] == '{' && ReadValue(s).Some?
    ensures ReadValue(s + q) == Some((ReadValue(s).value.0, ReadValue(s).value.1 + q))
    decreases |s| - 1, 9
  {
    hide NumberLength, ReadWord, ReadString, ReadMembers, ReadItems, SkipSpace;
    assert (s + q)[1..] == s[1..] + q;
    var t := SkipSpace(s[1..]);
    if t != "" {
      SkipMore(s[1..], q);
      if t[0] == '}' {
        assert (t + q)[1..] == t[1..] + q;
      } else {
        MembersMore(t, q);
      }
    } else {
      MembersNeedText();
    }
  }

  lemma MembersNeedText()
    ensures ReadMembers("") == None && ReadItems("") == None
  {
  }

  lemma ArrayMore(s: string, q: string)
    requires s != "" && s[0] == '[' && ReadValue(s).Some?
    ensures ReadValue(s + q) == Some((ReadValue(s).value.0, ReadValue(s).value.1 + q))
    decreases |s| - 1, 9
  {
    hide NumberLength, ReadWord, ReadString, ReadMembers, ReadItems, SkipSpace;
    assert (s + q)[1..] == s[1..] + q;
    var t := SkipSpace(s[1..]);
    if t != "" {
      SkipMore(s[1..], q);
      if t[0] == ']' {
        assert (t + q)[1..] == t[1..] + q;
      } else {
        ItemsMore(t, q);
      }
    } else {
      MembersNeedText();
    }
  }

  lemma {:induction false} ItemsMore(s: string, q: string)
    requires ReadItems(s).Some?
    ensures ReadItems(s + q) == Some((ReadItems(s).value.0, ReadItems(s).value.1 + q))
    decreases |s|, 1
  {
    hide ReadValue, SkipSpace, Stops;
    var (v, rest) := ReadValue(s).value;
    var t := SkipSpace(rest);
    ClosedStops(rest);
    ValueMore(s, q);
    SkipMore(rest, q);
    assert (t + q)[1..] == t[1..] + q;
    if t[0] == ',' {
      SkippedSome(t[1..]);
      SkipMore(t[1..], q);
      ItemsMore(SkipSpace(t[1..]), q);
    }
  }

  /** Items and members do not start with nothing. */
  lemma SkippedSome(s: string)
    ensures ReadItems(SkipSpace(s)).Some? || ReadMembers(SkipSpace(s)).Some? || ReadValue(SkipSpace(s)).Some?
      ==> SkipSpace(s) != ""
  {
    MembersNeedText();
  }

  lemma {:induction false} MemberMore(s: string, q: string)
    requires ReadMember(s).Some? && Complete(ReadMember(s).value.0.1, ReadMember(s).value.1)
    ensures ReadMember(s + q) == Some((ReadMember(s).value.0, ReadMember(s).value.1 + q))
    decreases |s|, 1
  {
    hide ReadValue, ReadString, SkipSpace, Stops;
    assert (s + q)[1..] == s[1..] + q;
    StringMore(s[1..], q);
    var rest := ReadString(s[1..]).value.1;
    var t := SkipSpace(rest);
    SkipMore(rest, q);
    assert (t + q)[1..] == t[1..] + q;
    SkippedSome(t[1..]);
    SkipMore(t[1..], q);
    ValueMore(SkipSpace(t[1..]), q);
  }

  lemma {:induction false} MembersMore(s: string, q: string)
    requires ReadMembers(s).Some?
    ensures ReadMembers(s + q) == Some((ReadMembers(s).value.0, ReadMembers(s).value.1 + q))
    decreases |s|, 2
  {
    hide ReadMember, SkipSpace, Stops;
    var (member, rest) := ReadMember(s).value;
    var t := SkipSpace(rest);
    ClosedStops(rest);
    MemberMore(s, q);
    SkipMore(rest, q);
    assert (t + q)[1..] == t[1..] + q;
    if t[0] == ',' {
      SkippedSome(t[1..]);
      SkipMore(t[1..], q);
      MembersMore(SkipSpace(t[1..]), q);
    }
  }

  lemma BraceIsLeft(rest: string, q: string)
    requires q != "" && q[|q| - 1] == '}'
    ensures SkipSpace(rest + q) != ""
  {
    hide SkipSpace;
    SkippedIsSpace(rest + q);
    assert (rest + q)[|rest + q| - 1] == '}';
    assert '}' in rest + q;
  }

  /** No proper beginning of a text that ends in a closing brace loads as an object, if the whole
      text loads at all. */
  lemma CutObjectIsNoObject(p: string, q: string)
    requires q != "" && q[|q| - 1] == '}'
    requires Loads(p + q).Some?
    ensures Loads(p).None? || !Loads(p).value.Obj?
  {
    hide ReadValue, SkipSpace;
    if Loads(p).Some? && Loads(p).value.Obj? {
      SkippedSome(p);
      SkipMore(p, q);
      ValueMore(SkipSpace(p), q);
      BraceIsLeft(ReadValue(SkipSpace(p)).value.1, q);
    }
  }

  // ------------------------------------------------------ where an object must end

  predicate Suffix(r: string, s: string) { |r| <= |s| && s[|s| - |r|..] == r }

  lemma Tail(s: string, k: nat)
    requires k <= |s|
    ensures Suffix(s[k..], s)
  {
  }

  lemma Further(a: string, b: string, c: string)
    requires Suffix(a, b) && Suffix(b, c)
    ensures Suffix(a, c)
  {
    assert c[|c| - |b|..][|b| - |a|..] == c[|c| - |a|..];
  }

  lemma {:induction false} SkipSuffix(s: string)
    ensures Suffix(SkipSpace(s), s)
  {
    if s != "" && IsJsonSpace(s[0]) {
      SkipSuffix(s[1..]);
      Further(SkipSpace(s[1..]), s[1..], s);
    }
  }

  /** After the spaces of `s`, and one more character. */
  lemma SkipOne(s: string)
    requires SkipSpace(s) != ""
    ensures Suffix(SkipSpace(s)[1..], s)
    ensures s[|s| - |SkipSpace(s)|] == SkipSpace(s)[0]
  {
    hide SkipSpace;
    SkipSuffix(s);
    Tail(SkipSpace(s), 1);
    Further(SkipSpace(s)[1..], SkipSpace(s), s);
    assert s[|s| - |SkipSpace(s)|..][0] == SkipSpace(s)[0];
  }

  lemma EscapeSuffix(s: string)
    requires ReadEscape(s).Some?
    ensures Suffix(ReadEscape(s).value.1, s)
  {
    hide ReadHex4;
    Tail(s, 1);
    if s[0] == 'u' {
      HexHasFour(s[1..]);
      Tail(s, 5);
      if |s| >= 11 {
        Tail(s, 11);
        assert s[5..][6..] == s[11..];
      }
    }
  }

  lemma HexHasFour(s: string)
    ensures ReadHex4(s).Some? ==> |s| >= 4
  {
  }

  lemma {:induction false} StringSuffix(s: string)
    requires ReadString(s).Some?
    ensures Suffix(ReadString(s).value.1, s)
    decreases |s|
  {
    hide ReadEscape, Suffix;
    Tail(s, 1);
    if s[0] == '\"' {
    } else if s[0] == '\\' {
      var rest := ReadEscape(s[1..]).value.1;
      EscapeSuffix(s[1..]);
      StringSuffix(rest);
      Further(ReadString(rest).value.1, rest, s[1..]);
      Further(ReadString(rest).value.1, s[1..], s);
    } else {
      StringSuffix(s[1..]);
      Further(ReadString(s[1..]).value.1, s[1..], s);
    }
  }

  /** `rest` is what follows a closing brace. */
  predicate AfterBrace(rest: string, s: string) {
    Suffix(rest, s) && |rest| < |s| && s[|s| - |rest| - 1] == '}'
  }

  lemma BraceFurther(rest: string, b: string, c: string)
    requires AfterBrace(rest, b) && Suffix(b, c)
    ensures AfterBrace(rest, c)
  {
    Further(rest, b, c);
    assert c[|c| - |b|..][|b| - |rest| - 1] == c[|c| - |rest| - 1];
  }

  lemma BraceHere(s: string)
    requires SkipSpace(s) != "" && SkipSpace(s)[0] == '}'
    ensures AfterBrace(SkipSpace(s)[1..], s)
  {
    hide SkipSpace;
    SkipOne(s);
  }

  lemma {:induction false} ValueSuffix(s: string)
    requires ReadValue(s).Some?
    ensures Suffix(ReadValue(s).value.1, s)
    ensures ReadValue(s).value.0.Obj? ==> AfterBrace(ReadValue(s).value.1, s)
    decreases |s|, 0
  {
    hide NumberLength, ReadString, ReadMembers, ReadItems, SkipSpace, Suffix, AfterBrace;
    Tail(s, 1);
    if s[0] == '\"' {
      StringSuffix(s[1..]);
      Further(ReadString(s[1..]).value.1, s[1..], s);
    } else if s[0] == '{' {
      ObjectSuffix(s);
    } else if s[0] == '[' {
      ArraySuffix(s);
    } else if NumberLength(s) > 0 {
      Tail(s, NumberLength(s));
      WordsSuffix(s);
    } else {
      WordsSuffix(s);
    }
  }

  lemma WordsSuffix(s: string)
    ensures |s| >= 3 ==> Suffix(s[3..], s)
    ensures |s| >= 4 ==> Suffix(s[4..], s)
    ensures |s| >= 5 ==> Suffix(s[5..], s)
    ensures |s| >= 8 ==> Suffix(s[8..], s)
    ensures |s| >= 9 ==> Suffix(s[9..], s)
  {
  }

  lemma ObjectSuffix(s: string)
    requires s != "" && s[0] == '{' && ReadValue(s).Some?
    ensures AfterBrace(ReadValue(s).value.1, s) && Suffix(ReadValue(s).value.1, s)
    decreases |s| - 1, 9
  {
    hide NumberLength, ReadWord, ReadString, ReadMembers, ReadItems, SkipSpace;
    var t := SkipSpace(s[1..]);
    Tail(s, 1);
    MembersNeedText();
    if t != "" && t[0] == '}' {
      BraceHere(s[1..]);
      BraceFurther(t[1..], s[1..], s);
    } else {
      MembersSuffix(t);
      SkipSuffix(s[1..]);
      BraceFurther(ReadMembers(t).value.1, t, s[1..]);
      BraceFurther(ReadMembers(t).value.1, s[1..], s);
    }
  }

  lemma ArraySuffix(s: string)
    requires s != "" && s[0] == '[' && ReadValue(s).Some?
    ensures Suffix(ReadValue(s).value.1, s)
    decreases |s| - 1, 9
  {
    hide NumberLength, ReadWord, ReadString, ReadMembers, ReadItems, SkipSpace;
    var t := SkipSpace(s[1..]);
    Tail(s, 1);
    MembersNeedText();
    if t != "" && t[0] == ']' {
      SkipOne(s[1..]);
      Further(t[1..], s[1..], s);
    } else {
      ItemsSuffix(t);
      SkipSuffix(s[1..]);
      Further(ReadItems(t).value.1, t, s[1..]);
      Further(ReadItems(t).value.1, s[1..], s);
    }
  }

  lemma {:induction false} ItemsSuffix(s: string)
    requires ReadItems(s).Some?
    ensures Suffix(ReadItems(s).value.1, s)
    decreases |s|, 1
  {
    hide ReadValue, SkipSpace, Suffix, AfterBrace;
    var rest := ReadValue(s).value.1;
    var t := SkipSpace(rest);
    ValueSuffix(s);
    SkipOne(rest);
    Further(t[1..], rest, s);
    if t[0] == ',' {
      var u := SkipSpace(t[1..]);
      ItemsSuffix(u);
      SkipSuffix(t[1..]);
      Further(u, t[1..], s);
      Further(ReadItems(u).value.1, u, s);
    }
  }

  lemma {:induction false} MemberSuffix(s: string)
    requires ReadMember(s).Some?
    ensures Suffix(ReadMember(s).value.1, s)
    decreases |s|, 1
  {
    hide ReadValue, ReadString, SkipSpace, Suffix, AfterBrace;
    var rest := ReadString(s[1..]).value.1;
    var t := SkipSpace(rest);
    var u := SkipSpace(t[1..]);
    Tail(s, 1);
    StringSuffix(s[1..]);
    Further(rest, s[1..], s);
    SkipOne(rest);
    Further(t[1..], rest, s);
    SkipSuffix(t[1..]);
    Further(u, t[1..], s);
    ValueSuffix(u);
    Further(ReadValue(u).value.1, u, s);
  }

  lemma {:induction false} MembersSuffix(s: string)
    requires ReadMembers(s).Some?
    ensures AfterBrace(ReadMembers(s).value.1, s)
    decreases |s|, 2
  {
    hide ReadMember, SkipSpace, Suffix, AfterBrace;
    var rest := ReadMember(s).value.1;
    var t := SkipSpace(rest);
    MemberSuffix(s);
    if t[0] == '}' {
      BraceHere(rest);
      BraceFurther(t[1..], rest, s);
    } else {
      var u := SkipSpace(t[1..]);
      SkipOne(rest);
      Further(t[1..], rest, s);
      SkipSuffix(t[1..]);
      Further(u, t[1..], s);
      MembersSuffix(u);
      BraceFurther(ReadMembers(u).value.1, u, s);
    }
  }

  /** A text that loads as an object ends in a closing brace, give or take spaces. */
  lemma ObjectEnds(s: string)
    requires Loads(s).Some? && Loads(s).value.Obj?
    ensures s != "" && (s[|s| - 1] == '}' || IsJsonSpace(s[|s| - 1]))
  {
    hide ReadValue, SkipSpace;
    var t := SkipSpace(s);
    var rest := ReadValue(t).value.1;
    ValueSuffix(t);
    SkipSuffix(s);
    BraceFurther(rest, t, s);
    SkippedIsSpace(rest);
    if rest != "" {
      assert s[|s| - |rest|..][|rest| - 1] == s[|s| - 1];
      assert rest[|rest| - 1] in rest;
    }
  }
}
