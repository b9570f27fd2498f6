/** server/transcribe.py: the check of the finished transcript. */
module Transcript {
  import opened Basics
  import opened JsonText
  import opened JsonGrammar
  import opened JsonRoundTrip
  import opened JsonReading

  datatype Diagnosis =
    | EmptyOutput
    | NotJson
    | NotAList(typeName: string)
    | SegmentNotObject(index: nat, typeName: string)
    | SegmentWithoutContent(index: nat)

  /** A transcript a client can use: a JSON list of objects that each have a "Content" key. */
  predicate WellFormed(raw: string) {
    match Loads(Strip(raw))
    case Some(Arr(items)) => forall i | 0 <= i < |items| :: IsSegment(items[i])
    case _ => false
  }

  predicate IsSegment(v: Json) {
    v.Obj? && Lookup(v.fields, "Content").Some?
  }

  /** `type(v).__name__`. */
  function TypeName(v: Json): string {
    match v
    case Null => "NoneType"
    case Bool(_) => "bool"
    case Num(lexeme) => if IsFloat(lexeme) then "float" else "int"
    case Str(_) => "str"
    case Arr(_) => "list"
    case Obj(_) => "dict"
  }

  predicate IsFloat(lexeme: string) {
    '.' in lexeme || 'e' in lexeme || 'E' in lexeme || lexeme in ["NaN", "Infinity", "-Infinity"]
  }

  function SegmentFault(v: Json, i: nat): (d: Option<Diagnosis>)
    ensures d == None <==> IsSegment(v)
  {
    if !v.Obj? then Some(SegmentNotObject(i, TypeName(v)))
    else if Lookup(v.fields, "Content").None? then Some(SegmentWithoutContent(i))
    else None
  }

  function FirstFault(items: seq<Json>, i: nat): Option<Diagnosis>
    requires i <= |items|
    decreases |items| - i
  {
    if i == |items| then None
    else if SegmentFault(items[i], i).Some? then SegmentFault(items[i], i)
    else FirstFault(items, i + 1)
  }

  /** One segment that starts at 0 and has this text as its content. */
  ghost predicate IsAnswer(chunk: string, text: string) {
    exists end ::
      Loads(chunk) == Some(Arr([Obj([("Start", Num("0")), ("End", Num(end)), ("Content", Str(text))])]))
  }

  /** Such a text passes the check below. */
  lemma AnswerIsWellFormed(chunk: string, text: string)
    requires IsAnswer(chunk, text)
    ensures WellFormed(chunk)
  {
    hide Loads, Strip, Spells, Lookup;
    var end :| Loads(chunk) == Some(Arr([Obj([("Start", Num("0")), ("End", Num(end)), ("Content", Str(text))])]));
    var items := [Obj([("Start", Num("0")), ("End", Num(end)), ("Content", Str(text))])];
    LoadsIsExact(chunk, Arr(items));
    HasContent([("Start", Num("0")), ("End", Num(end)), ("Content", Str(text))], text);
    StripKeeps(chunk, items);
    LoadsIsExact(Strip(chunk), Arr(items));
  }

  /** The complaint the check leaves in the job, if any. */
  function Diagnose(raw: string): Option<Diagnosis> {
    var trimmed := Strip(raw);
    if trimmed == "" then Some(EmptyOutput)
    else
      match Loads(trimmed)
      case None => Some(NotJson)
      case Some(Arr(items)) => FirstFault(items, 0)
      case Some(v) => Some(NotAList(TypeName(v)))
  }

  /** The check lets a transcript pass exactly when it is well formed. */
  lemma DiagnosisIsExact(raw: string)
    ensures Diagnose(raw) == None <==> WellFormed(raw)
  {
    hide Loads, Strip;
    var trimmed := Strip(raw);
    if trimmed == "" {
      EmptyIsNotJson();
    } else {
      match Loads(trimmed)
      case None =>
      case Some(v) =>
        if v.Arr? {
          FaultIsFirst(v.items, 0);
        }
    }
  }

  /** A JSON text of a list of segments passes, however it is laid out: with spaces between tokens,
      escapes in strings, and any spelling of numbers. */
  lemma SegmentsPass(raw: string, items: seq<Json>)
    requires Spells(raw, Arr(items)) && forall i | 0 <= i < |items| :: IsSegment(items[i])
    ensures Diagnose(raw) == None
  {
    hide Loads, Spells, Strip;
    StripKeeps(raw, items);
    LoadsIsExact(Strip(raw), Arr(items));
    DiagnosisIsExact(raw);
  }

  /** In particular the printed form of any list of segments, whatever numbers their times are. */
  lemma PrintedSegmentsPass(st: Style, items: seq<Json>)
    requires Printable(Arr(items)) && forall i | 0 <= i < |items| :: IsSegment(items[i])
    ensures Diagnose(Print(st, Arr(items))) == None
  {
    hide Loads, Spells, Print, Printable, Diagnose;
    LoadsInvertsPrint(st, Arr(items));
    LoadsIsExact(Print(st, Arr(items)), Arr(items));
    SegmentsPass(Print(st, Arr(items)), items);
  }

  /** Times are often fractions of a second. */
  lemma FractionsPass(st: Style, content: string)
    ensures Diagnose(Print(st, Arr([Obj([("Start", Num("0.0")), ("End", Num("1.5")), ("Content", Str(content))])])))
         == None
  {
    hide Print, Diagnose, Lookup;
    var fields := [("Start", Num("0.0")), ("End", Num("1.5")), ("Content", Str(content))];
    assert NumberParts("0.0", 1, 3) && NumberParts("1.5", 1, 3);
    HasContent(fields, content);
    PrintableSegment(fields);
    PrintedSegmentsPass(st, [Obj(fields)]);
  }

  lemma HasContent(fields: seq<(string, Json)>, content: string)
    requires |fields| == 3 && fields[2] == ("Content", Str(content))
    ensures Lookup(fields, "Content") == Some(Str(content))
  {
  }

  lemma PrintableSegment(fields: seq<(string, Json)>)
    requires forall i | 0 <= i < |fields| :: fields[i].1.Str? || (fields[i].1.Num? && IsNumeral(fields[i].1.lexeme))
    ensures Printable(Arr([Obj(fields)]))
  {
    hide IsNumeral;
    assert Printable(Obj(fields));
  }

  /** And nothing else passes. */
  lemma OnlySegmentsPass(raw: string)
    requires Diagnose(raw) == None
    ensures exists items :: Spells(Strip(raw), Arr(items)) && forall i | 0 <= i < |items| :: IsSegment(items[i])
  {
    hide Loads, Spells, Strip;
    DiagnosisIsExact(raw);
    var items := Loads(Strip(raw)).value.items;
    LoadsIsExact(Strip(raw), Arr(items));
  }

  lemma StripKeeps(raw: string, items: seq<Json>)
    requires Spells(raw, Arr(items))
    ensures Spells(Strip(raw), Arr(items))
  {
    hide SpellsItems;
    hide Strip, Spaces, SpellsBare;
    var l, m, r :| raw == l + m + r && Spaces(l) && SpellsBare(m, Arr(items)) && Spaces(r);
    BareArray(m, items);
    StripPadded(l, m, r);
    BareSpells(m, Arr(items));
  }

  lemma BareArray(m: string, items: seq<Json>)
    requires SpellsBare(m, Arr(items))
    ensures m != "" && m[0] == '[' && m[|m| - 1] == ']' && !IsSpace('[') && !IsSpace(']')
  {
    hide SpellsItems, Spaces;
  }

  lemma BareSpells(m: string, v: Json)
    requires SpellsBare(m, v)
    ensures Spells(m, v)
  {
    hide SpellsBare;
    assert m == "" + m + "" && Spaces("");
  }

  lemma {:induction false} StripPadded(l: string, m: string, r: string)
    requires Spaces(l) && Spaces(r) && m != "" && !IsSpace(m[0]) && !IsSpace(m[|m| - 1])
    ensures Strip(l + m + r) == m
    decreases |l| + |r|
  {
    var s := l + m + r;
    if l != "" {
      assert s[1..] == l[1..] + m + r && s[0] == l[0];
      StripPadded(l[1..], m, r);
    } else if r != "" {
      assert s[0] == m[0] && s[|s| - 1] == r[|r| - 1] && s[..|s| - 1] == l + m + r[..|r| - 1];
      StripPadded(l, m, r[..|r| - 1]);
    } else {
      assert s == m;
    }
  }

  lemma EmptyIsNotJson()
    ensures Loads("") == None
  {
  }

  /** The segment complained about is the first that is not one. */
  lemma {:induction false} FaultIsFirst(items: seq<Json>, i: nat)
    requires i <= |items|
    ensures FirstFault(items, i) == None <==> forall k | i <= k < |items| :: IsSegment(items[k])
    ensures FirstFault(items, i).Some? ==>
      exists k | i <= k < |items| :: FirstFault(items, i) == SegmentFault(items[k], k)
        && !IsSegment(items[k]) && forall m | i <= m < k :: IsSegment(items[m])
    decreases |items| - i
  {
    if i < |items| && IsSegment(items[i]) {
      FaultIsFirst(items, i + 1);
    }
  }

  /** `_validate_vibevoice_output`, whose loop stops at the first bad segment. */
  method Validate(raw: string) returns (complaint: Option<Diagnosis>)
    ensures complaint == Diagnose(raw)
  {
    var trimmed := Strip(raw);
    if trimmed == "" {
      return Some(EmptyOutput);
    }
    match Loads(trimmed) {
      case None => return Some(NotJson);
      case Some(parsed) =>
        if !parsed.Arr? {
          return Some(NotAList(TypeName(parsed)));
        }
        for i := 0 to |parsed.items|
          invariant FirstFault(parsed.items, 0) == FirstFault(parsed.items, i)
        {
          var segment := parsed.items[i];
          if !segment.Obj? {
            return Some(SegmentNotObject(i, TypeName(segment)));
          }
          if Lookup(segment.fields, "Content").None? {
            return Some(SegmentWithoutContent(i));
          }
        }
        return None;
    }
  }

  /** The head of the message; the diagnostic details that follow it are not modelled. */
  function Describe(d: Diagnosis): (message: string)
    ensures message != ""
  {
    match d
    case EmptyOutput => "VibeVoice model returned empty output"
    case NotJson => "VibeVoice model output is not valid JSON"
    case NotAList(t) => "VibeVoice model output is " + t + ", expected list"
    case SegmentNotObject(i, t) => "VibeVoice segment[" + (Decimal(i) + ("] is " + t)) + ", expected object"
    case SegmentWithoutContent(i) => "VibeVoice segment[" + Decimal(i) + "] missing 'Content' key"
  }

  /** No two complaints read the same: the message tells the fault, the segment and the type found. */
  lemma MessagesTellApart(a: Diagnosis, b: Diagnosis)
    requires Describe(a) == Describe(b)
    ensures a == b
  {
    hide Decimal;
    KindIsTold(a);
    KindIsTold(b);
    match a
    case EmptyOutput =>
    case NotJson =>
    case NotAList(t) => Middle("VibeVoice model output is ", t, b.typeName, ", expected list");
    case SegmentNotObject(i, t) =>
      Middle("VibeVoice segment[", Decimal(i) + ("] is " + t), Decimal(b.index) + ("] is " + b.typeName),
             ", expected object");
      Bracket(i, "] is " + t, b.index, "] is " + b.typeName);
      Middle("] is ", t, b.typeName, "");
      SameNumber(i, b.index);
    case SegmentWithoutContent(i) =>
      Middle("VibeVoice segment[", Decimal(i), Decimal(b.index), "] missing 'Content' key");
      SameNumber(i, b.index);
  }

  lemma SameNumber(m: nat, n: nat)
    requires Decimal(m) == Decimal(n)
    ensures m == n
  {
    DecimalRoundTrip(m);
    DecimalRoundTrip(n);
  }

  lemma Middle(a: string, x: string, y: string, b: string)
    requires a + x + b == a + y + b
    ensures x == y
  {
    assert |x| == |y|;
    assert (a + x + b)[|a|..|a| + |x|] == x && (a + y + b)[|a|..|a| + |y|] == y;
  }

  /** The digits end where the bracket is. */
  lemma Bracket(m: nat, x: string, n: nat, y: string)
    requires x != "" && y != "" && x[0] == ']' && y[0] == ']' && Decimal(m) + x == Decimal(n) + y
    ensures Decimal(m) == Decimal(n) && x == y
  {
    hide Decimal;
    var a, b := Decimal(m), Decimal(n);
    var s := a + x;
    assert s[|a|] == ']' && s[|b|] == ']';
    assert forall k | 0 <= k < |a| :: s[k] == a[k] && IsDigit(a[k]);
    assert forall k | 0 <= k < |b| :: s[k] == b[k] && IsDigit(b[k]);
    assert s[..|a|] == a && s[|a|..] == x && s[..|b|] == b && s[|b|..] == y;
  }

  /** Three letters of the message tell the faults apart. */
  lemma KindIsTold(d: Diagnosis)
    ensures var m := Describe(d);
      && |m| > 17
      && (d.EmptyOutput? <==> m[10] == 'm' && m[16] == 'r')
      && (d.NotJson? <==> m[10] == 'm' && m[16] == 'o' && m[|m| - 1] == 'N')
      && (d.NotAList? <==> m[10] == 'm' && m[16] == 'o' && m[|m| - 1] == 't')
      && (d.SegmentNotObject? <==> m[10] == 's' && m[|m| - 1] == 't')
      && (d.SegmentWithoutContent? <==> m[10] == 's' && m[|m| - 1] == 'y')
  {
    hide Decimal;
  }
}
