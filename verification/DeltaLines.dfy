/** What one line of vLLM's reply means, said of the line and the JSON value in it; and that the
    generator takes it so. */
module DeltaLines {
  import opened Basics
  import opened JsonText
  import opened VllmStream

  const DATA := "data: "

  /** The end of the reply. */
  predicate IsDone(line: string) { DATA <= line && Strip(line[6..]) == "[DONE]" }

  /** The object of the event, if the line holds one. */
  ghost predicate Holds(line: string, fields: seq<(string, Json)>) {
    DATA <= line && Strip(line[6..]) != "[DONE]" && Loads(line[6..]) == Some(Obj(fields))
  }

  ghost predicate HasDelta(fields: seq<(string, Json)>, choices: seq<Json>, choice: seq<(string, Json)>,
                           delta: seq<(string, Json)>)
  {
    && Lookup(fields, "choices") == Some(Arr(choices)) && choices != [] && choices[0] == Obj(choice)
    && Lookup(choice, "delta") == Some(Obj(delta))
  }

  /** The line carries a piece of the transcript, whatever else is in it. */
  ghost predicate Carries(line: string, text: string) {
    && text != ""
    && exists fields, choices, choice, delta ::
         Holds(line, fields) && HasDelta(fields, choices, choice, delta) && Lookup(delta, "content") == Some(Str(text))
  }

  predicate Empty(v: Json) {
    v == Null || v == Bool(false) || v == Str("") || v == Arr([]) || v == Obj([]) || v == Num("0")
  }

  ghost predicate QuietDelta(delta: seq<(string, Json)>) {
    Lookup(delta, "content") == None || Lookup(delta, "content") == Some(Null)
    || Lookup(delta, "content") == Some(Str(""))
  }

  ghost predicate QuietChoice(choice: seq<(string, Json)>) {
    match Lookup(choice, "delta")
    case None => true
    case Some(Obj(delta)) => QuietDelta(delta)
    case Some(_) => false
  }

  ghost predicate QuietObject(fields: seq<(string, Json)>) {
    match Lookup(fields, "choices")
    case None => true
    case Some(choices) =>
      Empty(choices) || (choices.Arr? && choices.items[0].Obj? && QuietChoice(choices.items[0].fields))
  }

  /** A line that means nothing to the loop: blank lines, comments and other fields of the event
      stream, text that is not JSON, and events without a piece of the transcript. */
  ghost predicate Quiet(line: string) {
    || !(DATA <= line)
    || (Strip(line[6..]) != "[DONE]" && Loads(line[6..]) == None)
    || exists fields :: Holds(line, fields) && QuietObject(fields)
  }

  /** `key in v` raises, or says yes where `v[key]` then raises. */
  predicate Refuses(v: Json, key: string) {
    match v
    case Obj(_) => false
    case Arr(items) => Str(key) in items
    case Str(text) => exists k :: 0 <= k <= |text| && key <= text[k..]
    case _ => true
  }

  predicate BreaksDelta(delta: Json) {
    Refuses(delta, "content")
    || (delta.Obj? && Lookup(delta.fields, "content").Some?
        && !Lookup(delta.fields, "content").value.Str? && Truthy(Lookup(delta.fields, "content").value))
  }

  predicate BreaksChoice(choice: Json) {
    Refuses(choice, "delta")
    || (choice.Obj? && Lookup(choice.fields, "delta").Some? && BreaksDelta(Lookup(choice.fields, "delta").value))
  }

  predicate BreaksChoices(choices: Json) {
    match choices
    case Arr(items) => items != [] && BreaksChoice(items[0])
    case Str(_) => false
    case _ => Truthy(choices)
  }

  /** A line with a JSON value of a shape the loop does not expect. */
  ghost predicate Breaks(line: string) {
    && DATA <= line && Strip(line[6..]) != "[DONE]"
    && match Loads(line[6..])
       case None => false
       case Some(v) =>
         || Refuses(v, "choices")
         || (v.Obj? && Lookup(v.fields, "choices").Some? && BreaksChoices(Lookup(v.fields, "choices").value))
  }

  // ------------------------------------------------- what the generator makes of it

  lemma EmptyIsFalsy(v: Json)
    ensures Empty(v) ==> !Truthy(v)
  {
    if v == Num("0") {
      ZeroIsZero();
    }
  }

  lemma ZeroIsZero()
    ensures IsZero("0")
  {
    var s := "0";
    assert s[1..] == "" && s[..1] == s;
    assert DigitsOf(s) == "0" by {
      assert DigitsOf("") == "";
    }
    assert Until(s, "eE") == 1;
    assert NumberLength(s) > 0;
    assert DecimalValue("0") == 0 by {
      assert "0"[..0] == "";
    }
  }

  lemma QuietSkips(line: string)
    requires Quiet(line)
    ensures DeltaOfLine(line) == Skip
  {
    hide Loads, Strip, Lookup, Truthy;
    if DATA <= line && Loads(line[6..]) != None {
      var fields :| Holds(line, fields) && QuietObject(fields);
      QuietData(fields);
    }
  }

  lemma QuietData(fields: seq<(string, Json)>)
    requires QuietObject(fields)
    ensures DeltaOfData(Obj(fields)) == Skip
  {
    hide Lookup, Truthy;
    match Lookup(fields, "choices")
    case None =>
    case Some(choices) =>
      EmptyIsFalsy(choices);
      FullIsTruthy(choices);
      if !Empty(choices) {
        QuietPiece(choices.items[0].fields);
      }
  }

  lemma FullIsTruthy(v: Json)
    ensures v.Arr? && v.items != [] ==> Truthy(v)
  {
  }

  lemma QuietPiece(choice: seq<(string, Json)>)
    requires QuietChoice(choice)
    ensures DeltaOfChoice(Obj(choice)) == Skip
  {
    hide Lookup, Truthy;
    EmptyIsFalsy(Null);
  }

  lemma DoneFinishes(line: string)
    ensures DeltaOfLine(line) == Finished <==> IsDone(line)
  {
    hide Loads, Strip, Lookup, Truthy;
  }

  lemma CarriedIsChunk(line: string, text: string)
    requires Carries(line, text)
    ensures DeltaOfLine(line) == Chunk(text)
  {
    hide Loads, Strip, Lookup, Truthy;
    var fields, choices, choice, delta :|
      Holds(line, fields) && HasDelta(fields, choices, choice, delta) && Lookup(delta, "content") == Some(Str(text));
    FullIsTruthy(Arr(choices));
  }

  lemma ChunkIsCarried(line: string, text: string)
    requires DeltaOfLine(line) == Chunk(text)
    ensures Carries(line, text)
  {
    hide Loads, Strip, Lookup, Truthy;
    var fields := Loads(line[6..]).value.fields;
    var choices := Lookup(fields, "choices").value.items;
    var choice := choices[0].fields;
    var delta := Lookup(choice, "delta").value.fields;
    assert Holds(line, fields) && HasDelta(fields, choices, choice, delta);
  }

  lemma RefusedRaises(v: Json, key: string)
    ensures Refuses(v, key) <==> Contains(v, key) == None || (Contains(v, key) == Some(true) && Index(v, key) == None)
  {
    if v.Str? {
      OccursIsExact(key, v.text);
    }
  }

  lemma NotInOneChar(text: string, key: string)
    requires |text| == 1 && |key| > 1
    ensures !Refuses(Str(text), key) && !Occurs(key, text)
  {
    assert !Occurs(key, text[1..]);
    RefusedRaises(Str(text), key);
  }

  lemma BreaksInDelta(choice: Json)
    ensures DeltaOfChoice(choice) == Crash <==> BreaksChoice(choice)
  {
    hide Lookup, Truthy, Refuses;
    RefusedRaises(choice, "delta");
    if choice.Obj? && Lookup(choice.fields, "delta").Some? {
      RefusedRaises(Lookup(choice.fields, "delta").value, "content");
      NoTextIsFalsy();
    }
  }

  lemma NoTextIsFalsy()
    ensures !Truthy(Str("")) && !Truthy(Arr([]))
    ensures forall t | t != "" :: Truthy(Str(t))
  {
  }

  lemma BreaksInData(data: Json)
    ensures DeltaOfData(data) == Crash <==>
      || Refuses(data, "choices")
      || (data.Obj? && Lookup(data.fields, "choices").Some? && BreaksChoices(Lookup(data.fields, "choices").value))
  {
    hide Lookup, Truthy, Refuses, DeltaOfChoice, BreaksChoice;
    RefusedRaises(data, "choices");
    NoTextIsFalsy();
    if data.Obj? && Lookup(data.fields, "choices").Some? {
      FirstChoice(Lookup(data.fields, "choices").value);
    }
  }

  lemma FirstChoice(choices: Json)
    ensures choices.Arr? && choices.items != [] ==>
      Truthy(choices) && (DeltaOfChoice(choices.items[0]) == Crash <==> BreaksChoice(choices.items[0]))
    ensures choices.Str? && choices.text != "" ==> DeltaOfChoice(Str(choices.text[..1])) != Crash
  {
    hide Lookup, Refuses, DeltaOfChoice, BreaksChoice;
    if choices.Arr? && choices.items != [] {
      BreaksInDelta(choices.items[0]);
    }
    if choices.Str? && choices.text != "" {
      LetterIsQuiet(choices.text[..1]);
    }
  }

  lemma LetterIsQuiet(letter: string)
    requires |letter| == 1
    ensures DeltaOfChoice(Str(letter)) != Crash
  {
    hide Occurs;
    NotInOneChar(letter, "delta");
  }

  lemma BrokenCrashes(line: string)
    ensures DeltaOfLine(line) == Crash <==> Breaks(line)
  {
    hide Loads, Strip, Lookup, Truthy, Refuses, DeltaOfData, BreaksChoices;
    if DATA <= line && Loads(line[6..]).Some? {
      BreaksInData(Loads(line[6..]).value);
    }
  }

  /** One more line: a quiet one changes nothing, one that carries a piece adds it, `[DONE]` ends the
      generator, and nothing else adds a piece or ends it so; it raises exactly on a line whose JSON has
      an unexpected shape. After the end no line matters. */
  lemma OneMoreLine(lines: seq<string>, line: string)
    ensures var r, r' := ReplyOf(lines), ReplyOf(lines + [line]);
      && (r.ending != Pending ==> r' == r)
      && (Quiet(line) ==> r' == r)
      && (r.ending == Pending ==>
            && (IsDone(line) ==> r' == Reply(r.chunks, Ended))
            && (forall text | Carries(line, text) :: r' == Reply(r.chunks + [text], Pending))
            && (r'.ending == Ended ==> IsDone(line))
            && (r'.ending == Broken <==> Breaks(line))
            && (r'.chunks == r.chunks || exists text :: Carries(line, text) && r'.chunks == r.chunks + [text]))
  {
    hide DeltaOfLine, Quiet, Carries, IsDone, Breaks;
    ReplyAppend(lines, line);
    DoneFinishes(line);
    BrokenCrashes(line);
    if Quiet(line) {
      QuietSkips(line);
    }
    forall text | Carries(line, text)
      ensures DeltaOfLine(line) == Chunk(text)
    {
      CarriedIsChunk(line, text);
    }
    if DeltaOfLine(line).Chunk? {
      ChunkIsCarried(line, DeltaOfLine(line).text);
    }
  }

  /** These lines carry these pieces, in this order, and nothing else. */
  ghost predicate Tells(lines: seq<string>, texts: seq<string>)
    decreases |lines|
  {
    if lines == [] then texts == []
    else
      var n := |lines| - 1;
      || (Quiet(lines[n]) && Tells(lines[..n], texts))
      || (texts != [] && Carries(lines[n], texts[|texts| - 1]) && Tells(lines[..n], texts[..|texts| - 1]))
  }

  /** The generator yields what the lines carry. */
  lemma {:induction false} ToldIsYielded(lines: seq<string>, texts: seq<string>)
    requires Tells(lines, texts)
    ensures ReplyOf(lines) == Reply(texts, Pending)
    decreases |lines|
  {
    hide ReplyOf, Quiet, Carries, IsDone;
    if lines == [] {
      NothingYet();
    } else {
      var n := |lines| - 1;
      OneMoreLine(lines[..n], lines[n]);
      assert lines[..n] + [lines[n]] == lines;
      if Quiet(lines[n]) && Tells(lines[..n], texts) {
        ToldIsYielded(lines[..n], texts);
      } else {
        ToldIsYielded(lines[..n], texts[..|texts| - 1]);
        assert texts == texts[..|texts| - 1] + [texts[|texts| - 1]];
      }
    }
  }

  lemma NothingYet()
    ensures ReplyOf([]) == Reply([], Pending)
  {
  }

  /** `[DONE]` ends it there, whatever follows. */
  lemma {:induction false} DoneEndsIt(lines: seq<string>, texts: seq<string>, done: string, after: seq<string>)
    requires Tells(lines, texts) && IsDone(done)
    ensures ReplyOf(lines + [done] + after) == Reply(texts, Ended)
    decreases |after|
  {
    hide ReplyOf, IsDone;
    if after == [] {
      ToldIsYielded(lines, texts);
      OneMoreLine(lines, done);
      assert lines + [done] + after == lines + [done];
    } else {
      var n := |after| - 1;
      DoneEndsIt(lines, texts, done, after[..n]);
      OneMoreLine(lines + [done] + after[..n], after[n]);
      assert lines + [done] + after == lines + [done] + after[..n] + [after[n]];
    }
  }
}
