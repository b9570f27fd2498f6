/** The server prints server-sent events (server/routes/transcribe.py); the client parses them line
    by line (client/client.py). */
module Sse {
  import opened Basics
  import opened JsonText
  import opened JsonRoundTrip
  import opened JsonGrammar
  import opened Jobs

  // ------------------------------------------------------------------ the server

  predicate IsComment(item: Item) { item.SentAccepted? || item.SentKeepalive? }

  function PayloadFields(item: Item, repr: real -> FloatText): seq<(string, Json)> {
    match item
    case SentPosition(id, position, eta) =>
      [("job_id", Str(id)), ("position", Num(Decimal(position))), ("estimated_wait_seconds", Num(repr(eta)))]
    case SentData(text) => [("text", Str(text))]
    case SentError(message) => [("error", Str(message))]
    case SentDone(id) => [("job_id", Str(id))]
    case _ => []
  }

  /** The JSON payload of an event: pydantic's `model_dump_json`, but `json.dumps` for `done`. */
  function Payload(item: Item, repr: real -> FloatText): string {
    Print(if item.SentDone? then Spaced else Compact, Obj(PayloadFields(item, repr)))
  }

  /** The lines of one item, without their line breaks. */
  function ItemLines(item: Item, repr: real -> FloatText): seq<string> {
    match item
    case SentPosition(_, _, _) => ["event: queue", "data: " + Payload(item, repr), ""]
    case SentAccepted => [": accepted", ""]
    case SentKeepalive => [": keepalive", ""]
    case SentData(_) => ["data: " + Payload(item, repr), ""]
    case SentError(_) => ["event: error", "data: " + Payload(item, repr), ""]
    case SentDone(_) => ["event: done", "data: " + Payload(item, repr), ""]
  }

  function Unlines(lines: seq<string>): string {
    if lines == [] then "" else lines[0] + "\n" + Unlines(lines[1..])
  }

  /** What `event_stream` yields for one item. */
  function PrintItem(item: Item, repr: real -> FloatText): string { Unlines(ItemLines(item, repr)) }

  /** The body of the response. */
  function Body(items: seq<Item>, repr: real -> FloatText): string {
    if items == [] then "" else PrintItem(items[0], repr) + Body(items[1..], repr)
  }

  // ------------------------------------------------------------------ the client

  /** `TranscriptionEvent`; the float keeps its spelling. */
  datatype ClientEvent =
    | QueueEvent(jobId: string, position: nat, eta: string)
    | DataEvent(text: string)
    | ErrorEvent(message: string)
    | DoneEvent(jobId: string)

  /** The generator's events so far, the event type announced last, and whether it has raised. */
  datatype Client = Client(current: string, events: seq<ClientEvent>, ok: bool)

  function TextField(fields: seq<(string, Json)>, key: string): Option<string> {
    match Lookup(fields, key)
    case Some(Str(text)) => Some(text)
    case _ => None
  }

  function NatField(fields: seq<(string, Json)>, key: string): Option<nat> {
    match Lookup(fields, key)
    case Some(Num(lexeme)) => if lexeme != "" && DigitRun(lexeme) == |lexeme| then
      Some(DecimalValue(lexeme)) else None
    case _ => None
  }

  function FloatField(fields: seq<(string, Json)>, key: string): Option<string> {
    match Lookup(fields, key)
    case Some(Num(lexeme)) => Some(lexeme)
    case _ => None
  }

  /** What one payload yields under the current event type: no event for an unknown type, and
      `None` for an exception (a missing or ill-typed field). */
  function Decode(current: string, fields: seq<(string, Json)>): Option<seq<ClientEvent>> {
    match current
    case "queue" =>
      (match (TextField(fields, "job_id"), NatField(fields, "position"), FloatField(fields, "estimated_wait_seconds"))
       case (Some(id), Some(p), Some(eta)) => Some([QueueEvent(id, p, eta)])
       case _ => None)
    case "data" =>
      (match TextField(fields, "text")
       case Some(text) => Some([DataEvent(text)])
       case None => None)
    case "error" =>
      (match TextField(fields, "error")
       case Some(message) => Some([ErrorEvent(message)])
       case None => None)
    case "done" =>
      (match TextField(fields, "job_id")
       case Some(id) => Some([DoneEvent(id)])
       case None => None)
    case _ => Some([])
  }

  const EVENT_PREFIX := "event: "
  const DATA_PREFIX := "data: "

  function RStrip(line: string): (r: string)
    ensures |r| <= |line|
  {
    if line != "" && (line[|line| - 1] == '\r' || line[|line| - 1] == '\n') then RStrip(line[..|line| - 1])
    else line
  }

  /** Line breaks go from the right end, and nothing else. */
  lemma {:induction false} RStripIsExact(line: string) returns (breaks: string)
    ensures line == RStrip(line) + breaks && forall c | c in breaks :: c == '\r' || c == '\n'
    ensures RStrip(line) != "" ==>
      RStrip(line)[|RStrip(line)| - 1] != '\r' && RStrip(line)[|RStrip(line)| - 1] != '\n'
  {
    if line != "" && (line[|line| - 1] == '\r' || line[|line| - 1] == '\n') {
      var rest := RStripIsExact(line[..|line| - 1]);
      breaks := rest + [line[|line| - 1]];
    } else {
      breaks := "";
    }
  }

  /** One turn of the client's loop. */
  function Consume(c: Client, rawLine: string): Client {
    var line := RStrip(rawLine);
    if !c.ok then c
    else if EVENT_PREFIX <= line then c.(current := line[|EVENT_PREFIX|..])
    else if !(DATA_PREFIX <= line) then c
    else
      match Loads(line[|DATA_PREFIX|..])
      case Some(Obj(fields)) =>
        (match Decode(c.current, fields)
         case Some(events) => Client("data", c.events + events, true)
         case None => c.(ok := false))
      case _ => c
  }

  /** The first line of a non-empty text, its line break included. */
  function FirstLine(s: string): (line: string)
    requires s != ""
    ensures line != "" && line <= s
  {
    if s[0] == '\n' || |s| == 1 then s[..1] else s[..1] + FirstLine(s[1..])
  }

  /** The client after reading a whole body. */
  function ReadBody(c: Client, s: string): Client
    decreases |s|
  {
    if s == "" then c
    else ReadBody(Consume(c, FirstLine(s)), s[|FirstLine(s)|..])
  }

  const START := Client("data", [], true)

  /** The reading loop itself. */
  method Transcribe(body: string) returns (events: seq<ClientEvent>, ok: bool)
    ensures Client(ReadBody(START, body).current, events, ok) == ReadBody(START, body)
  {
    var currentEvent := "data";
    events, ok := [], true;
    var rest := body;
    while rest != "" && ok
      invariant ReadBody(Client(currentEvent, events, ok), rest) == ReadBody(START, body)
      decreases |rest|
    {
      var rawLine := FirstLine(rest);
      ghost var before := Client(currentEvent, events, ok);
      rest := rest[|rawLine|..];
      var line := RStrip(rawLine);
      if EVENT_PREFIX <= line {
        currentEvent := line[|EVENT_PREFIX|..];
      } else if DATA_PREFIX <= line {
        match Loads(line[|DATA_PREFIX|..]) {
          case Some(Obj(fields)) =>
            match Decode(currentEvent, fields) {
              case Some(more) =>
                events := events + more;
                currentEvent := "data";
              case None =>
                ok := false;
            }
          case _ =>
        }
      }
      assert Client(currentEvent, events, ok) == Consume(before, rawLine);
    }
    if !ok {
      RaisedStays(Client(currentEvent, events, ok), rest);
    }
  }

  lemma RaisedStays(c: Client, s: string)
    requires !c.ok
    ensures ReadBody(c, s) == c
    decreases |s|
  {
    if s != "" {
      RaisedStays(c, s[|FirstLine(s)|..]);
    }
  }

  // ------------------------------------------------------------------ round trip

  /** The events an item stands for; comments stand for none. */
  function Meaning(item: Item, repr: real -> FloatText): seq<ClientEvent> {
    match item
    case SentPosition(id, position, eta) => [QueueEvent(id, position, repr(eta))]
    case SentData(text) => [DataEvent(text)]
    case SentError(message) => [ErrorEvent(message)]
    case SentDone(id) => [DoneEvent(id)]
    case SentAccepted => []
    case SentKeepalive => []
  }

  function Meanings(items: seq<Item>, repr: real -> FloatText): seq<ClientEvent> {
    if items == [] then [] else Meaning(items[0], repr) + Meanings(items[1..], repr)
  }

  /** A line as the server writes it: no line break inside, none at the end. */
  predicate CleanLine(line: string) {
    forall c | c in line :: c as int >= 0x20
  }

  lemma CleanStrip(line: string)
    requires CleanLine(line)
    ensures RStrip(line + "\n") == line
  {
    assert (line + "\n")[..|line|] == line;
    if line != "" {
      assert line[|line| - 1] in line;
    }
  }

  lemma {:induction false} CleanFirst(line: string, rest: string)
    requires CleanLine(line)
    ensures FirstLine(line + "\n" + rest) == line + "\n"
  {
    var s := line + "\n" + rest;
    if line == "" {
      assert s == "\n" + rest;
    } else {
      assert line[0] in line;
      assert s[1..] == line[1..] + "\n" + rest;
      assert forall c | c in line[1..] :: c in line;
      CleanFirst(line[1..], rest);
      assert line[..1] + (line[1..] + "\n") == line + "\n";
    }
  }

  /** Reading a clean line and what follows. */
  lemma ReadClean(c: Client, line: string, rest: string)
    requires CleanLine(line)
    ensures ReadBody(c, line + "\n" + rest) == ReadBody(Consume(c, line + "\n"), rest)
  {
    hide Consume;
    CleanFirst(line, rest);
    assert (line + "\n" + rest)[|line + "\n"|..] == rest;
  }

  function ConsumeAll(c: Client, lines: seq<string>): Client
    decreases |lines|
  {
    if lines == [] then c else ConsumeAll(Consume(c, lines[0] + "\n"), lines[1..])
  }

  lemma {:induction false} ReadLines(c: Client, lines: seq<string>, rest: string)
    requires forall line | line in lines :: CleanLine(line)
    ensures ReadBody(c, Unlines(lines) + rest) == ReadBody(ConsumeAll(c, lines), rest)
    decreases |lines|
  {
    hide Consume;
    if lines == [] {
      assert Unlines(lines) + rest == rest;
    } else {
      assert lines[0] in lines;
      ReadClean(c, lines[0], Unlines(lines[1..]) + rest);
      assert Unlines(lines) + rest == lines[0] + "\n" + (Unlines(lines[1..]) + rest);
      ReadLines(Consume(c, lines[0] + "\n"), lines[1..], rest);
    }
  }

  // ----------------------------------------------------------- one item at a time

  lemma EscapeIsClean(st: Style, text: string)
    ensures CleanLine(Escape(st, text)) && CleanLine(Quote(st, text))
  {
    hide Escape;
    EscapeHasNoControls(st, text);
  }

  lemma CleanConcat(a: string, b: string)
    requires CleanLine(a) && CleanLine(b)
    ensures CleanLine(a + b)
  {
  }

  lemma NumeralIsClean(lexeme: string)
    requires IsNumeral(lexeme)
    ensures CleanLine(lexeme)
  {
    hide NumberLength, JsonNumber;
    NumbersAreGrammar(lexeme);
    if lexeme != "" && NumberLength(lexeme) == |lexeme| {
      assert forall i | 0 <= i < |lexeme| :: IsNumberChar(lexeme[i]);
    }
  }

  /** Fields of the kind the events have. */
  ghost predicate PlainFields(fields: seq<(string, Json)>) {
    forall i | 0 <= i < |fields| :: fields[i].1.Str? || (fields[i].1.Num? && IsNumeral(fields[i].1.lexeme))
  }

  lemma FieldsArePlain(item: Item, repr: real -> FloatText)
    ensures PlainFields(PayloadFields(item, repr))
  {
    hide IsNumeral, Decimal;
    if item.SentPosition? {
      DecimalIsNumeral(item.position);
      assert IsNumeral(repr(item.eta));
    }
  }

  /** A payload is one clean line, and the client reads it back. */
  lemma PayloadReads(item: Item, repr: real -> FloatText)
    requires !IsComment(item)
    ensures Loads(Payload(item, repr)) == Some(Obj(PayloadFields(item, repr)))
    ensures CleanLine(Payload(item, repr))
  {
    hide Loads, Print, IsNumeral, CleanLine, PlainFields;
    var st := if item.SentDone? then Spaced else Compact;
    FieldsArePlain(item, repr);
    PlainIsPrintable(PayloadFields(item, repr));
    LoadsInvertsPrint(st, Obj(PayloadFields(item, repr)));
    PlainIsClean(st, PayloadFields(item, repr));
  }

  lemma PlainIsPrintable(fields: seq<(string, Json)>)
    requires PlainFields(fields)
    ensures Printable(Obj(fields))
  {
    hide IsNumeral;
  }

  lemma {:induction false} PlainIsClean(st: Style, fields: seq<(string, Json)>)
    requires PlainFields(fields)
    ensures CleanLine(PrintMembers(st, fields)) && CleanLine(Print(st, Obj(fields)))
    decreases |fields|
  {
    hide IsNumeral, PrintMember;
    if fields != [] {
      if fields[0].1.Num? {
        NumeralIsClean(fields[0].1.lexeme);
      }
      MemberIsClean(st, fields[0]);
      PlainIsClean(st, fields[1..]);
    }
  }

  lemma MemberIsClean(st: Style, m: (string, Json))
    requires m.1.Str? || (m.1.Num? && CleanLine(m.1.lexeme))
    ensures CleanLine(PrintMember(st, m))
  {
    EscapeIsClean(st, m.0);
    if m.1.Str? {
      EscapeIsClean(st, m.1.text);
    }
  }

  // ------------------------------------------------------------------ round trip

  lemma ConsumeEvent(c: Client, name: string)
    requires c.ok && CleanLine(name)
    ensures Consume(c, "event: " + name + "\n") == c.(current := name)
  {
    hide Loads;
    CleanConcat("event: ", name);
    CleanStrip("event: " + name);
    assert ("event: " + name)[7..] == name;
  }

  lemma ConsumePayload(c: Client, payload: string, fields: seq<(string, Json)>, events: seq<ClientEvent>)
    requires c.ok && CleanLine(payload) && Loads(payload) == Some(Obj(fields))
    requires Decode(c.current, fields) == Some(events)
    ensures Consume(c, "data: " + payload + "\n") == Client("data", c.events + events, true)
  {
    hide Loads, Decode;
    var line := "data: " + payload;
    CleanConcat("data: ", payload);
    CleanStrip(line);
    assert line[0] == 'd' && EVENT_PREFIX[0] == 'e';
    assert line[6..] == payload && line[..6] == DATA_PREFIX;
  }

  /** A comment or an empty line changes nothing. */
  lemma ConsumeOther(c: Client, line: string)
    requires line == "" || line == ": accepted" || line == ": keepalive"
    ensures Consume(c, line + "\n") == c
  {
    hide Loads, Decode, RStrip;
    CleanStrip(line);
    assert |line| >= 6 ==> line[0] == ':' && EVENT_PREFIX[0] == 'e' && DATA_PREFIX[0] == 'd';
  }

  /** A line that is neither `event: ` nor `data: ` with an object is passed over. */
  lemma QuietLineIsSkipped(c: Client, line: string, rest: string)
    requires CleanLine(line) && !("event: " <= line)
    requires "data: " <= line ==> Loads(line[6..]) == None || !Loads(line[6..]).value.Obj?
    ensures ReadBody(c, line + "\n" + rest) == ReadBody(c, rest)
  {
    hide ReadBody, Loads, RStrip, CleanLine;
    CleanStrip(line);
    ReadClean(c, line, rest);
  }

  /** So is an event of an unknown type, with any object in it. */
  lemma UnknownEventIsSkipped(c: Client, name: string, payload: string, fields: seq<(string, Json)>, rest: string)
    requires c.ok && CleanLine(name) && CleanLine(payload) && Loads(payload) == Some(Obj(fields))
    requires name != "queue" && name != "data" && name != "error" && name != "done"
    ensures ReadBody(c, "event: " + name + "\n" + ("data: " + payload + "\n" + rest))
         == ReadBody(c.(current := "data"), rest)
  {
    hide ReadBody, Loads, CleanLine, Consume;
    Prefixed(name, payload);
    ReadClean(c, "event: " + name, "data: " + payload + "\n" + rest);
    ConsumeEvent(c, name);
    ReadClean(c.(current := name), "data: " + payload, rest);
    ConsumePayload(c.(current := name), payload, fields, []);
    assert c.events + [] == c.events;
  }

  lemma Prefixed(name: string, payload: string)
    requires CleanLine(name) && CleanLine(payload)
    ensures CleanLine("event: " + name) && CleanLine("data: " + payload)
  {
  }

  function EventName(item: Item): string {
    match item
    case SentPosition(_, _, _) => "queue"
    case SentError(_) => "error"
    case SentDone(_) => "done"
    case _ => "data"
  }

  lemma TypesDiffer()
    ensures "data" != "queue" && "error" != "queue" && "done" != "queue"
    ensures "error" != "data" && "done" != "data" && "done" != "error"
  {
    assert "data"[0] != "queue"[0] && "error"[0] != "queue"[0] && "done"[0] != "queue"[0];
    assert "error"[0] != "data"[0] && "done"[1] != "data"[1] && "done"[0] != "error"[0];
  }

  lemma LookupOne(key: string, v: Json)
    ensures Lookup([(key, v)], key) == Some(v)
  {
  }

  lemma LookupThree(v0: Json, v1: Json, v2: Json)
    ensures var fields := [("job_id", v0), ("position", v1), ("estimated_wait_seconds", v2)];
      && Lookup(fields, "job_id") == Some(v0)
      && Lookup(fields, "position") == Some(v1)
      && Lookup(fields, "estimated_wait_seconds") == Some(v2)
  {
    var fields := [("job_id", v0), ("position", v1), ("estimated_wait_seconds", v2)];
    var two := [("job_id", v0), ("position", v1)];
    assert fields[..2] == two && two[..1] == [("job_id", v0)];
    assert |"job_id"| != |"position"| && |"job_id"| != |"estimated_wait_seconds"|;
    assert |"position"| != |"estimated_wait_seconds"|;
    LookupOne("job_id", v0);
    assert Lookup(two, "position") == Some(v1) && Lookup(two, "job_id") == Lookup(two[..1], "job_id");
  }

  lemma DecodePosition(id: JobId, position: nat, eta: FloatText)
    ensures Decode("queue", [("job_id", Str(id)), ("position", Num(Decimal(position))),
                             ("estimated_wait_seconds", Num(eta))])
         == Some([QueueEvent(id, position, eta)])
  {
    hide Lookup, Decimal, DecimalValue, DigitRun;
    DecimalRoundTrip(position);
    AllDigits(Decimal(position));
    LookupThree(Str(id), Num(Decimal(position)), Num(eta));
  }

  lemma DecodePayload(item: Item, repr: real -> FloatText)
    requires !IsComment(item)
    ensures Decode(EventName(item), PayloadFields(item, repr)) == Some(Meaning(item, repr))
  {
    if item.SentPosition? {
      DecodePosition(item.id, item.position, repr(item.eta));
    } else {
      DecodeOther(item, repr);
    }
  }

  lemma DecodeOther(item: Item, repr: real -> FloatText)
    requires item.SentData? || item.SentError? || item.SentDone?
    ensures Decode(EventName(item), PayloadFields(item, repr)) == Some(Meaning(item, repr))
  {
    hide Lookup, NatField, FloatField;
    TypesDiffer();
    if item.SentData? {
      LookupOne("text", Str(item.text));
    } else if item.SentError? {
      LookupOne("error", Str(item.message));
    } else {
      LookupOne("job_id", Str(item.id));
    }
  }

  /** The lines of an event: its type unless that is `data`, and its payload. */
  lemma EventLines(item: Item, repr: real -> FloatText)
    requires !IsComment(item)
    ensures ItemLines(item, repr)
         == (if item.SentData? then [] else ["event: " + EventName(item)]) + ["data: " + Payload(item, repr), ""]
    ensures CleanLine(EventName(item))
  {
    hide Payload;
    assert "event: " + "queue" == "event: queue";
    assert "event: " + "error" == "event: error";
    assert "event: " + "done" == "event: done";
  }

  lemma ItemLinesAreClean(item: Item, repr: real -> FloatText)
    ensures forall line | line in ItemLines(item, repr) :: CleanLine(line)
  {
    hide Payload, PayloadFields, EventName;
    if !IsComment(item) {
      EventLines(item, repr);
      PayloadReads(item, repr);
      hide ItemLines, CleanLine;
      CleanLiterals();
      CleanConcat("data: ", Payload(item, repr));
      CleanConcat("event: ", EventName(item));
    }
  }

  lemma CleanLiterals()
    ensures CleanLine("") && CleanLine("data: ") && CleanLine("event: ")
  {
  }

  /** One item, read in the state every item leaves behind. */
  lemma ItemReads(item: Item, repr: real -> FloatText, events: seq<ClientEvent>)
    ensures ConsumeAll(Client("data", events, true), ItemLines(item, repr))
         == Client("data", events + Meaning(item, repr), true)
  {
    if IsComment(item) {
      CommentReads(item, repr, events);
    } else {
      EventReads(item, repr, events);
    }
  }

  lemma CommentReads(item: Item, repr: real -> FloatText, events: seq<ClientEvent>)
    requires IsComment(item)
    ensures ConsumeAll(Client("data", events, true), ItemLines(item, repr))
         == Client("data", events + Meaning(item, repr), true)
  {
    hide Consume;
    var start := Client("data", events, true);
    var lines := ItemLines(item, repr);
    ConsumeOther(start, lines[0]);
    ConsumeOther(start, "");
    TwoLines(start, lines, start, start);
  }

  lemma EventReads(item: Item, repr: real -> FloatText, events: seq<ClientEvent>)
    requires !IsComment(item)
    ensures ConsumeAll(Client("data", events, true), ItemLines(item, repr))
         == Client("data", events + Meaning(item, repr), true)
  {
    hide Payload, Consume, Decode, PayloadFields, ItemLines, Meaning;
    EventLines(item, repr);
    PayloadReads(item, repr);
    DecodePayload(item, repr);
    var start := Client("data", events, true);
    var named := start.(current := EventName(item));
    var after := Client("data", events + Meaning(item, repr), true);
    var tail := ["data: " + Payload(item, repr), ""];
    ConsumePayload(named, Payload(item, repr), PayloadFields(item, repr), Meaning(item, repr));
    ConsumeOther(after, "");
    TwoLines(named, tail, after, after);
    if item.SentData? {
      assert ItemLines(item, repr) == tail;
    } else {
      ConsumeEvent(start, EventName(item));
      FirstOfThree(start, "event: " + EventName(item), tail);
    }
  }

  lemma FirstOfThree(c: Client, line: string, tail: seq<string>)
    ensures ConsumeAll(c, [line] + tail) == ConsumeAll(Consume(c, line + "\n"), tail)
  {
    hide Consume;
    assert ([line] + tail)[1..] == tail;
  }

  lemma TwoLines(c: Client, lines: seq<string>, mid: Client, end: Client)
    requires |lines| == 2 && Consume(c, lines[0] + "\n") == mid && Consume(mid, lines[1] + "\n") == end
    ensures ConsumeAll(c, lines) == end
  {
    hide Consume;
    assert ConsumeAll(end, lines[1..][1..]) == end;
    assert ConsumeAll(mid, lines[1..]) == ConsumeAll(end, lines[1..][1..]);
  }

  lemma NothingRead(c: Client)
    ensures ReadBody(c, "") == c
  {
  }

  lemma {:induction false} BodyReads(items: seq<Item>, repr: real -> FloatText, events: seq<ClientEvent>)
    ensures ReadBody(Client("data", events, true), Body(items, repr))
         == Client("data", events + Meanings(items, repr), true)
    decreases |items|
  {
    hide Consume, ConsumeAll, ReadBody, ItemLines, Meaning;
    if items == [] {
      NothingRead(Client("data", events, true));
      assert events + [] == events;
    } else {
      var lines := ItemLines(items[0], repr);
      var rest := Body(items[1..], repr);
      ItemLinesAreClean(items[0], repr);
      ReadLines(Client("data", events, true), lines, rest);
      ItemReads(items[0], repr, events);
      BodyReads(items[1..], repr, events + Meaning(items[0], repr));
      assert events + Meaning(items[0], repr) + Meanings(items[1..], repr) == events + Meanings(items, repr);
    }
  }

  /** SSE round trip: whatever items the server sends, with whatever text inside, the client yields
      exactly the events they stand for, in order, and does not raise. */
  lemma RoundTrip(items: seq<Item>, repr: real -> FloatText)
    ensures ReadBody(START, Body(items, repr)) == Client("data", Meanings(items, repr), true)
  {
    hide ReadBody, Body, Meanings;
    BodyReads(items, repr, []);
    assert [] + Meanings(items, repr) == Meanings(items, repr);
  }

  lemma PrintOne(st: Style, key: string, v: Json)
    ensures Print(st, Obj([(key, v)])) == "{" + Quote(st, key) + Colon(st) + Print(st, v) + "}"
  {
    hide Quote, Colon;
    var fields := [(key, v)];
    assert PrintMembers(st, fields) == PrintMember(st, fields[0]);
    assert PrintMember(st, (key, v)) == Quote(st, key) + Colon(st) + Print(st, v);
  }

  lemma PrintThree(k0: string, v0: Json, k1: string, v1: Json, k2: string, v2: Json)
    ensures Print(Compact, Obj([(k0, v0), (k1, v1), (k2, v2)]))
         == "{" + (Quote(Compact, k0) + ":" + Print(Compact, v0)) + ","
          + (Quote(Compact, k1) + ":" + Print(Compact, v1))
            + "," + (Quote(Compact, k2) + ":" + Print(Compact, v2)) + "}"
  {
    hide Quote, Print, PrintMember, PrintMembers;
    var fields := [(k0, v0), (k1, v1), (k2, v2)];
    PrintOneMember(k0, v0);
    PrintOneMember(k1, v1);
    PrintOneMember(k2, v2);
    ThreeMembers(Compact, fields);
  }

  lemma PrintOneMember(key: string, v: Json)
    ensures PrintMember(Compact, (key, v)) == Quote(Compact, key) + ":" + Print(Compact, v)
  {
    hide Quote, Print;
  }

  lemma WireLines(lines: seq<string>)
    ensures |lines| == 2 ==> Unlines(lines) == lines[0] + "\n" + lines[1] + "\n"
    ensures |lines| == 3 ==> Unlines(lines) == lines[0] + "\n" + lines[1] + "\n" + lines[2] + "\n"
  {
    if |lines| >= 2 {
      assert Unlines(lines[1..][1..]) == if |lines| == 2 then "" else lines[2] + "\n" + Unlines(lines[1..][1..][1..]);
    }
  }

  /** The events on the wire. */
  lemma WireFormat(id: JobId, position: nat, eta: real, text: string, repr: real -> FloatText)
    ensures PrintItem(SentPosition(id, position, eta), repr) == "event: queue\ndata: "
      + ("{" + (Quote(Compact, "job_id") + ":" + Quote(Compact, id))
         + "," + (Quote(Compact, "position") + ":" + Decimal(position)) + ","
         + (Quote(Compact, "estimated_wait_seconds") + ":" + repr(eta)) + "}") + "\n\n"
    ensures PrintItem(SentAccepted, repr) == ": accepted\n\n" && PrintItem(SentKeepalive, repr) == ": keepalive\n\n"
    ensures PrintItem(SentData(text), repr)
      == "data: " + ("{" + Quote(Compact, "text") + ":" + Quote(Compact, text) + "}")
      + "\n\n"
    ensures PrintItem(SentError(text), repr)
         == "event: error\ndata: " + ("{" + Quote(Compact, "error") + ":" + Quote(Compact, text) + "}") + "\n\n"
    ensures PrintItem(SentDone(id), repr)
         == "event: done\ndata: " + ("{" + Quote(Spaced, "job_id") + ": " + Quote(Spaced, id) + "}") + "\n\n"
  {
    PositionOnWire(id, position, eta, repr);
    CommentsOnWire(repr);
    DataOnWire(text, repr);
    ErrorOnWire(text, repr);
    DoneOnWire(id, repr);
  }

  lemma PositionOnWire(id: JobId, position: nat, eta: real, repr: real -> FloatText)
    ensures PrintItem(SentPosition(id, position, eta), repr) == "event: queue\ndata: "
      + ("{" + (Quote(Compact, "job_id") + ":" + Quote(Compact, id))
         + "," + (Quote(Compact, "position") + ":" + Decimal(position)) + ","
         + (Quote(Compact, "estimated_wait_seconds") + ":" + repr(eta)) + "}") + "\n\n"
  {
    hide Quote, Decimal, Unlines, Payload;
    var item := SentPosition(id, position, eta);
    PositionPayload(id, position, eta, repr);
    WireLines(ItemLines(item, repr));
  }

  lemma PositionPayload(id: JobId, position: nat, eta: real, repr: real -> FloatText)
    ensures Payload(SentPosition(id, position, eta), repr)
      == "{" + (Quote(Compact, "job_id") + ":" + Quote(Compact, id))
      + "," + (Quote(Compact, "position") + ":" + Decimal(position)) + ","
      + (Quote(Compact, "estimated_wait_seconds") + ":" + repr(eta)) + "}"
  {
    hide Quote, Decimal, PrintMembers;
    PrintThree("job_id", Str(id), "position", Num(Decimal(position)), "estimated_wait_seconds", Num(repr(eta)));
  }

  lemma CommentsOnWire(repr: real -> FloatText)
    ensures PrintItem(SentAccepted, repr) == ": accepted\n\n" && PrintItem(SentKeepalive, repr) == ": keepalive\n\n"
  {
    hide Unlines;
    WireLines(ItemLines(SentAccepted, repr));
    WireLines(ItemLines(SentKeepalive, repr));
  }

  lemma DataOnWire(text: string, repr: real -> FloatText)
    ensures PrintItem(SentData(text), repr)
      == "data: " + ("{" + Quote(Compact, "text") + ":" + Quote(Compact, text) + "}")
      + "\n\n"
  {
    hide Quote, Unlines, PrintMembers;
    WireLines(ItemLines(SentData(text), repr));
    PrintOne(Compact, "text", Str(text));
  }

  lemma ErrorOnWire(text: string, repr: real -> FloatText)
    ensures PrintItem(SentError(text), repr)
         == "event: error\ndata: " + ("{" + Quote(Compact, "error") + ":" + Quote(Compact, text) + "}") + "\n\n"
  {
    hide Quote, Unlines, PrintMembers;
    WireLines(ItemLines(SentError(text), repr));
    PrintOne(Compact, "error", Str(text));
  }

  lemma DoneOnWire(id: JobId, repr: real -> FloatText)
    ensures PrintItem(SentDone(id), repr)
         == "event: done\ndata: " + ("{" + Quote(Spaced, "job_id") + ": " + Quote(Spaced, id) + "}") + "\n\n"
  {
    hide Quote, Unlines, PrintMembers;
    WireLines(ItemLines(SentDone(id), repr));
    PrintOne(Spaced, "job_id", Str(id));
  }
}
