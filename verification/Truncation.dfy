/** The connection may break anywhere: what the client makes of the beginning of a response. */
module Truncation {
  import opened Basics
  import opened JsonText
  import opened JsonPrefix
  import opened JsonRoundTrip
  import opened Jobs
  import opened Sse

  /** What decoding makes of the bytes of a character that did not all arrive. */
  const REPLACEMENT := '\U{FFFD}'

  /** What the client has when the connection breaks: a beginning of what was sent, and a replacement
      character behind it if the break fell inside a character of more than one byte. */
  predicate Broken(received: string, sent: string) {
    || received <= sent
    || (received != "" && |received| <= |sent| && sent[|received| - 1] as int >= 0x80
        && received == sent[..|received| - 1] + [REPLACEMENT])
  }

  lemma {:induction false} CleanWhole(p: string)
    requires p != "" && CleanLine(p)
    ensures FirstLine(p) == p && RStrip(p) == p
  {
    assert p[0] in p && p[|p| - 1] in p;
    if |p| > 1 {
      assert forall c | c in p[1..] :: c in p;
      CleanWhole(p[1..]);
    }
  }

  lemma BrokenConcat(p: string, a: string, b: string)
    requires Broken(p, a + b)
    ensures Broken(p, a) || (|a| <= |p| && p == a + p[|a|..] && Broken(p[|a|..], b))
  {
    if p <= a + b {
      if |p| <= |a| {
        assert p == (a + b)[..|p|] == a[..|p|];
      } else {
        assert p == (a + b)[..|p|] && (a + b)[|a|..] == b;
        assert p[|a|..] == b[..|p| - |a|];
      }
    } else {
      var n := |p| - 1;
      if n < |a| {
        assert (a + b)[..n] == a[..n];
      } else {
        assert (a + b)[..n] == a + b[..n - |a|];
        assert p == a + (b[..n - |a|] + [REPLACEMENT]);
      }
    }
  }

  lemma BrokenIsClean(p: string, line: string)
    requires Broken(p, line) && CleanLine(line)
    ensures CleanLine(p)
  {
    forall c | c in p
      ensures c as int >= 0x20
    {
      assert c in line || c == REPLACEMENT;
    }
  }

  /** Reading a broken line and more: the break is either inside the line or behind it. */
  lemma CutLine(c: Client, line: string, rest: string, p: string)
    requires CleanLine(line) && Broken(p, line + "\n" + rest)
    ensures
      || (Broken(p, line) && ReadBody(c, p) == if p == "" then c else Consume(c, p))
      || (exists q :: Broken(q, rest) && p == line + "\n" + q && ReadBody(c, p) == ReadBody(Consume(c, line + "\n"), q))
  {
    hide Consume;
    BrokenConcat(p, line + "\n", rest);
    if Broken(p, line + "\n") {
      BrokenConcat(p, line, "\n");
      if Broken(p, line) {
        BrokenIsClean(p, line);
        if p != "" {
          CleanWhole(p);
          assert p[|p|..] == "";
        }
      } else {
        assert p == line + "\n" + "";
        ReadClean(c, line, "");
      }
    } else {
      ReadClean(c, line, p[|line + "\n"|..]);
    }
  }

  /** Lines that carry no payload yield nothing, however they are broken. */
  lemma CutQuiet(c: Client, line: string, p: string)
    requires c.ok && CleanLine(line) && Broken(p, line) && p != "" && line[0] != 'd'
    ensures Consume(c, p).ok && Consume(c, p).events == c.events
  {
    hide Loads, Decode;
    assert p[0] == line[0] || p[0] == REPLACEMENT;
    assert DATA_PREFIX[0] == 'd';
    BrokenIsClean(p, line);
    CleanWhole(p);
  }

  lemma CutMark(c: Client, payload: string, p: string)
    requires c.ok && CleanLine(payload) && p <= "data: " + payload && 0 < |p| < 6
    ensures Consume(c, p) == c
  {
    hide Loads, Decode;
    var line := "data: " + payload;
    CleanConcat("data: ", payload);
    assert forall ch | ch in p :: ch in line;
    CleanWhole(p);
    assert p[0] == line[0] && line[0] == 'd' && EVENT_PREFIX[0] == 'e';
  }

  /** The line break at the end of a line makes no difference. */
  lemma BreakIsStripped(c: Client, line: string)
    requires line != "" && CleanLine(line)
    ensures Consume(c, line) == Consume(c, line + "\n")
  {
    hide Loads, Decode;
    CleanWhole(line);
    CleanStrip(line);
  }

  lemma NoObjectNoEvent(c: Client, part: string)
    requires c.ok && CleanLine(part) && (Loads(part).None? || !Loads(part).value.Obj?)
    ensures Consume(c, "data: " + part + "\n") == c
  {
    hide Loads, Decode, RStrip;
    var line := "data: " + part;
    CleanConcat("data: ", part);
    CleanStrip(line);
    assert line[0] == 'd' && EVENT_PREFIX[0] == 'e';
    assert line[6..] == part && line[..6] == DATA_PREFIX;
  }

  /** A payload yields its event when it is all there, and nothing before. */
  lemma CutPayload(c: Client, payload: string, fields: seq<(string, Json)>, events: seq<ClientEvent>, p: string)
    requires c.ok && CleanLine(payload) && Loads(payload) == Some(Obj(fields))
    requires payload != "" && payload[|payload| - 1] == '}'
    requires Decode(c.current, fields) == Some(events)
    requires Broken(p, "data: " + payload) && p != ""
    ensures Consume(c, p) == if p == "data: " + payload then Client("data", c.events + events, true) else c
  {
    hide Loads, Decode, Consume, RStrip, CleanLine, Broken;
    BrokenData(p, payload);
    if |p| < 6 {
      CutMark(c, payload, p);
    } else {
      var part := p[6..];
      BrokenIsClean(part, payload);
      CleanLiterals();
      CleanConcat("data: ", part);
      BreakIsStripped(c, p);
      if part == payload {
        ConsumePayload(c, payload, fields, events);
      } else {
        BrokenObject(part, payload);
        NoObjectNoEvent(c, part);
      }
    }
  }

  /** The mark in front of a payload has no character a break could fall into. */
  lemma BrokenData(p: string, payload: string)
    requires Broken(p, "data: " + payload)
    ensures |p| < 6 ==> p <= "data: " + payload
    ensures |p| >= 6 ==> p == "data: " + p[6..] && Broken(p[6..], payload)
  {
    BrokenConcat(p, "data: ", payload);
    var mark := "data: ";
    assert forall k | 0 <= k < 6 :: mark[k] as int < 0x80;
    assert (mark + payload)[..6] == mark;
    if Broken(p, mark) {
      assert p <= mark;
      assert |p| == 6 ==> p[6..] == "";
    }
  }

  /** A broken payload is no object. */
  lemma BrokenObject(part: string, payload: string)
    requires Broken(part, payload) && part != payload
    requires payload != "" && payload[|payload| - 1] == '}' && Loads(payload).Some?
    ensures Loads(part).None? || !Loads(part).value.Obj?
  {
    hide Loads;
    if part <= payload {
      var missing := payload[|part|..];
      assert payload == part + missing && missing[|missing| - 1] == '}';
      CutObjectIsNoObject(part, missing);
    } else if Loads(part).Some? && Loads(part).value.Obj? {
      ObjectEnds(part);
    }
  }

  /** The client after the beginning of a response: still running, with the first of the events. */
  predicate Cut(c: Client, before: seq<ClientEvent>, all: seq<ClientEvent>) {
    c.ok && before <= c.events && c.events <= all
  }

  lemma PayloadEnds(item: Item, repr: real -> FloatText)
    requires !IsComment(item)
    ensures var payload := Payload(item, repr); payload != "" && payload[|payload| - 1] == '}'
  {
    hide PayloadFields;
  }

  /** An item's payload line and the empty line after it, cut short. */
  lemma CutEvent(item: Item, repr: real -> FloatText, events: seq<ClientEvent>, p: string)
    requires !IsComment(item) && Broken(p, "data: " + Payload(item, repr) + "\n" + "\n")
    ensures Cut(ReadBody(Client(EventName(item), events, true), p), events, events + Meaning(item, repr))
  {
    hide Payload, Consume, Decode, Loads, PayloadFields, Meaning, EventName, CleanLine;
    var c := Client(EventName(item), events, true);
    var after := Client("data", events + Meaning(item, repr), true);
    var line := "data: " + Payload(item, repr);
    PayloadReads(item, repr);
    PayloadEnds(item, repr);
    DecodePayload(item, repr);
    CleanLiterals();
    CleanConcat("data: ", Payload(item, repr));
    CutLine(c, line, "\n", p);
    if Broken(p, line) && ReadBody(c, p) == (if p == "" then c else Consume(c, p)) {
      if p != "" {
        CutPayload(c, Payload(item, repr), PayloadFields(item, repr), Meaning(item, repr), p);
      }
    } else {
      ConsumePayload(c, Payload(item, repr), PayloadFields(item, repr), Meaning(item, repr));
      var q :| Broken(q, "\n") && p == line + "\n" + q && ReadBody(c, p) == ReadBody(Consume(c, line + "\n"), q);
      CutBreak(after, q);
    }
  }

  lemma CutBreak(c: Client, q: string)
    requires Broken(q, "\n")
    ensures ReadBody(c, q) == c
  {
    if q != "" {
      assert q == "\n";
      ConsumeOther(c, "");
      assert FirstLine(q) == "\n";
    }
  }

  lemma PrintedComment(item: Item, repr: real -> FloatText)
    requires IsComment(item)
    ensures PrintItem(item, repr) == ItemLines(item, repr)[0] + "\n" + "\n"
    ensures ItemLines(item, repr)[0] == ": accepted" || ItemLines(item, repr)[0] == ": keepalive"
  {
    var lines := ItemLines(item, repr);
    assert Unlines(lines[1..][1..]) == "";
    assert Unlines(lines[1..]) == "" + "\n" + Unlines(lines[1..][1..]);
  }

  lemma CutComment(item: Item, repr: real -> FloatText, events: seq<ClientEvent>, p: string)
    requires IsComment(item) && Broken(p, PrintItem(item, repr))
    ensures Cut(ReadBody(Client("data", events, true), p), events, events)
  {
    hide Consume;
    var c := Client("data", events, true);
    var line := ItemLines(item, repr)[0];
    PrintedComment(item, repr);
    CutLine(c, line, "\n", p);
    if Broken(p, line) && ReadBody(c, p) == (if p == "" then c else Consume(c, p)) {
      if p != "" {
        CutQuiet(c, line, p);
      }
    } else {
      ConsumeOther(c, line);
      var q :| Broken(q, "\n") && p == line + "\n" + q && ReadBody(c, p) == ReadBody(Consume(c, line + "\n"), q);
      CutBreak(c, q);
    }
  }

  lemma PrintedEvent(item: Item, repr: real -> FloatText)
    requires !IsComment(item)
    ensures PrintItem(item, repr)
         == (if item.SentData? then "" else "event: " + EventName(item) + "\n")
            + ("data: " + Payload(item, repr) + "\n" + "\n")
    ensures CleanLine(EventName(item))
  {
    hide Payload, EventName, ItemLines;
    EventLines(item, repr);
    TwoUnlines("data: " + Payload(item, repr));
    var tail := ["data: " + Payload(item, repr), ""];
    if item.SentData? {
      assert ItemLines(item, repr) == tail;
    } else {
      assert ItemLines(item, repr)[1..] == tail;
    }
  }

  lemma TwoUnlines(line: string)
    ensures Unlines([line, ""]) == line + "\n" + "\n"
  {
    var lines := [line, ""];
    assert Unlines(lines[1..][1..]) == "";
    assert Unlines(lines[1..]) == "" + "\n" + Unlines(lines[1..][1..]);
  }

  lemma CutNamed(item: Item, repr: real -> FloatText, events: seq<ClientEvent>, p: string)
    requires !IsComment(item) && !item.SentData? && Broken(p, PrintItem(item, repr))
    ensures Cut(ReadBody(Client("data", events, true), p), events, events + Meaning(item, repr))
  {
    hide Payload, Consume, PrintItem, EventName, CleanLine, Meaning;
    var c := Client("data", events, true);
    var line := "event: " + EventName(item);
    var rest := "data: " + Payload(item, repr) + "\n" + "\n";
    PrintedEvent(item, repr);
    CleanLiterals();
    CleanConcat("event: ", EventName(item));
    CutLine(c, line, rest, p);
    if Broken(p, line) && ReadBody(c, p) == (if p == "" then c else Consume(c, p)) {
      if p != "" {
        CutQuiet(c, line, p);
      }
    } else {
      ConsumeEvent(c, EventName(item));
      var q :| Broken(q, rest) && p == line + "\n" + q && ReadBody(c, p) == ReadBody(Consume(c, line + "\n"), q);
      CutEvent(item, repr, events, q);
    }
  }

  /** One item, cut short. */
  lemma CutItem(item: Item, repr: real -> FloatText, events: seq<ClientEvent>, p: string)
    requires Broken(p, PrintItem(item, repr))
    ensures Cut(ReadBody(Client("data", events, true), p), events, events + Meaning(item, repr))
  {
    hide Payload, PrintItem, ReadBody;
    if IsComment(item) {
      CutComment(item, repr, events, p);
    } else if item.SentData? {
      PrintedEvent(item, repr);
      CutEvent(item, repr, events, p);
    } else {
      CutNamed(item, repr, events, p);
    }
  }

  lemma {:induction false} CutBody(items: seq<Item>, repr: real -> FloatText, events: seq<ClientEvent>, p: string)
    requires Broken(p, Body(items, repr))
    ensures Cut(ReadBody(Client("data", events, true), p), events, events + Meanings(items, repr))
    decreases |items|
  {
    hide PrintItem, Meaning, ReadBody;
    if items == [] {
      NothingRead(Client("data", events, true));
    } else {
      var head := PrintItem(items[0], repr);
      var next := events + Meaning(items[0], repr);
      assert events + Meanings(items, repr) == next + Meanings(items[1..], repr);
      BrokenConcat(p, head, Body(items[1..], repr));
      if Broken(p, head) {
        CutItem(items[0], repr, events, p);
      } else {
        var q := p[|head|..];
        WholeItem(items[0], repr, events, q);
        CutBody(items[1..], repr, next, q);
      }
    }
  }

  lemma WholeItem(item: Item, repr: real -> FloatText, events: seq<ClientEvent>, q: string)
    ensures ReadBody(Client("data", events, true), PrintItem(item, repr) + q)
         == ReadBody(Client("data", events + Meaning(item, repr), true), q)
  {
    hide ItemLines, Consume, ReadBody, ConsumeAll, Meaning;
    ItemLinesAreClean(item, repr);
    ReadLines(Client("data", events, true), ItemLines(item, repr), q);
    ItemReads(item, repr, events);
  }

  /** A response broken anywhere, even inside a character, gives the client a beginning of the events
      that the whole response stands for: none is altered, none is made up, and it does not raise. */
  lemma CutIsPrefix(items: seq<Item>, repr: real -> FloatText, received: string)
    requires Broken(received, Body(items, repr))
    ensures ReadBody(START, received).ok
    ensures ReadBody(START, received).events <= Meanings(items, repr)
  {
    hide ReadBody;
    CutBody(items, repr, [], received);
    assert [] + Meanings(items, repr) == Meanings(items, repr);
  }
}
