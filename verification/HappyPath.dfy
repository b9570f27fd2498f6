/** Nothing in the way of a good transcript: whatever reply it comes in, there is a run in which the
    client reads exactly its pieces and DONE. */
module HappyPath {
  import opened Basics
  import opened Jobs
  import opened Machine
  import opened JsonText
  import opened JsonGrammar
  import opened JsonRoundTrip
  import opened Witnesses
  import opened DeltaLines
  import VllmStream
  import Transcript
  import Delivery
  import EndToEnd
  import Sse
  import JobInvariant

  // ------------------------------------------------------------- vLLM's own lines

  function Choice(text: string): Json { Obj([("delta", Obj([("content", Str(text))]))]) }

  function Delta(text: string): Json { Obj([("choices", Arr([Choice(text)]))]) }

  /** A line as vLLM writes it for one piece of the transcript. */
  function DeltaLine(text: string): string { EventLine(Delta(text).fields) }

  function EventLine(fields: seq<(string, Json)>): string { "data: " + Print(Compact, Obj(fields)) }

  lemma LookupOnly(key: string, v: Json)
    ensures Lookup([(key, v)], key) == Some(v)
  {
  }

  lemma ObjectIsStripped(st: Style, fields: seq<(string, Json)>)
    ensures var s := Print(st, Obj(fields)); s != "" && Strip(s) == s && s[0] == '{'
  {
    hide PrintMembers;
    var s := Print(st, Obj(fields));
    assert s[0] == '{' && s[|s| - 1] == '}';
  }

  lemma PrintableOne(key: string, v: Json)
    ensures v.Str? ==> Printable(v)
    ensures Printable(v) ==> Printable(Obj([(key, v)])) && Printable(Arr([v]))
    ensures v.Arr? && |v.items| == 1 && Printable(v.items[0]) ==> Printable(v)
  {
  }

  /** An event line holds its object. */
  lemma EventLineHolds(fields: seq<(string, Json)>)
    requires Printable(Obj(fields))
    ensures Holds(EventLine(fields), fields)
  {
    hide Loads, Print, Strip;
    var payload := Print(Compact, Obj(fields));
    var line := EventLine(fields);
    assert line[..6] == DATA && line[6..] == payload;
    ObjectIsStripped(Compact, fields);
    assert payload[0] != "[DONE]"[0];
    LoadsInvertsPrint(Compact, Obj(fields));
  }

  lemma DeltaLineCarries(text: string)
    requires text != ""
    ensures Carries(DeltaLine(text), text)
  {
    hide Print, Printable, Lookup, Holds;
    var delta := [("content", Str(text))];
    PrintableOne("content", Str(text));
    PrintableOne("delta", Obj(delta));
    PrintableOne("choices", Arr([Choice(text)]));
    EventLineHolds(Delta(text).fields);
    LookupOnly("choices", Arr([Choice(text)]));
    LookupOnly("delta", Obj(delta));
    LookupOnly("content", Str(text));
    assert HasDelta(Delta(text).fields, [Choice(text)], Choice(text).fields, delta);
  }

  /** The first event of a reply names the role and has no content; the last counts tokens and has no
      choices. */
  function RoleFields(): seq<(string, Json)> {
    [("choices", Arr([Obj([("delta", Obj([("role", Str("assistant"))]))])]))]
  }

  function UsageFields(): seq<(string, Json)> {
    [("choices", Arr([])), ("usage", Obj([("total_tokens", Num("0"))]))]
  }

  lemma RoleIsQuiet()
    ensures Quiet(EventLine(RoleFields()))
  {
    hide Print, Printable, Lookup, Holds;
    var delta := [("role", Str("assistant"))];
    PrintableOne("role", Str("assistant"));
    PrintableOne("delta", Obj(delta));
    PrintableOne("choices", Arr([Obj([("delta", Obj(delta))])]));
    EventLineHolds(RoleFields());
    LookupOnly("choices", Arr([Obj([("delta", Obj(delta))])]));
    LookupOnly("delta", Obj(delta));
    NoContent();
  }

  lemma NoContent()
    ensures Lookup([("role", Str("assistant"))], "content") == None
  {
    assert "role" != "content";
  }

  lemma UsageIsQuiet()
    ensures Quiet(EventLine(UsageFields()))
  {
    hide Print, Lookup, Holds, IsNumeral;
    ZeroIsNumeral();
    assert Printable(Obj([("total_tokens", Num("0"))])) && Printable(Arr([]));
    EventLineHolds(UsageFields());
    UsageHasNoChoices();
  }

  lemma UsageHasNoChoices()
    ensures Lookup(UsageFields(), "choices") == Some(Arr([]))
  {
    assert UsageFields()[..1] == [("choices", Arr([]))] && "usage" != "choices";
  }

  lemma NoDataIsQuiet(line: string)
    requires line == "" || line[0] == ':'
    ensures Quiet(line)
  {
    assert DATA[0] == 'd';
  }

  /** A reply as vLLM streams it: the role, a comment, the pieces with a blank line after each event,
      the usage. */
  function Pieces(texts: seq<string>): seq<string> {
    if texts == [] then [EventLine(RoleFields()), "", ": ping"]
    else Pieces(texts[..|texts| - 1]) + [DeltaLine(texts[|texts| - 1]), ""]
  }

  function UsualReply(texts: seq<string>): seq<string> { Pieces(texts) + [EventLine(UsageFields()), ""] }

  predicate NonEmpty(texts: seq<string>) { forall k | 0 <= k < |texts| :: texts[k] != "" }

  lemma TellsQuiet(lines: seq<string>, texts: seq<string>, line: string)
    requires Tells(lines, texts) && Quiet(line)
    ensures Tells(lines + [line], texts)
  {
    hide Quiet, Carries;
    assert (lines + [line])[..|lines|] == lines;
  }

  lemma TellsPiece(lines: seq<string>, texts: seq<string>, line: string, text: string)
    requires Tells(lines, texts) && Carries(line, text)
    ensures Tells(lines + [line], texts + [text])
  {
    hide Quiet, Carries;
    assert (lines + [line])[..|lines|] == lines && (texts + [text])[..|texts|] == texts;
  }

  lemma {:induction false} PiecesTell(texts: seq<string>)
    requires NonEmpty(texts)
    ensures Tells(Pieces(texts), texts)
  {
    hide Quiet, Carries, DeltaLine, Tells, EventLine;
    NoDataIsQuiet("");
    NoDataIsQuiet(": ping");
    if texts == [] {
      RoleIsQuiet();
      TellsNothing();
      assert Pieces(texts) == [] + [EventLine(RoleFields())] + [""] + [": ping"];
      TellsQuiet([], [], EventLine(RoleFields()));
      TellsQuiet([] + [EventLine(RoleFields())], [], "");
      TellsQuiet([] + [EventLine(RoleFields())] + [""], [], ": ping");
    } else {
      var n := |texts| - 1;
      var before, line := Pieces(texts[..n]), DeltaLine(texts[n]);
      PiecesTell(texts[..n]);
      DeltaLineCarries(texts[n]);
      TellsPiece(before, texts[..n], line, texts[n]);
      assert texts == texts[..n] + [texts[n]];
      TellsQuiet(before + [line], texts, "");
      assert Pieces(texts) == before + [line] + [""];
    }
  }

  lemma TellsNothing()
    ensures Tells([], [])
  {
  }

  /** The usual reply carries just its pieces. */
  lemma UsualReplyTells(texts: seq<string>)
    requires NonEmpty(texts)
    ensures Tells(UsualReply(texts), texts)
  {
    hide Quiet, Carries, Tells, EventLine, Pieces;
    PiecesTell(texts);
    UsageIsQuiet();
    NoDataIsQuiet("");
    var usage := EventLine(UsageFields());
    TellsQuiet(Pieces(texts), texts, usage);
    TellsQuiet(Pieces(texts) + [usage], texts, "");
    assert UsualReply(texts) == Pieces(texts) + [usage] + [""];
  }

  // ------------------------------------------------------------------------ the run

  function Reads(lines: seq<string>): seq<Event> {
    if lines == [] then [] else Reads(lines[..|lines| - 1]) + [TaskReads(lines[|lines| - 1])]
  }

  /** The task of job "a" has read these lines, and nobody has read its stream yet. */
  ghost predicate Reading(s: State, lines: seq<string>, ended: bool) {
    && "a" in s.jobs && BusyWithA(s)
    && VllmStream.ReplyOf(lines).ending == (if ended then VllmStream.Ended else VllmStream.Pending)
    && var j := s.jobs["a"];
       && (j.status == Processing || j.status == Streaming) && j.handler.Armed? && j.error.None?
       && j.task == Live(true, false, ended, VllmStream.ReplyOf(lines).chunks) && j.lines == lines
  }

  lemma ReadStep(cfg: Config, s: State, lines: seq<string>, line: string)
    requires cfg.backend.Vibevoice? && Reading(s, lines, false)
    requires VllmStream.ReplyOf(lines + [line]).ending != VllmStream.Broken
    ensures var ended := VllmStream.ReplyOf(lines + [line]).ending == VllmStream.Ended;
      Reading(Step(cfg, s, TaskReads(line)), lines + [line], ended)
  {
    hide VllmStream.DeltaOfLine, VllmStream.ReplyOf;
    VllmStream.ReplyAppend(lines, line);
  }

  lemma {:induction false} ReadSteps(cfg: Config, s: State, lines: seq<string>, texts: seq<string>)
    requires cfg.backend.Vibevoice? && Reading(s, [], false) && Tells(lines, texts)
    ensures Reading(Exec(cfg, s, Reads(lines)), lines, false)
  {
    hide Step, Reading, Quiet, Carries, VllmStream.ReplyOf;
    if lines != [] {
      var n := |lines| - 1;
      if Quiet(lines[n]) && Tells(lines[..n], texts) {
        ReadSteps(cfg, s, lines[..n], texts);
      } else {
        ReadSteps(cfg, s, lines[..n], texts[..|texts| - 1]);
      }
      ToldIsYielded(lines, texts);
      assert lines == lines[..n] + [lines[n]];
      ReadStep(cfg, Exec(cfg, s, Reads(lines[..n])), lines[..n], lines[n]);
      ExecAppend(cfg, s, Reads(lines[..n]), TaskReads(lines[n]));
    }
  }

  /** The lines of a whole reply, `[DONE]` included. */
  lemma ReadReply(cfg: Config, s: State, lines: seq<string>, texts: seq<string>, done: string)
    requires cfg.backend.Vibevoice? && Reading(s, [], false) && Tells(lines, texts) && IsDone(done)
    ensures Reading(Exec(cfg, s, Reads(lines + [done])), lines + [done], true)
    ensures VllmStream.ReplyOf(lines + [done]).chunks == texts
  {
    hide Step, Reading, Tells, IsDone, VllmStream.ReplyOf;
    ReadSteps(cfg, s, lines, texts);
    DoneEndsIt(lines, texts, done, []);
    assert lines + [done] + [] == lines + [done];
    ReadStep(cfg, Exec(cfg, s, Reads(lines)), lines, done);
    assert (lines + [done])[..|lines|] == lines;
    ExecAppend(cfg, s, Reads(lines), TaskReads(done));
  }

  ghost predicate Ready(s: State, lines: seq<string>, status: Status, handler: Handler) {
    && "a" in s.jobs && s.jobs["a"].status == status && s.jobs["a"].handler == handler
    && s.jobs["a"].lines == lines
  }

  lemma EndStep(cfg: Config, s: State, lines: seq<string>, ended: bool)
    requires cfg.backend.Vibevoice? && Reading(s, lines, ended)
    requires Transcript.WellFormed(Concat(VllmStream.ReplyOf(lines).chunks))
    ensures var s' := Step(cfg, s, TaskReplyEnds);
      && "a" in s'.jobs && BusyWithA(s') && s'.jobs["a"].task == Done(Returned) && s'.jobs["a"].error.None?
      && s'.jobs["a"].handler.Armed? && s'.jobs["a"].lines == lines
  {
    hide Transcript.Diagnose, Transcript.WellFormed, Transcript.Describe, VllmStream.ReplyOf, Concat;
    Transcript.DiagnosisIsExact(Concat(VllmStream.ReplyOf(lines).chunks));
  }

  lemma SettleStep(cfg: Config, s: State, lines: seq<string>)
    requires "a" in s.jobs && BusyWithA(s) && s.jobs["a"].task == Done(Returned) && s.jobs["a"].error.None?
    requires s.jobs["a"].handler.Armed? && s.jobs["a"].lines == lines
    ensures Ready(Step(cfg, s, WorkerResumes), lines, Completed, Armed)
  {
  }

  lemma ConnectStep(cfg: Config, s: State, lines: seq<string>)
    requires Ready(s, lines, Completed, Armed)
    ensures Ready(Step(cfg, s, StreamOpens("a")), lines, Completed, Sending)
  {
    hide PositionAndEta;
  }

  /** The job is processed to its end, and its client connects. */
  function Processed(lines: seq<string>): seq<Event> {
    Started() + Reads(lines) + [TaskReplyEnds, WorkerResumes, StreamOpens("a")]
  }

  lemma ProcessedIsReady(cfg: Config, lines: seq<string>, texts: seq<string>, done: string)
    requires cfg.maxSize >= 1 && cfg.maxAudioBytes >= 46 && cfg.backend.Vibevoice?
    requires Tells(lines, texts) && IsDone(done) && Transcript.WellFormed(Concat(texts))
    ensures Ready(Exec(cfg, Init(), Processed(lines + [done])), lines + [done], Completed, Sending)
  {
    hide Step, Started, Reads, Reading, Runs, Ready, Transcript.WellFormed, Exec, Tells, IsDone, VllmStream.ReplyOf;
    var s := Exec(cfg, Init(), Started());
    var all := lines + [done];
    StartedRuns(cfg);
    RunsReads(s);
    ReadReply(cfg, s, lines, texts, done);
    var s1 := Exec(cfg, s, Reads(all));
    ExecConcat(cfg, Init(), Started(), Reads(all));
    ExecConcat(cfg, Init(), Started() + Reads(all), [TaskReplyEnds, WorkerResumes, StreamOpens("a")]);
    ThreeSteps(cfg, s1, TaskReplyEnds, WorkerResumes, StreamOpens("a"));
    EndStep(cfg, s1, all, true);
    SettleStep(cfg, Step(cfg, s1, TaskReplyEnds), all);
    ConnectStep(cfg, Step(cfg, Step(cfg, s1, TaskReplyEnds), WorkerResumes), all);
  }

  lemma RunsReads(s: State)
    requires Runs(s)
    ensures Reading(s, [], false)
  {
  }

  /** Any reply that carries a transcript that passes the check can be delivered: after this run the
      client has yielded just the pieces it carries, and DONE; what vLLM sends after `[DONE]` makes
      no difference to the generator. */
  lemma EveryReplyCanArrive(cfg: Config, lines: seq<string>, texts: seq<string>, done: string, after: seq<string>,
                            repr: real -> FloatText)
    returns (schedule: seq<Event>)
    requires cfg.maxSize >= 1 && cfg.maxAudioBytes >= 46 && cfg.backend.Vibevoice?
    requires Tells(lines, texts) && IsDone(done) && Transcript.WellFormed(Concat(texts))
    ensures VllmStream.ReplyOf(lines + [done] + after) == VllmStream.Reply(texts, VllmStream.Ended)
    ensures var s := Exec(cfg, Init(), schedule);
      && "a" in s.jobs && s.jobs["a"].lines == lines + [done]
      && var client := Sse.ReadBody(Sse.START, Sse.Body(s.jobs["a"].emitted, repr));
         client.ok && EndToEnd.SaysDone(client.events) && EndToEnd.ClientTexts(client.events) == texts
  {
    hide Exec, Processed, Sse.ReadBody, Sse.Body, EndToEnd.SaysDone, EndToEnd.ClientTexts, Transcript.WellFormed;
    hide Tells, IsDone, VllmStream.ReplyOf, VllmStream.DeltasBeforeDone, Delivery.Takes;
    var all := lines + [done];
    DoneEndsIt(lines, texts, done, after);
    DoneEndsIt(lines, texts, done, []);
    assert all + [] == all;
    ProcessedIsReady(cfg, lines, texts, done);
    var s := Exec(cfg, Init(), Processed(all));
    Delivery.TranscriptArrives(cfg, Processed(all), "a", repr);
    schedule := Processed(all) + Delivery.Takes("a", |s.jobs["a"].queue|);
    VllmStream.ReplyIsDeltas(all);
  }

  /** So any transcript that passes the check can be delivered, in any non-empty pieces, by a reply
      with all that vLLM puts around them. */
  lemma EveryTranscriptCanArrive(cfg: Config, texts: seq<string>, repr: real -> FloatText)
    returns (schedule: seq<Event>)
    requires cfg.maxSize >= 1 && cfg.maxAudioBytes >= 46 && cfg.backend.Vibevoice?
    requires NonEmpty(texts) && Transcript.WellFormed(Concat(texts))
    ensures var s := Exec(cfg, Init(), schedule);
      && "a" in s.jobs && s.jobs["a"].lines == UsualReply(texts) + ["data: [DONE]"]
      && var client := Sse.ReadBody(Sse.START, Sse.Body(s.jobs["a"].emitted, repr));
         client.ok && EndToEnd.SaysDone(client.events) && EndToEnd.ClientTexts(client.events) == texts
  {
    hide Exec, Sse.ReadBody, Sse.Body, EndToEnd.SaysDone, EndToEnd.ClientTexts;
    hide Transcript.WellFormed, Tells, UsualReply;
    UsualReplyTells(texts);
    assert "data: [DONE]"[..6] == DATA && "data: [DONE]"[6..] == "[DONE]";
    schedule := EveryReplyCanArrive(cfg, UsualReply(texts), texts, "data: [DONE]", [], repr);
  }

  // ------------------------------------------------------------------------ Groq

  ghost predicate Asking(s: State) {
    && "a" in s.jobs && BusyWithA(s)
    && s.jobs["a"].status == Streaming && s.jobs["a"].handler.Armed? && s.jobs["a"].error.None?
    && s.jobs["a"].task == Live(true, false, false, [])
  }

  ghost predicate Told(s: State, text: string, status: Status, handler: Handler) {
    && "a" in s.jobs && s.jobs["a"].status == status && s.jobs["a"].handler == handler
    && s.jobs["a"].answer == Some(text)
  }

  lemma AskStep(cfg: Config, s: State)
    requires cfg.backend.Groq? && BusyWithA(s) && "a" in s.jobs && s.jobs["a"] == StartJob(cfg, Uploaded("a"))
    ensures Asking(Step(cfg, s, TaskBegins))
  {
  }

  lemma AnswerStep(cfg: Config, s: State, text: string, duration: string)
    requires cfg.backend.Groq? && Asking(s) && IsNumeral(duration)
    ensures var s' := Step(cfg, s, TaskGroqReply(text, duration));
      && "a" in s'.jobs && BusyWithA(s') && s'.jobs["a"].task == Done(Returned) && s'.jobs["a"].error.None?
      && Told(s', text, Streaming, Armed)
  {
    hide GroqSegment, IsNumeral;
  }

  lemma AnsweredStep(cfg: Config, s: State, text: string)
    requires "a" in s.jobs && BusyWithA(s) && s.jobs["a"].task == Done(Returned) && s.jobs["a"].error.None?
    requires Told(s, text, Streaming, Armed)
    ensures Told(Step(cfg, s, WorkerResumes), text, Completed, Armed)
  {
  }

  lemma ListenStep(cfg: Config, s: State, text: string)
    requires Told(s, text, Completed, Armed)
    ensures Told(Step(cfg, s, StreamOpens("a")), text, Completed, Sending)
  {
    hide PositionAndEta;
  }

  /** Whatever Groq answers, there is a run in which the client reads that answer, and DONE. */
  lemma EveryAnswerCanArrive(cfg: Config, text: string, duration: string, repr: real -> FloatText)
    returns (schedule: seq<Event>)
    requires cfg.maxSize >= 1 && cfg.maxAudioBytes >= 46 && cfg.backend.Groq? && IsNumeral(duration)
    ensures var s := Exec(cfg, Init(), schedule);
      && "a" in s.jobs
      && var client := Sse.ReadBody(Sse.START, Sse.Body(s.jobs["a"].emitted, repr));
         && client.ok && EndToEnd.SaysDone(client.events)
         && JobInvariant.Answers(EndToEnd.ClientTexts(client.events), text)
  {
    hide Exec, Step, Started, Asking, IsNumeral, JobInvariant.Answers, Delivery.Takes;
    hide Sse.ReadBody, Sse.Body, EndToEnd.SaysDone, EndToEnd.ClientTexts;
    var s0 := StartedSteps(cfg);
    AskStep(cfg, s0);
    var s := Exec(cfg, Init(), Started());
    var steps := [TaskGroqReply(text, duration), WorkerResumes, StreamOpens("a")];
    ExecConcat(cfg, Init(), Started(), steps);
    ThreeSteps(cfg, s, steps[0], steps[1], steps[2]);
    AnswerStep(cfg, s, text, duration);
    AnsweredStep(cfg, Step(cfg, s, steps[0]), text);
    ListenStep(cfg, Step(cfg, Step(cfg, s, steps[0]), WorkerResumes), text);
    Delivery.AnswerArrives(cfg, Started() + steps, "a", repr);
    schedule := Started() + steps + Delivery.Takes("a", |Exec(cfg, Init(), Started() + steps).jobs["a"].queue|);
  }
}
