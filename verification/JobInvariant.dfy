/** What is true of every job between two atomic steps, and that each step keeps it. */
module JobInvariant {
  import opened Basics
  import opened Jobs
  import opened JsonText
  import opened JsonRoundTrip
  import opened JsonGrammar
  import VllmStream
  import Transcript

  ghost predicate Inv(cfg: Config, j: Job) {
    && Core(cfg, j)
    && ContentInv(cfg, j)
  }

  ghost predicate Core(cfg: Config, j: Job) {
    && Sealed(Log(j), j.notified)
    && (j.notified <==> Terminal(j.status))
    && StatusInv(j)
    && HandlerInv(cfg, j)
    && TaskInv(j)
    && StreamInv(j)
  }

  ghost predicate AllTexts(log: seq<Option<string>>) {
    forall k | 0 <= k < |log| :: log[k].Some?
  }

  /** The chunk log is texts, then at most one end mark, which is last; the mark is there exactly
      when the job has been notified. */
  ghost predicate Sealed(log: seq<Option<string>>, notified: bool) {
    if notified then log != [] && log[|log| - 1].None? && AllTexts(log[..|log| - 1])
    else AllTexts(log)
  }

  ghost predicate StatusInv(j: Job) {
    && (j.cancelRequested ==> j.status == Cancelled || j.status == Failed)
    && (j.status == Completed ==> j.error.None?)
    && (j.status == Uploading || j.status == Queued ==> j.error.None?)
    && (j.status == Failed || j.status == Cancelled ==> j.error.Some? && j.error.value != "")
    && (j.status == Cancelled && !j.cancelRequested ==> j.error == Some(QUEUE_STOPPED))
  }

  ghost predicate HandlerInv(cfg: Config, j: Job) {
    && (j.handler.Parsing? || j.handler.Spooling? ==> j.status == Uploading)
    && (j.status == Uploading ==> j.handler.Parsing? || j.handler.Spooling? || j.handler.Leaving?)
    && (j.handler.Leaving? ==> (j.status == Uploading || j.status == Cancelled) && j.task.NoTask?)
    && (j.handler.Closed? ==> Terminal(j.status))
    && (j.audio.Some? <==> j.status == Queued || j.status == Processing || j.status == Streaming)
    && (j.audio.Some? ==> 0 < j.audio.value <= cfg.maxAudioBytes)
    && (j.handler.Spooling? ==> j.handler.total <= cfg.maxAudioBytes)
  }

  ghost predicate InProcess(j: Job) { j.status == Processing || j.status == Streaming }

  ghost predicate TaskInv(j: Job) {
    && (j.status == Uploading || j.status == Queued ==> Log(j) == [] && j.lines == [])
    && (match j.task
        case NoTask => !InProcess(j)
        case Live(begun, cancelling, drained, acc) =>
          && (InProcess(j) || (j.status == Cancelled && j.cancelRequested && cancelling))
          && (InProcess(j) ==> j.error.None?)
          && (!begun ==> acc == [] && !drained && j.status != Streaming)
        case Done(outcome) =>
          && (InProcess(j) || (j.status == Cancelled && j.cancelRequested))
          && (InProcess(j) && j.error.Some? ==> outcome.Raised? && j.error.value == outcome.message != "")
          && (outcome.Raised? ==> outcome.typeName != ""))
  }

  /** The chunks that an answer of Groq calls for: one segment with its text, or none if it is empty. */
  ghost predicate Answers(chunks: seq<string>, text: string) {
    if text == "" then chunks == [] else |chunks| == 1 && Transcript.IsAnswer(chunks[0], text)
  }

  /** A Groq job has the chunks its answer calls for, and none before it has one. */
  ghost predicate GroqInv(cfg: Config, j: Job) {
    cfg.backend.Groq? ==>
      && (j.task.Live? || j.status == Uploading || j.status == Queued ==> j.answer == None)
      && (j.answer == None ==> Texts(Log(j)) == [])
      && (j.answer.Some? ==> Answers(Texts(Log(j)), j.answer.value))
      && (j.status == Completed || j.task == Done(Returned) ==> j.answer.Some?)
  }

  /** The chunks of a VibeVoice job are the delta texts of the lines read so far, and a job that
      returned normally passed the transcript check. */
  ghost predicate ContentInv(cfg: Config, j: Job) {
    && GroqInv(cfg, j)
    && (cfg.backend.Vibevoice? ==>
      var reply := VllmStream.ReplyOf(j.lines);
      && Texts(Log(j)) == reply.chunks
      && (j.task.Live? ==>
            && j.task.accumulated == reply.chunks
            && reply.ending == (if j.task.drained then VllmStream.Ended else VllmStream.Pending)
            && (InProcess(j) ==> (j.status == Streaming <==> reply.chunks != [])))
      && (j.status == Completed || j.task == Done(Returned) ==>
            && reply.ending != VllmStream.Broken
            && Transcript.Diagnose(Concat(reply.chunks)).None?))
  }

  predicate IsOpening(i: Item) { i.SentPosition? || i.SentAccepted? }
  predicate IsMiddle(i: Item) { i.SentData? || i.SentKeepalive? }
  predicate IsFinal(i: Item) { i.SentError? || i.SentDone? }

  /** One opening item, then data and keepalives. */
  ghost predicate OpenShape(items: seq<Item>) {
    && items != []
    && IsOpening(items[0])
    && forall k | 1 <= k < |items| :: IsMiddle(items[k])
  }

  ghost predicate FinishedShape(items: seq<Item>) {
    && |items| >= 2
    && OpenShape(items[..|items| - 1])
    && IsFinal(items[|items| - 1])
  }

  /** The event stream against the chunk log: what was yielded is what was taken, and a final item
      is yielded only when everything was, with the verdict the job really has. */
  ghost predicate StreamInv(j: Job) {
    && DataTexts(j.emitted) == Texts(j.taken)
    && (match j.handler
        case Sending => OpenShape(j.emitted) && AllTexts(j.taken)
        case Closed =>
          || j.emitted == []
          || OpenShape(j.emitted)
          || (&& FinishedShape(j.emitted)
              && j.queue == []
              && (match j.emitted[|j.emitted| - 1]
                  case SentDone(id) => id == j.id && j.status == Completed
                  case SentError(m) => j.status == Failed && j.error == Some(m)
                  case _ => false))
        case _ => j.emitted == [] && j.taken == [])
  }

  // ---------------------------------------------------------------- preservation

  lemma NewJobKeeps(cfg: Config, id: JobId, client: string)
    ensures Inv(cfg, NewJob(id, client))
  {
  }

  /** The end mark seals the log and adds no text. */
  lemma MarkSeals(j: Job)
    requires AllTexts(Log(j))
    ensures Sealed(j.taken + (j.queue + [None]), true)
    ensures Texts(j.taken + (j.queue + [None])) == Texts(Log(j))
  {
    PutKeepsTexts(j, None);
  }

  lemma PutKeepsTexts(j: Job, c: Option<string>)
    ensures Log(j.(queue := j.queue + [c])) == Log(j) + [c]
    ensures (Log(j) + [c])[..|Log(j)|] == Log(j)
    ensures Texts(Log(j) + [c]) == Texts(Log(j)) + (match c case Some(t) => [t] case None => [])
  {
    TextsAppend(Log(j), c);
    assert j.taken + (j.queue + [c]) == (j.taken + j.queue) + [c];
  }

  /** The handler may move on from an upload: to spooling, to more bytes, or to the exit. */
  lemma UploadMoves(cfg: Config, j: Job, handler: Handler)
    requires Inv(cfg, j) && (j.handler.Parsing? || j.handler.Spooling?)
    requires handler.Leaving? || (handler.Spooling? && handler.total <= cfg.maxAudioBytes)
    ensures Inv(cfg, j.(handler := handler))
  {
    hide VllmStream.ReplyOf, Transcript.Diagnose;
  }

  /** `cancel` by a handler that is on its way out. */
  lemma HandlerCancelKeeps(cfg: Config, j: Job, handler: Handler)
    requires Inv(cfg, j) && Active(j.status)
    requires
      (j.handler.Spooling? && handler.Leaving?) || ((j.handler.Leaving? || j.handler.Sending?) && handler.Closed?)
    ensures Inv(cfg, CancelJob(j.(handler := handler)))
  {
    hide VllmStream.ReplyOf, Transcript.Diagnose, AllTexts, Texts, DataTexts;
    MarkSeals(j);
  }

  /** A job that is already over only loses its handler. */
  lemma HandlerLeavesKeeps(cfg: Config, j: Job)
    requires Inv(cfg, j) && Terminal(j.status) && (j.handler.Leaving? || j.handler.Sending?)
    ensures Inv(cfg, j.(handler := Closed))
  {
    hide VllmStream.ReplyOf, Transcript.Diagnose, AllTexts, Sealed, Texts, DataTexts;
  }

  lemma AcceptUploadKeeps(cfg: Config, j: Job)
    requires Inv(cfg, j) && j.handler.Spooling? && j.handler.total > 0
    ensures Inv(cfg, AcceptUpload(j))
  {
    hide VllmStream.ReplyOf, Transcript.Diagnose;
  }

  lemma OpenStreamKeeps(cfg: Config, j: Job, position: Option<(nat, real)>)
    requires Inv(cfg, j) && j.handler.Armed?
    ensures Inv(cfg, OpenStream(j, position))
  {
    hide VllmStream.ReplyOf, Transcript.Diagnose;
    DataTextsAppend(j.emitted, OpeningItem(j, position));
  }

  lemma KeepAliveKeeps(cfg: Config, j: Job)
    requires Inv(cfg, j) && j.handler.Sending?
    ensures Inv(cfg, KeepAlive(j))
  {
    hide VllmStream.ReplyOf, Transcript.Diagnose;
    DataTextsAppend(j.emitted, SentKeepalive);
  }

  /** Taking from the queue moves the boundary inside the log, not the log. */
  lemma TakeKeepsLog(j: Job)
    requires j.queue != []
    ensures Log(TakeChunk(j)) == Log(j)
    ensures Log(j)[|j.taken|] == j.queue[0]
  {
    assert j.taken + j.queue == (j.taken + [j.queue[0]]) + j.queue[1..];
  }

  lemma ShapeGrows(items: seq<Item>, item: Item)
    requires OpenShape(items) && IsMiddle(item)
    ensures OpenShape(items + [item])
  {
  }

  lemma TextsGrow(log: seq<Option<string>>, c: Option<string>)
    requires AllTexts(log) && c.Some?
    ensures AllTexts(log + [c])
  {
  }

  lemma TakeTextKeeps(cfg: Config, j: Job)
    requires Inv(cfg, j) && j.handler.Sending? && j.queue != [] && j.queue[0].Some?
    ensures Inv(cfg, TakeChunk(j))
  {
    hide VllmStream.ReplyOf, Transcript.Diagnose, AllTexts, Sealed, Texts, DataTexts, OpenShape, FinishedShape;
    TakeKeepsLog(j);
    TextsAppend(j.taken, j.queue[0]);
    DataTextsAppend(j.emitted, SentData(j.queue[0].value));
    ShapeGrows(j.emitted, SentData(j.queue[0].value));
    TextsGrow(j.taken, j.queue[0]);
  }

  lemma TextAt(log: seq<Option<string>>, k: nat)
    requires log != [] && AllTexts(log[..|log| - 1]) && k < |log| - 1
    ensures log[k].Some?
  {
    assert log[..|log| - 1][k] == log[k];
  }

  /** The end mark is the last thing in the queue, so the stream has then taken everything. */
  lemma MarkIsLast(j: Job)
    requires Sealed(Log(j), j.notified) && j.queue != [] && j.queue[0].None?
    ensures j.notified && j.queue == [None]
  {
    TakeKeepsLog(j);
    if |j.queue| > 1 && j.notified {
      TextAt(Log(j), |j.taken|);
      assert false;
    }
  }

  lemma ShapeFinishes(items: seq<Item>, last: Item)
    requires OpenShape(items) && IsFinal(last)
    ensures FinishedShape(items + [last]) && DataTexts(items + [last]) == DataTexts(items)
  {
    DataTextsAppend(items, last);
    assert (items + [last])[..|items|] == items;
  }

  /** The verdict item agrees with the status and the error message of the job. */
  lemma VerdictItem(j: Job)
    requires Terminal(j.status) && j.status != Cancelled
    requires j.status == Completed ==> j.error.None?
    requires j.status == Failed ==> j.error.Some? && j.error.value != ""
    ensures FinalItems(j) == [if j.status == Completed then SentDone(j.id) else SentError(j.error.value)]
  {
  }

  lemma TakeMarkStream(j: Job)
    requires StreamInv(j) && j.handler.Sending? && j.queue == [None] && Terminal(j.status)
    requires j.status == Completed ==> j.error.None?
    requires j.status == Failed ==> j.error.Some? && j.error.value != ""
    ensures StreamInv(TakeChunk(j))
  {
    hide AllTexts, Texts, DataTexts, OpenShape, FinishedShape, FinalItems;
    TextsAppend(j.taken, None);
    if j.status == Cancelled {
      CancelledSaysNothing(j);
      assert TakeChunk(j).emitted == j.emitted;
    } else {
      VerdictItem(j);
      ShapeFinishes(j.emitted, FinalItems(j)[0]);
    }
  }

  lemma CancelledSaysNothing(j: Job)
    requires j.status == Cancelled
    ensures j.emitted + FinalItems(j) == j.emitted
  {
  }

  lemma TakeMarkKeeps(cfg: Config, j: Job)
    requires Inv(cfg, j) && j.handler.Sending? && j.queue != [] && j.queue[0].None?
    ensures Inv(cfg, TakeChunk(j))
  {
    hide VllmStream.ReplyOf, Transcript.Diagnose, Sealed, AllTexts, Texts, DataTexts, StreamInv;
    TakeKeepsLog(j);
    MarkIsLast(j);
    TakeMarkStream(j);
  }

  lemma TakeChunkKeeps(cfg: Config, j: Job)
    requires Inv(cfg, j) && j.handler.Sending? && j.queue != []
    ensures Inv(cfg, TakeChunk(j))
  {
    if j.queue[0].Some? { TakeTextKeeps(cfg, j); } else { TakeMarkKeeps(cfg, j); }
  }

  lemma StartKeeps(cfg: Config, j: Job)
    requires Inv(cfg, j) && j.status == Queued && !cfg.backend.Unset?
    ensures Inv(cfg, StartJob(cfg, j))
  {
    assert VllmStream.ReplyOf(j.lines) == VllmStream.Reply([], VllmStream.Pending);
  }

  lemma BeginTaskKeeps(cfg: Config, j: Job)
    requires Inv(cfg, j) && Running(j) && !j.task.begun
    ensures Inv(cfg, BeginTask(cfg, j))
  {
    hide VllmStream.ReplyOf, Transcript.Diagnose;
  }

  /** A line that yields no chunk leaves the log alone. */
  lemma QuietLineKeeps(cfg: Config, j: Job, line: string, result: VllmStream.LineResult)
    requires Inv(cfg, j) && Running(j) && j.task.begun && !j.task.drained && cfg.backend.Vibevoice?
    requires VllmStream.ReplyOf(j.lines + [line]) == VllmStream.Absorb(VllmStream.ReplyOf(j.lines), result)
    requires !result.Chunk?
    ensures Inv(cfg, ApplyLine(j, line, result))
  {
    hide VllmStream.ReplyOf, Transcript.Diagnose, Sealed, Texts, DataTexts, OpenShape, FinishedShape;
    assert Log(ApplyLine(j, line, result)) == Log(j);
  }

  lemma ChunkLineCore(cfg: Config, j: Job, line: string, text: string)
    requires Core(cfg, j) && Running(j) && j.task.begun && InProcess(j)
    ensures Core(cfg, ApplyLine(j, line, VllmStream.Chunk(text)))
    ensures Log(ApplyLine(j, line, VllmStream.Chunk(text))) == Log(j) + [Some(text)]
    ensures Texts(Log(j) + [Some(text)]) == Texts(Log(j)) + [text]
  {
    PutKeepsTexts(j, Some(text));
  }

  lemma ChunkLineContent(cfg: Config, j: Job, line: string, text: string)
    requires Running(j) && InProcess(j) && cfg.backend.Vibevoice?
    requires ContentInv(cfg, j) && !j.task.drained
    requires VllmStream.ReplyOf(j.lines + [line])
          == VllmStream.Absorb(VllmStream.ReplyOf(j.lines), VllmStream.Chunk(text))
    requires Texts(Log(ApplyLine(j, line, VllmStream.Chunk(text)))) == Texts(Log(j)) + [text]
    ensures ContentInv(cfg, ApplyLine(j, line, VllmStream.Chunk(text)))
  {
    hide VllmStream.ReplyOf, Transcript.Diagnose;
  }

  lemma ChunkLineKeeps(cfg: Config, j: Job, line: string, text: string)
    requires Inv(cfg, j) && Running(j) && j.task.begun && !j.task.drained && cfg.backend.Vibevoice?
    requires VllmStream.ReplyOf(j.lines + [line])
          == VllmStream.Absorb(VllmStream.ReplyOf(j.lines), VllmStream.Chunk(text))
    ensures Inv(cfg, ApplyLine(j, line, VllmStream.Chunk(text)))
  {
    ChunkLineCore(cfg, j, line, text);
    ChunkLineContent(cfg, j, line, text);
  }

  lemma ApplyLineKeeps(cfg: Config, j: Job, line: string, result: VllmStream.LineResult)
    requires Inv(cfg, j) && Running(j) && j.task.begun && !j.task.drained && cfg.backend.Vibevoice?
    requires VllmStream.ReplyOf(j.lines + [line]) == VllmStream.Absorb(VllmStream.ReplyOf(j.lines), result)
    ensures Inv(cfg, ApplyLine(j, line, result))
  {
    if result.Chunk? { ChunkLineKeeps(cfg, j, line, result.text); } else { QuietLineKeeps(cfg, j, line, result); }
  }

  lemma ReadLineKeeps(cfg: Config, j: Job, line: string)
    requires Inv(cfg, j) && Running(j) && j.task.begun && !j.task.drained && cfg.backend.Vibevoice?
    ensures Inv(cfg, ReadLine(j, line))
  {
    VllmStream.ReplyAppend(j.lines, line);
    ApplyLineKeeps(cfg, j, line, VllmStream.DeltaOfLine(line));
  }

  lemma EndReplyKeeps(cfg: Config, j: Job)
    requires Inv(cfg, j) && Running(j) && j.task.begun && cfg.backend.Vibevoice?
    ensures Inv(cfg, EndReply(j))
  {
    hide VllmStream.ReplyOf, Transcript.Diagnose, Transcript.Describe, AllTexts, Sealed, Texts, DataTexts;
  }

  /** What a Groq job sends is its answer in the segment format. */
  lemma GroqSegmentAnswers(text: string, duration: string)
    requires IsNumeral(duration)
    ensures Transcript.IsAnswer(GroqSegment(text, duration), text)
  {
    hide Loads, Print, IsNumeral, Printable;
    var fields := [("Start", Num("0")), ("End", Num(duration)), ("Content", Str(text))];
    SegmentPrints(text, duration);
    LoadsInvertsPrint(Spaced, Arr([Obj(fields)]));
  }

  lemma SegmentPrints(text: string, duration: string)
    requires IsNumeral(duration)
    ensures var fields := [("Start", Num("0")), ("End", Num(duration)), ("Content", Str(text))];
      Printable(Arr([Obj(fields)]))
  {
    hide IsNumeral;
    var fields := [("Start", Num("0")), ("End", Num(duration)), ("Content", Str(text))];
    ZeroIsNumeral();
    forall i | 0 <= i < 3
      ensures Printable(fields[i].1)
    {
      assert fields[i].1.Num? || fields[i].1 == Str(text);
    }
    assert Printable(Obj(fields));
  }

  lemma GroqReplyKeeps(cfg: Config, j: Job, text: string, duration: string)
    requires Inv(cfg, j) && Running(j) && j.task.begun && cfg.backend.Groq? && IsNumeral(duration)
    ensures Inv(cfg, GroqReply(j, text, duration))
  {
    hide Core, GroqInv, GroqReply;
    GroqReplyCore(cfg, j, text, duration);
    GroqReplyContent(cfg, j, text, duration);
  }

  lemma GroqReplyCore(cfg: Config, j: Job, text: string, duration: string)
    requires Inv(cfg, j) && Running(j) && j.task.begun && cfg.backend.Groq? && IsNumeral(duration)
    ensures Core(cfg, GroqReply(j, text, duration))
  {
    hide Core, ContentInv, GroqSegment;
    RunningInProcess(cfg, j);
    ReturnCore(cfg, j, text);
    if text != "" {
      var j' := j.(queue := j.queue + [Some(GroqSegment(text, duration))]);
      PutCore(cfg, j, GroqSegment(text, duration));
      ReturnCore(cfg, j', text);
    }
  }

  lemma PutCore(cfg: Config, j: Job, text: string)
    requires Core(cfg, j) && Running(j) && j.task.begun && InProcess(j)
    ensures Core(cfg, j.(queue := j.queue + [Some(text)]))
  {
    hide Texts, DataTexts, OpenShape, FinishedShape;
    PutKeepsTexts(j, Some(text));
  }

  lemma ReturnCore(cfg: Config, j: Job, text: string)
    requires Core(cfg, j) && Running(j) && InProcess(j)
    ensures Core(cfg, j.(task := Done(Returned), answer := Some(text)))
  {
    hide Sealed, Texts, DataTexts, OpenShape, FinishedShape;
    assert Log(j.(task := Done(Returned), answer := Some(text))) == Log(j);
  }

  lemma GroqReplyContent(cfg: Config, j: Job, text: string, duration: string)
    requires Inv(cfg, j) && Running(j) && cfg.backend.Groq? && IsNumeral(duration)
    ensures GroqInv(cfg, GroqReply(j, text, duration))
  {
    hide Core, Transcript.IsAnswer, GroqSegment, Texts;
    RunningInProcess(cfg, j);
    GroqSegmentAnswers(text, duration);
    assert text == "" ==> Log(GroqReply(j, text, duration)) == Log(j);
    if text != "" {
      PutKeepsTexts(j, Some(GroqSegment(text, duration)));
    }
  }

  lemma EndTaskKeeps(cfg: Config, j: Job, outcome: Outcome)
    requires Inv(cfg, j) && j.task.Live? && !outcome.Returned?
    requires outcome.Raised? ==> outcome.typeName != ""
    ensures Inv(cfg, EndTask(j, outcome))
  {
    hide VllmStream.ReplyOf, Transcript.Diagnose;
  }

  lemma SettleStream(cfg: Config, j: Job, interrupted: bool)
    requires StreamInv(j) && StatusInv(j) && HandlerInv(cfg, j) && TaskInv(j) && j.task.Done?
    ensures StreamInv(SettleJob(j, j.task.outcome, interrupted))
  {
    hide AllTexts, Texts, DataTexts, OpenShape, FinishedShape;
  }

  lemma SettleSeals(cfg: Config, j: Job, interrupted: bool)
    requires Core(cfg, j) && j.task.Done?
    ensures var j' := SettleJob(j, j.task.outcome, interrupted);
      Sealed(Log(j'), j'.notified) && Texts(Log(j')) == Texts(Log(j))
  {
    hide StreamInv, TaskInv, HandlerInv, Texts;
    if !j.notified {
      MarkSeals(j);
    }
  }

  lemma SettleCore(cfg: Config, j: Job, interrupted: bool)
    requires Core(cfg, j) && j.task.Done?
    ensures Core(cfg, SettleJob(j, j.task.outcome, interrupted))
    ensures Texts(Log(SettleJob(j, j.task.outcome, interrupted))) == Texts(Log(j))
  {
    hide Sealed, AllTexts, Texts, DataTexts, StreamInv;
    SettleSeals(cfg, j, interrupted);
    SettleStream(cfg, j, interrupted);
  }

  lemma SettleKeeps(cfg: Config, j: Job, interrupted: bool)
    requires Inv(cfg, j) && j.task.Done?
    ensures Inv(cfg, SettleJob(j, j.task.outcome, interrupted))
  {
    hide Core, VllmStream.ReplyOf, Transcript.Diagnose, Transcript.WellFormed, Texts, Concat;
    SettleCore(cfg, j, interrupted);
    SettledTask(j, interrupted);
  }

  /** A job that settles as COMPLETED had returned normally. */
  lemma SettledTask(j: Job, interrupted: bool)
    requires j.task.Done?
    ensures var j' := SettleJob(j, j.task.outcome, interrupted);
      && j'.lines == j.lines && j'.task.NoTask?
      && (j'.status == Completed ==> j.task == Done(Returned))
  {
  }

  /** A worker without a process function starts and settles the job in one step. */
  lemma SettleAtOnceKeeps(cfg: Config, j: Job)
    requires Inv(cfg, j) && j.status == Queued && cfg.backend.Unset?
    ensures Inv(cfg, SettleJob(StartJob(cfg, j), Returned, false))
  {
    hide Texts, DataTexts, OpenShape, FinishedShape;
    PutKeepsTexts(j, None);
  }

  lemma StopTaskKeeps(cfg: Config, j: Job)
    requires Inv(cfg, j) && j.task.Live?
    ensures Inv(cfg, j.(task := CancelTask(j.task)))
  {
    hide VllmStream.ReplyOf, Transcript.Diagnose, AllTexts, Sealed, Texts, DataTexts, OpenShape, FinishedShape;
    assert Log(j.(task := CancelTask(j.task))) == Log(j);
  }

  /** The clean-up flag, and the discarded file of a job that is over, are of no account here. */
  lemma FlagKeeps(cfg: Config, j: Job)
    requires Inv(cfg, j)
    ensures Inv(cfg, j.(cleanupScheduled := true))
    ensures Terminal(j.status) ==> j.(audio := None) == j
  {
    hide VllmStream.ReplyOf, Transcript.Diagnose, AllTexts, Sealed, Texts, DataTexts, OpenShape, FinishedShape;
  }

  lemma RunningInProcess(cfg: Config, j: Job)
    requires Inv(cfg, j)
    ensures Running(j) ==> InProcess(j)
    ensures j.task.Live? || j.task.Done? ==> j.status != Uploading && j.status != Queued
    ensures j.handler.Spooling? || j.handler.Parsing? ==> j.status == Uploading && j.task.NoTask?
    ensures InProcess(j) ==> !j.cancelRequested
  {
    hide VllmStream.ReplyOf, Transcript.Diagnose, AllTexts, Sealed, Texts, DataTexts, StreamInv, ContentInv;
  }

  /** What a task may write: the status and the message only of a job that runs. */
  ghost predicate Written(i: Job, j: Job) {
    && j == i.(status := j.status, error := j.error, task := j.task, queue := j.queue, lines := j.lines,
      answer := j.answer)
    && !j.task.NoTask?
    && ((j.status == i.status && j.error == i.error) || (Running(i) && (j.status == i.status || j.status == Streaming)))
  }

  lemma BeginWrites(cfg: Config, j: Job)
    requires Running(j)
    ensures Written(j, BeginTask(cfg, j))
  {
  }

  lemma ReadWrites(j: Job, line: string)
    requires Running(j)
    ensures Written(j, ReadLine(j, line))
  {
    hide VllmStream.DeltaOfLine;
  }

  lemma EndWrites(j: Job)
    requires Running(j)
    ensures Written(j, EndReply(j))
  {
    hide Transcript.Diagnose, Transcript.Describe;
  }

  lemma GroqWrites(j: Job, text: string, duration: string)
    ensures Written(j, GroqReply(j, text, duration))
  {
    hide GroqSegment;
  }

  lemma StopWrites(j: Job, outcome: Outcome)
    ensures Written(j, EndTask(j, outcome))
  {
  }
}
