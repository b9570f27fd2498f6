/** A transcript's whole way: vLLM's lines, generator, chunk queue, event stream, printed events,
    parsed events. */
module EndToEnd {
  import opened Basics
  import opened Jobs
  import opened Machine
  import opened Sse
  import opened JsonRoundTrip
  import VllmStream
  import Transcript
  import JobInvariant
  import Safety
  import Guarantees
  import Truncation

  /** The texts of the DATA events the client has yielded. */
  function ClientTexts(events: seq<ClientEvent>): seq<string> {
    if events == [] then []
    else (if events[0].DataEvent? then [events[0].text] else []) + ClientTexts(events[1..])
  }

  predicate SaysDone(events: seq<ClientEvent>) {
    exists k :: 0 <= k < |events| && events[k].DoneEvent?
  }

  lemma {:induction false} ClientTextsConcat(a: seq<ClientEvent>, b: seq<ClientEvent>)
    ensures ClientTexts(a + b) == ClientTexts(a) + ClientTexts(b)
  {
    if a == [] {
      assert a + b == b;
    } else {
      assert (a + b)[1..] == a[1..] + b && (a + b)[0] == a[0];
      ClientTextsConcat(a[1..], b);
    }
  }

  lemma {:induction false} MeaningsAppend(items: seq<Item>, item: Item, repr: real -> FloatText)
    ensures Meanings(items + [item], repr) == Meanings(items, repr) + Meaning(item, repr)
  {
    if items == [] {
      assert [item][1..] == [] && items + [item] == [item];
    } else {
      assert (items + [item])[1..] == items[1..] + [item];
      MeaningsAppend(items[1..], item, repr);
    }
  }

  /** Printing and parsing lose no data text and make none up. */
  lemma {:induction false} TextsSurvive(items: seq<Item>, repr: real -> FloatText)
    ensures ClientTexts(Meanings(items, repr)) == DataTexts(items)
  {
    if items != [] {
      var n := |items| - 1;
      TextsSurvive(items[..n], repr);
      MeaningsAppend(items[..n], items[n], repr);
      assert items[..n] + [items[n]] == items;
      ClientTextsConcat(Meanings(items[..n], repr), Meaning(items[n], repr));
      var m := Meaning(items[n], repr);
      assert m != [] ==> m[1..] == [];
    }
  }

  /** Middle and opening items never read as DONE. */
  lemma {:induction false} NoEarlyDone(items: seq<Item>, repr: real -> FloatText)
    requires forall k | 0 <= k < |items| :: !items[k].SentDone?
    ensures !SaysDone(Meanings(items, repr))
    decreases |items|
  {
    if items != [] {
      NoEarlyDone(items[1..], repr);
      var head := Meaning(items[0], repr);
      assert forall k | 0 <= k < |head| :: !head[k].DoneEvent?;
    }
  }

  lemma OpenHasNoDone(items: seq<Item>)
    requires items == [] || JobInvariant.OpenShape(items)
    ensures forall k | 0 <= k < |items| :: !items[k].SentDone?
  {
    forall k | 0 <= k < |items|
      ensures !items[k].SentDone?
    {
      assert k > 0 ==> JobInvariant.IsMiddle(items[k]);
    }
  }

  /** A DONE event comes from a finished stream, once, and last. */
  lemma DoneMeansFinished(items: seq<Item>, repr: real -> FloatText)
    requires items == [] || JobInvariant.OpenShape(items) || JobInvariant.FinishedShape(items)
    requires SaysDone(Meanings(items, repr))
    ensures JobInvariant.FinishedShape(items) && items[|items| - 1].SentDone?
    ensures var events := Meanings(items, repr);
      && events != [] && events[|events| - 1] == DoneEvent(items[|items| - 1].id)
      && !SaysDone(events[..|events| - 1])
  {
    hide SaysDone, Meanings, JobInvariant.OpenShape;
    if items == [] || JobInvariant.OpenShape(items) {
      OpenHasNoDone(items);
      NoEarlyDone(items, repr);
      assert false;
    } else {
      LastIsDone(items, repr);
    }
  }

  lemma LastIsDone(items: seq<Item>, repr: real -> FloatText)
    requires items != [] && JobInvariant.OpenShape(items[..|items| - 1])
    requires SaysDone(Meanings(items, repr))
    ensures items[|items| - 1].SentDone?
    ensures var events := Meanings(items, repr);
      && events != [] && events[|events| - 1] == DoneEvent(items[|items| - 1].id)
      && !SaysDone(events[..|events| - 1])
  {
    hide SaysDone, Meanings, JobInvariant.OpenShape;
    var before, last := items[..|items| - 1], items[|items| - 1];
    OpenHasNoDone(before);
    NoEarlyDone(before, repr);
    MeaningsAppend(before, last, repr);
    assert before + [last] == items;
    if !last.SentDone? {
      NoEarlyDone(items, repr);
    }
    assert (Meanings(before, repr) + [DoneEvent("")])[..|Meanings(before, repr)|] == Meanings(before, repr);
  }

  /** A done item that is sent last is read as DONE. */
  lemma LastDoneIsRead(items: seq<Item>, repr: real -> FloatText)
    requires items != [] && items[|items| - 1].SentDone?
    ensures SaysDone(Meanings(items, repr))
  {
    var n := |items| - 1;
    MeaningsAppend(items[..n], items[n], repr);
    assert items[..n] + [items[n]] == items;
    assert Meanings(items, repr)[|Meanings(items[..n], repr)|].DoneEvent?;
  }

  lemma TextsOfPrefix(some: seq<ClientEvent>, all: seq<ClientEvent>)
    requires some <= all
    ensures ClientTexts(some) <= ClientTexts(all)
  {
    assert all == some + all[|some|..];
    ClientTextsConcat(some, all[|some|..]);
  }

  /** Who has the one DONE event has everything before it. */
  lemma DoneIsReachedLast(some: seq<ClientEvent>, all: seq<ClientEvent>)
    requires some <= all && SaysDone(some)
    requires all != [] && !SaysDone(all[..|all| - 1])
    ensures some == all
  {
    if |some| < |all| {
      DoneOfPrefix(some, all[..|all| - 1]);
    }
  }

  lemma DoneOfPrefix(some: seq<ClientEvent>, all: seq<ClientEvent>)
    requires some <= all && SaysDone(some)
    ensures SaysDone(all)
  {
    assert forall k | 0 <= k < |some| :: all[k] == some[k];
  }

  /** What a client that has yielded `events` for job `j` may rely on: its texts are, in order, a
      prefix of the non-empty deltas vLLM sent before `[DONE]`; once it has yielded DONE they are
      all of them, DONE is its last event and names the job, the whole text is a well-formed list
      of segments, and the job is COMPLETED. */
  ghost predicate Faithful(j: Job, events: seq<ClientEvent>) {
    var deltas := VllmStream.DeltasBeforeDone(j.lines);
    && ClientTexts(events) <= deltas
    && (SaysDone(events) ==>
          && ClientTexts(events) == deltas
          && Transcript.WellFormed(Concat(deltas))
          && events != [] && events[|events| - 1] == DoneEvent(j.id)
          && !SaysDone(events[..|events| - 1])
          && j.status == Completed)
  }

  lemma DoneHasAll(j: Job, events: seq<ClientEvent>)
    requires Faithful(j, events) && SaysDone(events)
    ensures ClientTexts(events) == VllmStream.DeltasBeforeDone(j.lines)
  {
    hide SaysDone, ClientTexts, Transcript.WellFormed, VllmStream.DeltasBeforeDone;
  }

  lemma PrefixIsFaithful(j: Job, some: seq<ClientEvent>, all: seq<ClientEvent>)
    requires Faithful(j, all) && some <= all
    ensures Faithful(j, some)
  {
    hide SaysDone, ClientTexts, Transcript.WellFormed, VllmStream.DeltasBeforeDone;
    TextsOfPrefix(some, all);
    if SaysDone(some) {
      DoneOfPrefix(some, all);
      DoneIsReachedLast(some, all);
    }
  }

  /** Transcript conservation: after any run, and wherever the connection broke, the client that
      parses what a VibeVoice job's stream has sent does not raise and yields the transcript
      faithfully. */
  lemma Conservation(cfg: Config, schedule: seq<Event>, id: JobId, repr: real -> FloatText, received: string)
    requires cfg.backend.Vibevoice? && id in Exec(cfg, Init(), schedule).jobs
    requires Truncation.Broken(received, Body(Exec(cfg, Init(), schedule).jobs[id].emitted, repr))
    ensures ReadBody(START, received).ok
    ensures Faithful(Exec(cfg, Init(), schedule).jobs[id], ReadBody(START, received).events)
    ensures Exec(cfg, Init(), schedule).jobs[id].id == id
  {
    hide Exec, ReadBody, Body, Faithful;
    var j := Exec(cfg, Init(), schedule).jobs[id];
    Truncation.CutIsPrefix(j.emitted, repr, received);
    WholeStream(cfg, schedule, id, repr);
    PrefixIsFaithful(j, ReadBody(START, received).events, Meanings(j.emitted, repr));
  }

  lemma WholeStream(cfg: Config, schedule: seq<Event>, id: JobId, repr: real -> FloatText)
    requires cfg.backend.Vibevoice? && id in Exec(cfg, Init(), schedule).jobs
    ensures var j := Exec(cfg, Init(), schedule).jobs[id];
      Faithful(j, Meanings(j.emitted, repr)) && j.id == id
  {
    hide JobInvariant.Core, Safety.Inv, JobInvariant.Inv, Transcript.Diagnose, Transcript.WellFormed,
      VllmStream.ReplyOf, VllmStream.DeltasBeforeDone, ClientTexts, SaysDone;
    var s := Exec(cfg, Init(), schedule);
    var j := s.jobs[id];
    TextsSurvive(j.emitted, repr);
    Safety.Always(cfg, schedule);
    Safety.JobOf(cfg, s, id);
    Guarantees.StreamGrammar(cfg, schedule, id);
    VllmStream.ReplyIsDeltas(j.lines);
    if SaysDone(Meanings(j.emitted, repr)) {
      DoneMeansFinished(j.emitted, repr);
    }
    ContentOf(cfg, j);
  }

  /** The same for Groq: what the client has read of the transcript is nothing or Groq's answer in the
      segment format; with DONE it is that answer, or nothing if the answer is empty. */
  lemma GroqConservation(cfg: Config, schedule: seq<Event>, id: JobId, repr: real -> FloatText, received: string)
    requires cfg.backend.Groq? && id in Exec(cfg, Init(), schedule).jobs
    requires Truncation.Broken(received, Body(Exec(cfg, Init(), schedule).jobs[id].emitted, repr))
    ensures ReadBody(START, received).ok
    ensures AnswersFaithfully(Exec(cfg, Init(), schedule).jobs[id], ReadBody(START, received).events)
  {
    hide Exec, ReadBody, Body, SaysDone, ClientTexts, JobInvariant.Answers, JobInvariant.Inv, Texts;
    var j := Exec(cfg, Init(), schedule).jobs[id];
    var all, some := Meanings(j.emitted, repr), ReadBody(START, received).events;
    Truncation.CutIsPrefix(j.emitted, repr, received);
    TextsOfPrefix(some, all);
    WholeGroqStream(cfg, schedule, id, repr);
    if SaysDone(some) {
      DoneOfPrefix(some, all);
      DoneIsReachedLast(some, all);
    }
    if ClientTexts(some) != [] {
      OneAnswer(j, ClientTexts(some));
    }
  }

  /** What a client that has yielded `events` for Groq job `j` may rely on. */
  ghost predicate AnswersFaithfully(j: Job, events: seq<ClientEvent>) {
    && (ClientTexts(events) != [] ==> j.answer.Some? && JobInvariant.Answers(ClientTexts(events), j.answer.value))
    && (SaysDone(events) ==>
          j.status == Completed && j.answer.Some? && JobInvariant.Answers(ClientTexts(events), j.answer.value))
  }

  ghost predicate Answered(j: Job) {
    if j.answer.Some? then JobInvariant.Answers(Texts(Log(j)), j.answer.value) else Texts(Log(j)) == []
  }

  lemma OneAnswer(j: Job, texts: seq<string>)
    requires Answered(j) && texts <= Texts(Log(j)) && texts != []
    ensures j.answer.Some? && JobInvariant.Answers(texts, j.answer.value)
  {
    hide Transcript.IsAnswer, Texts;
  }

  lemma WholeGroqStream(cfg: Config, schedule: seq<Event>, id: JobId, repr: real -> FloatText)
    requires cfg.backend.Groq? && id in Exec(cfg, Init(), schedule).jobs
    ensures var j := Exec(cfg, Init(), schedule).jobs[id];
      var all := Meanings(j.emitted, repr);
      && ClientTexts(all) <= Texts(Log(j)) && Answered(j)
      && (SaysDone(all) ==>
            && ClientTexts(all) == Texts(Log(j)) && j.status == Completed && j.answer.Some?
            && all != [] && !SaysDone(all[..|all| - 1]))
  {
    hide JobInvariant.Core, Safety.Inv, JobInvariant.Inv, JobInvariant.Answers, ClientTexts, SaysDone;
    var s := Exec(cfg, Init(), schedule);
    var j := s.jobs[id];
    TextsSurvive(j.emitted, repr);
    Safety.Always(cfg, schedule);
    Safety.JobOf(cfg, s, id);
    Guarantees.StreamGrammar(cfg, schedule, id);
    GroqContentOf(cfg, j);
    if SaysDone(Meanings(j.emitted, repr)) {
      DoneMeansFinished(j.emitted, repr);
    }
  }

  lemma GroqContentOf(cfg: Config, j: Job)
    requires cfg.backend.Groq? && JobInvariant.Inv(cfg, j)
    ensures Answered(j) && (j.status == Completed ==> j.answer.Some?)
  {
    hide JobInvariant.Core, JobInvariant.Answers, Texts;
  }

  lemma ContentOf(cfg: Config, j: Job)
    requires cfg.backend.Vibevoice? && JobInvariant.Inv(cfg, j)
    ensures Texts(Log(j)) == VllmStream.ReplyOf(j.lines).chunks
    ensures j.status == Completed ==> Transcript.WellFormed(Concat(VllmStream.ReplyOf(j.lines).chunks))
  {
    hide JobInvariant.Core, Transcript.Diagnose, Transcript.WellFormed, VllmStream.ReplyOf, Texts;
    Transcript.DiagnosisIsExact(Concat(VllmStream.ReplyOf(j.lines).chunks));
  }
}
