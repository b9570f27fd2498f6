/** A stream that keeps being read reaches its end, and the client gets the verdict. */
module Delivery {
  import opened Basics
  import opened Jobs
  import opened Machine
  import opened Safety
  import JobInvariant
  import VllmStream
  import Transcript
  import EndToEnd
  import Sse
  import StepEffects
  import opened JsonRoundTrip

  function Takes(id: JobId, n: nat): seq<Event> { seq(n, _ => StreamTakes(id)) }

  /** The stream does not touch what came in. */
  predicate SameInput(i: Job, j: Job) { j.lines == i.lines && j.answer == i.answer }

  /** A terminal job whose stream is being sent, with `n` entries left in its chunk queue. */
  ghost predicate Awaits(s: State, id: JobId, n: nat) {
    id in s.jobs && s.jobs[id].handler.Sending? && Terminal(s.jobs[id].status) && |s.jobs[id].queue| == n
  }

  /** The chunk queue of such a job is texts closed by the end mark. */
  lemma QueueIsSealed(cfg: Config, j: Job)
    requires JobInvariant.Inv(cfg, j) && j.handler.Sending? && Terminal(j.status)
    ensures j.queue != [] && j.queue[|j.queue| - 1].None?
    ensures forall k | 0 <= k < |j.queue| - 1 :: j.queue[k].Some?
  {
    hide JobInvariant.ContentInv, JobInvariant.TaskInv, JobInvariant.HandlerInv, JobInvariant.StatusInv;
    hide JobInvariant.OpenShape, Texts, DataTexts;
    var log := Log(j);
    assert j.queue == [] ==> log == j.taken;
    forall k | 0 <= k < |j.queue| - 1
      ensures j.queue[k].Some?
    {
      assert log[..|log| - 1][|j.taken| + k] == j.queue[k];
    }
  }

  lemma OneTake(cfg: Config, s: State, id: JobId, n: nat)
    requires Inv(cfg, s) && Awaits(s, id, n)
    ensures n > 0 && Enabled(cfg, s, StreamTakes(id))
    ensures var s' := Step(cfg, s, StreamTakes(id));
      && id in s'.jobs && s'.jobs[id].status == s.jobs[id].status && s'.jobs[id].error == s.jobs[id].error
      && s'.jobs[id].id == s.jobs[id].id && SameInput(s.jobs[id], s'.jobs[id])
      && (n > 1 ==> Awaits(s', id, n - 1))
      && (n == 1 ==> s'.jobs[id].handler.Closed? && s'.jobs[id].emitted == s.jobs[id].emitted + FinalItems(s.jobs[id]))
  {
    hide Inv, JobInvariant.Inv, FinalItems;
    JobOf(cfg, s, id);
    QueueIsSealed(cfg, s.jobs[id]);
  }

  /** The stream of a terminal job closes after as many steps as there are entries in its chunk
      queue, not before, and what it sends last is the job's outcome. */
  lemma {:induction false} Delivers(cfg: Config, s: State, id: JobId, n: nat, m: nat)
    requires Inv(cfg, s) && Awaits(s, id, n) && m <= n
    ensures var s' := Exec(cfg, s, Takes(id, m));
      && Inv(cfg, s') && id in s'.jobs && s'.jobs[id].status == s.jobs[id].status
      && s'.jobs[id].error == s.jobs[id].error && s'.jobs[id].id == s.jobs[id].id
      && SameInput(s.jobs[id], s'.jobs[id])
      && (m < n ==> Awaits(s', id, n - m))
      && (m == n ==> s'.jobs[id].handler.Closed? && EndsWith(s'.jobs[id].emitted, FinalItems(s.jobs[id])))
  {
    hide Inv, Step, FinalItems;
    if m > 0 {
      var before := Takes(id, m - 1);
      Delivers(cfg, s, id, n, m - 1);
      var mid := Exec(cfg, s, before);
      assert Takes(id, m) == before + [StreamTakes(id)];
      ExecAppend(cfg, s, before, StreamTakes(id));
      OneTake(cfg, mid, id, n - (m - 1));
      StepKeeps(cfg, mid, StreamTakes(id));
      SameFinal(s.jobs[id], mid.jobs[id]);
    } else {
      assert Takes(id, 0) == [];
      OneTake(cfg, s, id, n);
    }
  }

  predicate EndsWith(items: seq<Item>, last: seq<Item>) {
    |last| <= |items| && items[|items| - |last|..] == last
  }

  lemma SameFinal(i: Job, j: Job)
    requires i.status == j.status && i.error == j.error && i.id == j.id
    ensures FinalItems(i) == FinalItems(j)
  {
  }

  /** So every COMPLETED job is announced by DONE and every FAILED one by its error message, to
      whoever reads on. */
  lemma VerdictIsDelivered(cfg: Config, s: State, id: JobId)
    requires Inv(cfg, s) && id in s.jobs && s.jobs[id].handler.Sending? && Terminal(s.jobs[id].status)
    ensures var s' := Exec(cfg, s, Takes(id, |s.jobs[id].queue|));
      && id in s'.jobs && s'.jobs[id].handler.Closed? && SameInput(s.jobs[id], s'.jobs[id])
      && (s.jobs[id].status == Completed ==>
            s'.jobs[id].emitted != [] && s'.jobs[id].emitted[|s'.jobs[id].emitted| - 1] == SentDone(id))
      && (s.jobs[id].status == Failed ==>
            && s'.jobs[id].emitted != [] && s.jobs[id].error.Some?
            && s'.jobs[id].emitted[|s'.jobs[id].emitted| - 1] == SentError(s.jobs[id].error.value))
  {
    hide Inv, JobInvariant.Inv, Exec, Takes;
    Delivers(cfg, s, id, |s.jobs[id].queue|, |s.jobs[id].queue|);
    JobOf(cfg, s, id);
    FinalVerdict(cfg, s.jobs[id]);
  }

  lemma FinalVerdict(cfg: Config, j: Job)
    requires JobInvariant.Inv(cfg, j)
    ensures j.status == Completed ==> FinalItems(j) == [SentDone(j.id)]
    ensures j.status == Failed ==> j.error.Some? && FinalItems(j) == [SentError(j.error.value)]
  {
    hide JobInvariant.ContentInv, JobInvariant.TaskInv, JobInvariant.HandlerInv;
    hide JobInvariant.StreamInv, JobInvariant.Sealed;
  }

  lemma LastIsRead(items: seq<Item>, repr: real -> FloatText)
    requires items != [] && |Sse.Meaning(items[|items| - 1], repr)| == 1
    ensures var events := Sse.Meanings(items, repr);
      events != [] && [events[|events| - 1]] == Sse.Meaning(items[|items| - 1], repr)
  {
    var n := |items| - 1;
    EndToEnd.MeaningsAppend(items[..n], items[n], repr);
    assert items[..n] + [items[n]] == items;
  }

  /** A task that raises makes a client that reads on yield ERROR, last, with the text of the exception,
      or its class name if that is empty. */
  lemma RaiseIsReported(cfg: Config, s: State, repr: real -> FloatText)
    requires Inv(cfg, s) && StepEffects.Resumable(s) && !s.worker.interrupted
    requires s.jobs[s.worker.id].task.outcome.Raised? && s.jobs[s.worker.id].handler.Sending?
    ensures var id := s.worker.id; var s1 := Step(cfg, s, WorkerResumes);
      && id in s1.jobs
      && var s2 := Exec(cfg, s1, Takes(id, |s1.jobs[id].queue|));
         var o := s.jobs[id].task.outcome;
         && id in s2.jobs
         && var client := Sse.ReadBody(Sse.START, Sse.Body(s2.jobs[id].emitted, repr));
            && client.ok && client.events != []
            && client.events[|client.events| - 1] == Sse.ErrorEvent(if o.message != "" then o.message else o.typeName)
  {
    hide Inv, Exec, Step, Takes, Sse.ReadBody, Sse.Body, Sse.Meanings;
    var id := s.worker.id;
    var s1 := Step(cfg, s, WorkerResumes);
    StepKeeps(cfg, s, WorkerResumes);
    StepEffects.VerdictTable(cfg, s);
    VerdictIsDelivered(cfg, s1, id);
    var items := Exec(cfg, s1, Takes(id, |s1.jobs[id].queue|)).jobs[id].emitted;
    Sse.RoundTrip(items, repr);
    LastIsRead(items, repr);
  }

  /** The client of a COMPLETED Groq job that reads on has Groq's answer, and DONE. */
  lemma AnswerArrives(cfg: Config, schedule: seq<Event>, id: JobId, repr: real -> FloatText)
    requires cfg.backend.Groq? && id in Exec(cfg, Init(), schedule).jobs
    requires var j := Exec(cfg, Init(), schedule).jobs[id]; j.handler.Sending? && j.status == Completed
    ensures var j := Exec(cfg, Init(), schedule).jobs[id];
      var s' := Exec(cfg, Init(), schedule + Takes(id, |j.queue|));
      && id in s'.jobs && j.answer.Some?
      && var client := Sse.ReadBody(Sse.START, Sse.Body(s'.jobs[id].emitted, repr));
         && client.ok && EndToEnd.SaysDone(client.events)
         && JobInvariant.Answers(EndToEnd.ClientTexts(client.events), j.answer.value)
  {
    hide Inv, Exec, Takes, EndToEnd.SaysDone, EndToEnd.ClientTexts, JobInvariant.Answers;
    hide Sse.ReadBody, Sse.Body, Sse.Meanings;
    var s := Exec(cfg, Init(), schedule);
    var more := Takes(id, |s.jobs[id].queue|);
    Always(cfg, schedule);
    VerdictIsDelivered(cfg, s, id);
    ExecConcat(cfg, Init(), schedule, more);
    var j := Exec(cfg, Init(), schedule + more).jobs[id];
    Sse.RoundTrip(j.emitted, repr);
    EndToEnd.LastDoneIsRead(j.emitted, repr);
    EndToEnd.GroqConservation(cfg, schedule + more, id, repr, Sse.Body(j.emitted, repr));
  }

  /** The whole transcript arrives: the client of a COMPLETED VibeVoice job that reads its stream to
      the end has yielded every delta vLLM sent before `[DONE]`, and DONE. */
  lemma TranscriptArrives(cfg: Config, schedule: seq<Event>, id: JobId, repr: real -> FloatText)
    requires cfg.backend.Vibevoice? && id in Exec(cfg, Init(), schedule).jobs
    requires var j := Exec(cfg, Init(), schedule).jobs[id]; j.handler.Sending? && j.status == Completed
    ensures var j := Exec(cfg, Init(), schedule).jobs[id];
      var s' := Exec(cfg, Init(), schedule + Takes(id, |j.queue|));
      && id in s'.jobs && s'.jobs[id].lines == j.lines
      && var client := Sse.ReadBody(Sse.START, Sse.Body(s'.jobs[id].emitted, repr));
         && client.ok && EndToEnd.SaysDone(client.events)
         && EndToEnd.ClientTexts(client.events) == VllmStream.DeltasBeforeDone(j.lines)
  {
    hide Inv, Exec, Takes, EndToEnd.SaysDone, EndToEnd.ClientTexts, EndToEnd.Faithful;
    hide Sse.ReadBody, Sse.Body, Sse.Meanings, VllmStream.DeltasBeforeDone;
    var s := Exec(cfg, Init(), schedule);
    var more := Takes(id, |s.jobs[id].queue|);
    Always(cfg, schedule);
    VerdictIsDelivered(cfg, s, id);
    ExecConcat(cfg, Init(), schedule, more);
    var j := Exec(cfg, Init(), schedule + more).jobs[id];
    Sse.RoundTrip(j.emitted, repr);
    EndToEnd.LastDoneIsRead(j.emitted, repr);
    EndToEnd.Conservation(cfg, schedule + more, id, repr, Sse.Body(j.emitted, repr));
    EndToEnd.DoneHasAll(j, Sse.ReadBody(Sse.START, Sse.Body(j.emitted, repr)).events);
  }
}
