/** What single steps do, said of the state before and after alone: statuses, messages, the table,
    `_pending`, the chunk log and the history. */
module StepEffects {
  import opened Basics
  import opened JsonText
  import opened Jobs
  import opened Machine
  import opened Safety
  import opened Positions
  import JobInvariant
  import Transcript
  import Wav
  import VllmStream
  import JsonGrammar
  import opened JsonRoundTrip

  // ------------------------------------------------------------------------ verdicts

  /** The job the worker waits for, when its task has ended. */
  predicate Resumable(s: State) {
    s.worker.Busy? && s.worker.id in s.jobs && s.jobs[s.worker.id].task.Done?
  }

  /** The worker's verdict: a task that raises fails its job with the exception's text, or its class
      name if that is empty; a task that returns completes it, unless a message was left; the
      worker or the task being cancelled cancels it. */
  lemma VerdictTable(cfg: Config, s: State)
    requires Resumable(s)
    ensures var id := s.worker.id; var s' := Step(cfg, s, WorkerResumes);
      && id in s'.jobs
      && var i, j := s.jobs[id], s'.jobs[id]; var o := i.task.outcome;
         && (s.worker.interrupted || o.TaskCancelled? ==>
               && j.status == Cancelled
               && j.error == Some(if i.cancelRequested then "Job cancelled" else "Queue stopped"))
         && (!s.worker.interrupted && o.Raised? ==>
               j.status == Failed && j.error == Some(if o.message != "" then o.message else o.typeName))
         && (!s.worker.interrupted && o.Returned? && i.error.None? ==> j.status == Completed && j.error == None)
         && (!s.worker.interrupted && o.Returned? && i.error.Some? ==> j.status == Failed && j.error == i.error)
         && j.task == NoTask && j.audio == None && j.handler == i.handler && j.emitted == i.emitted
  {
    hide Conclude;
    var id := s.worker.id;
    var j := s.jobs[id];
    ConcludeJobs(s, id, SettleJob(j, j.task.outcome, s.worker.interrupted));
  }

  /** The history grows by the time since the worker took the job, if the verdict is COMPLETED or
      FAILED, and only then. */
  lemma ElapsedIsRecorded(cfg: Config, s: State)
    requires Resumable(s)
    ensures var s' := Step(cfg, s, WorkerResumes);
      var verdict := if s.worker.id in s'.jobs then s'.jobs[s.worker.id].status else Cancelled;
      s'.finished == s.finished
        + (if verdict == Completed || verdict == Failed then [s.clock - s.worker.start] else [])
  {
    hide Conclude;
    var id := s.worker.id;
    var j := s.jobs[id];
    ConcludeJobs(s, id, SettleJob(j, j.task.outcome, s.worker.interrupted));
  }

  /** The time that passes with an event. */
  function Passed(e: Event): real { if e.Tick? && e.delta >= 0.0 then e.delta else 0.0 }

  function TimeOf(schedule: seq<Event>): real {
    if schedule == [] then 0.0 else TimeOf(schedule[..|schedule| - 1]) + Passed(schedule[|schedule| - 1])
  }

  lemma SettleTakesNoTime(s: State, id: JobId, start: real, outcome: Outcome, interrupted: bool)
    requires id in s.jobs
    ensures Settle(s, id, start, outcome, interrupted).clock == s.clock
  {
    hide Conclude, SettleJob, NextWorker;
    ConcludeJobs(s, id, SettleJob(s.jobs[id], outcome, interrupted));
  }

  lemma PopTakesNoTime(cfg: Config, s: State)
    requires s.pending != []
    ensures Pop(cfg, s).clock == s.clock
  {
    hide Settle, StartJob;
    var id := s.pending[0];
    if !StalePop(s) {
      var s2 := Touch(s.(pending := s.pending[1..], popped := s.popped + [id]), id, StartJob(cfg, s.jobs[id]))
                  .(worker := Busy(id, s.clock, false), started := s.started + [id]);
      SettleTakesNoTime(s2, id, s.clock, Returned, false);
    }
  }

  lemma CancelTakesNoTime(s: State, id: JobId, handler: Handler)
    requires id in s.jobs
    ensures Cancel(s, id, handler).clock == s.clock
  {
    hide Conclude;
    var j := s.jobs[id].(handler := handler);
    if CanCancel(s, id) {
      ConcludeJobs(s, id, CancelJob(j));
    }
  }

  lemma HandlerTakesNoTime(cfg: Config, s: State, e: Event)
    requires Enabled(cfg, s, e) && (IsUploadEvent(e) || IsStreamEvent(e))
    ensures Effect(cfg, s, e).clock == s.clock
  {
    hide Cancel, PositionAndEta;
    if !e.Reserve? {
      CancelTakesNoTime(s, e.id, Leaving);
      CancelTakesNoTime(s, e.id, Closed);
    }
  }

  lemma WorkerTakesNoTime(cfg: Config, s: State, e: Event)
    requires Enabled(cfg, s, e) && !IsUploadEvent(e) && !IsStreamEvent(e)
    ensures Effect(cfg, s, e).clock == s.clock + Passed(e)
  {
    hide Pop, Settle, BeginTask, ReadLine, EndReply, GroqReply, EndTask;
    if e.WorkerPops? {
      PopTakesNoTime(cfg, s);
    } else if e.WorkerResumes? {
      SettleTakesNoTime(s, s.worker.id, s.worker.start, Current(s).task.outcome, s.worker.interrupted);
    }
  }

  lemma ClockAfter(cfg: Config, s: State, e: Event)
    ensures Step(cfg, s, e).clock == s.clock + Passed(e)
  {
    if Enabled(cfg, s, e) {
      hide Effect, Enabled;
      if IsUploadEvent(e) || IsStreamEvent(e) {
        HandlerTakesNoTime(cfg, s, e);
      } else {
        WorkerTakesNoTime(cfg, s, e);
      }
    }
  }

  /** Only time itself takes time: the clock shows what has passed in the run, so a recorded time is
      what has passed since the worker took the job. */
  lemma {:induction false} ClockIsTime(cfg: Config, schedule: seq<Event>)
    ensures Exec(cfg, Init(), schedule).clock == TimeOf(schedule)
  {
    hide Step;
    if schedule != [] {
      var n := |schedule| - 1;
      ClockIsTime(cfg, schedule[..n]);
      ClockAfter(cfg, Exec(cfg, Init(), schedule[..n]), schedule[n]);
    }
  }

  /** `estimated_wait_seconds` is the position times the mean of the history, or 30 seconds each. */
  lemma EstimateIsMean(times: seq<real>, position: nat)
    ensures times == [] ==> EstimateWait(times, position) == position as real * 30.0
    ensures times != [] ==> EstimateWait(times, position) * |times| as real == position as real * Sum(times)
  {
    if times != [] {
      MeanTimes(position as real, Sum(times), |times| as real);
    }
  }

  lemma MeanTimes(p: real, sum: real, n: real)
    requires n != 0.0
    ensures p * (sum / n) * n == p * sum
  {
    assert (sum / n) * n == sum;
    assert p * (sum / n) * n == p * ((sum / n) * n);
  }

  lemma SumAppend(times: seq<real>, t: real)
    ensures Sum([]) == 0.0 && Sum(times + [t]) == Sum(times) + t
  {
    assert (times + [t])[..|times|] == times;
  }

  // ----------------------------------------------------------------------- the worker

  /** A popped id that is in the table and not CANCELLED starts: PROCESSING, with a fresh task, and
      the worker remembers when; any other id is only removed. */
  lemma PopStarts(cfg: Config, s: State)
    requires Inv(cfg, s) && s.worker.Idle? && s.pending != []
    ensures var s' := Step(cfg, s, WorkerPops); var id := s.pending[0];
      && s'.pending == s.pending[1..] && s'.order == s.order
      && (id !in s.order || !QueuedJob(s.jobs, id) ==> s'.jobs == s.jobs && s'.worker.Idle?)
      && (id in s.order && QueuedJob(s.jobs, id) ==>
            && id in s'.jobs
            && (!cfg.backend.Unset? ==>
                  && s'.jobs[id].status == Processing && s'.jobs[id].task == Live(false, false, false, [])
                  && s'.worker == Busy(id, s.clock, false))
            && (cfg.backend.Unset? ==> s'.jobs[id].status == Completed && s'.worker.Idle?))
  {
    hide Inv, StartJob, SettleJob, Settle;
    var id := s.pending[0];
    HeadIsLiveOrCancelled(cfg, s);
    if id in s.order && s.jobs[id].status == Queued {
      QueuedHasNoError(cfg, s, id);
      LivePop(cfg, s);
    }
  }

  lemma LivePop(cfg: Config, s: State)
    requires s.worker.Idle? && s.pending != []
    requires var id := s.pending[0];
      id in s.jobs && id in s.order && s.jobs[id].status == Queued && s.jobs[id].error == None
    ensures var s' := Step(cfg, s, WorkerPops); var id := s.pending[0];
      && s'.pending == s.pending[1..] && s'.order == s.order && id in s'.jobs
      && (!cfg.backend.Unset? ==>
            && s'.jobs[id].status == Processing && s'.jobs[id].task == Live(false, false, false, [])
            && s'.worker == Busy(id, s.clock, false))
      && (cfg.backend.Unset? ==> s'.jobs[id].status == Completed && s'.worker.Idle?)
  {
    hide Conclude;
    var id := s.pending[0];
    var j := StartJob(cfg, s.jobs[id]);
    var s1 := Touch(s.(pending := s.pending[1..], popped := s.popped + [id]), id, j)
                .(worker := Busy(id, s.clock, false), started := s.started + [id]);
    ConcludeJobs(s1, id, SettleJob(j, Returned, false));
  }

  lemma HeadIsLiveOrCancelled(cfg: Config, s: State)
    requires Inv(cfg, s) && s.pending != []
    ensures var id := s.pending[0];
      id in s.jobs && (s.jobs[id].status == Queued || s.jobs[id].status == Cancelled)
  {
    hide EveryJob, Starts, Timers, History, WorkerInv, Placed;
  }

  lemma QueuedHasNoError(cfg: Config, s: State, id: JobId)
    requires Inv(cfg, s) && id in s.jobs
    ensures s.jobs[id].status == Queued ==> s.jobs[id].error == None
  {
    hide Frame, EveryJob, JobInvariant.ContentInv, JobInvariant.TaskInv;
    hide JobInvariant.HandlerInv, JobInvariant.StreamInv;
    hide JobInvariant.Sealed;
    JobOf(cfg, s, id);
  }

  // --------------------------------------------------------------------------- the task

  /** The task begins with the audio file there; a Groq job is STREAMING from then on. */
  lemma TaskBeginsRunning(cfg: Config, s: State)
    requires Inv(cfg, s) && Enabled(cfg, s, TaskBegins)
    ensures var id := s.worker.id; var s' := Step(cfg, s, TaskBegins);
      && id in s.jobs && id in s'.jobs
      && s'.jobs[id].task == Live(true, false, false, [])
      && s'.jobs[id].status == (if cfg.backend.Groq? then Streaming else s.jobs[id].status)
  {
    hide Frame, EveryJob, JobInvariant.ContentInv, JobInvariant.StreamInv, JobInvariant.Sealed;
    JobOf(cfg, s, s.worker.id);
  }

  /** Groq's answer puts one chunk into the log, the segment with that text, or none if there is no
      text; and the task returns. */
  lemma GroqAnswers(cfg: Config, s: State, text: string, duration: string)
    requires Enabled(cfg, s, TaskGroqReply(text, duration))
    ensures var id := s.worker.id; var s' := Step(cfg, s, TaskGroqReply(text, duration));
      && id in s.jobs && id in s'.jobs
      && var i, j := s.jobs[id], s'.jobs[id];
         && j.task == Done(Returned) && j.status == i.status && j.error == i.error && j.answer == Some(text)
         && (text == "" ==> Log(j) == Log(i))
         && (text != "" ==> exists chunk ::
               && Log(j) == Log(i) + [Some(chunk)]
               && Loads(chunk) ==
                    Some(Arr([Obj([("Start", Num("0")), ("End", Num(duration)), ("Content", Str(text))])])))
  {
    hide Loads, GroqSegment;
    var i := s.jobs[s.worker.id];
    SegmentLoads(text, duration);
    if text != "" {
      JobInvariant.PutKeepsTexts(i, Some(GroqSegment(text, duration)));
    }
  }

  lemma SegmentLoads(text: string, duration: string)
    requires JsonGrammar.IsNumeral(duration)
    ensures Loads(GroqSegment(text, duration))
         == Some(Arr([Obj([("Start", Num("0")), ("End", Num(duration)), ("Content", Str(text))])]))
  {
    hide Loads, JsonRoundTrip.Print, JsonGrammar.IsNumeral, JsonRoundTrip.Printable;
    JobInvariant.SegmentPrints(text, duration);
    JsonRoundTrip.LoadsInvertsPrint(Spaced,
      Arr([Obj([("Start", Num("0")), ("End", Num(duration)), ("Content", Str(text))])]));
  }

  /** The chunk as `json.dumps` writes it. */
  lemma SegmentText(text: string, duration: string)
    ensures GroqSegment(text, duration)
      == "[" + ("{" + "\"Start\": 0" + ", " + ("\"End\": " + duration) + ", "
                + ("\"Content\": " + Quote(Spaced, text)) + "}") + "]"
  {
    hide Quote, Print, PrintMember;
    var fields := [("Start", Num("0")), ("End", Num(duration)), ("Content", Str(text))];
    SpacedMembers(text, duration);
    ThreeMembers(Spaced, fields);
    OneObject(fields);
  }

  lemma OneObject(fields: seq<(string, Json)>)
    ensures Print(Spaced, Arr([Obj(fields)])) == "[" + Print(Spaced, Obj(fields)) + "]"
  {
    hide PrintMembers;
    assert PrintItems(Spaced, [Obj(fields)]) == Print(Spaced, Obj(fields));
  }

  lemma KeysArePlain()
    ensures Quote(Spaced, "Start") == "\"Start\"" && Quote(Spaced, "End") == "\"End\""
    ensures Quote(Spaced, "Content") == "\"Content\""
  {
    hide Escape;
    PlainStays(Spaced, "Start");
    PlainStays(Spaced, "End");
    PlainStays(Spaced, "Content");
  }

  lemma SpacedMembers(text: string, duration: string)
    ensures PrintMember(Spaced, ("Start", Num("0"))) == "\"Start\": 0"
    ensures PrintMember(Spaced, ("End", Num(duration))) == "\"End\": " + duration
    ensures PrintMember(Spaced, ("Content", Str(text))) == "\"Content\": " + Quote(Spaced, text)
  {
    hide Quote;
    KeysArePlain();
  }

  /** The end of vLLM's reply: a well-formed transcript returns, any other leaves a message and raises
      it. */
  lemma ReplyEndIsChecked(cfg: Config, s: State)
    requires Enabled(cfg, s, TaskReplyEnds)
    ensures var id := s.worker.id; var s' := Step(cfg, s, TaskReplyEnds);
      && id in s.jobs && id in s'.jobs && s.jobs[id].task.Live?
      && var i, j := s.jobs[id], s'.jobs[id];
         && (Transcript.WellFormed(Concat(i.task.accumulated)) ==> j.task == Done(Returned) && j.error == i.error)
         && (!Transcript.WellFormed(Concat(i.task.accumulated)) ==>
               exists m :: m != "" && j.error == Some(m) && j.task == Done(Raised(m, "RuntimeError")))
         && Log(j) == Log(i) && j.status == i.status
  {
    hide Transcript.Diagnose, Transcript.Describe, Transcript.WellFormed, Concat;
    Transcript.DiagnosisIsExact(Concat(s.jobs[s.worker.id].task.accumulated));
  }

  // ------------------------------------------------------------------------ the handler

  /** A new id gets a slot exactly while fewer than `max_size` jobs of the table are active. */
  lemma RoomIsExact(cfg: Config, s: State, id: JobId, client: string, active: set<JobId>)
    requires forall k :: k in active <==>
      && k in s.order && k in s.jobs
      && s.jobs[k].status != Completed && s.jobs[k].status != Failed && s.jobs[k].status != Cancelled
    ensures Enabled(cfg, s, Event.Reserve(id, client)) <==> id !in s.jobs && |active| < cfg.maxSize
  {
    assert active == ActiveIds(s.jobs, s.order);
  }

  /** A reservation appends the client's own job to the table, UPLOADING. */
  lemma ReserveAdds(cfg: Config, s: State, id: JobId, client: string)
    requires Enabled(cfg, s, Event.Reserve(id, client))
    ensures var s' := Step(cfg, s, Event.Reserve(id, client));
      && s'.order == s.order + [id] && s'.jobs.Keys == s.jobs.Keys + {id}
      && s'.jobs[id].client == client && s'.jobs[id].status == Uploading && Log(s'.jobs[id]) == []
      && forall k | k in s.jobs :: s'.jobs[k] == s.jobs[k]
  {
  }

  /** A chunk of the upload is counted; one that would take the total over the limit cancels the job. */
  lemma ChunkIsCounted(cfg: Config, s: State, id: JobId, n: nat)
    requires Inv(cfg, s) && Enabled(cfg, s, SpoolMore(id, n))
    ensures var s' := Step(cfg, s, SpoolMore(id, n));
      && id in s'.jobs
      && var total := s.jobs[id].handler.total + n;
         if total <= cfg.maxAudioBytes then s'.jobs == s.jobs[id := s.jobs[id].(handler := Spooling(total))]
         else s'.jobs[id].status == Cancelled
  {
    hide EveryJob, Queue, Starts, Timers, History, WorkerInv, Conclude;
    UploadingIsListed(cfg, s, id);
    ConcludeJobs(s, id, CancelJob(s.jobs[id].(handler := Leaving)));
  }

  lemma UploadingIsListed(cfg: Config, s: State, id: JobId)
    requires Inv(cfg, s) && id in s.jobs && s.jobs[id].handler.Spooling?
    ensures id in s.order && s.jobs[id].status == Uploading
  {
    hide JobInvariant.Inv, Frame;
    JobOf(cfg, s, id);
    JobInvariant.RunningInProcess(cfg, s.jobs[id]);
  }

  /** The end of an upload: a canonical WAV file is handed over, whole, and its job goes to the back of
      the line; with any other file the job is cancelled. */
  lemma UploadEnds(cfg: Config, s: State, id: JobId, file: seq<Wav.Byte>)
    requires Inv(cfg, s) && Enabled(cfg, s, SpoolEnd(id, file))
    ensures var s' := Step(cfg, s, SpoolEnd(id, file));
      && id in s'.jobs
      && (Wav.Canonical(file) ==>
            && s'.jobs[id].status == Queued && s'.jobs[id].audio == Some(|file|)
            && s'.pending == s.pending + [id])
      && (!Wav.Canonical(file) ==> s'.jobs[id].status == Cancelled && s'.pending == s.pending)
  {
    hide EveryJob, Queue, Starts, Timers, History, WorkerInv, Conclude, Wav.ReadInfo;
    Wav.AcceptsExactlyCanonical(file);
    UploadingIsListed(cfg, s, id);
    ConcludeJobs(s, id, CancelJob(s.jobs[id].(handler := Leaving)));
    CanonicalNotEmpty(file);
  }

  lemma CanonicalNotEmpty(file: seq<Wav.Byte>)
    ensures Wav.Canonical(file) ==> file != []
  {
  }

  /** The stream of a job still in line opens with its place and the estimate for that place; any
      other opens with a comment. */
  lemma StreamOpensWith(cfg: Config, s: State, id: JobId)
    requires Inv(cfg, s) && Enabled(cfg, s, StreamOpens(id))
    ensures var s' := Step(cfg, s, StreamOpens(id));
      && id in s'.jobs && s.jobs[id].emitted == []
      && (QueuedJob(s.jobs, id) ==>
            && id in Shown(s)
            && s'.jobs[id].emitted ==
                 [SentPosition(id, IndexOf(Shown(s), id) + 1, EstimateWait(s.times, IndexOf(Shown(s), id) + 1))])
      && (!QueuedJob(s.jobs, id) ==> s'.jobs[id].emitted == [SentAccepted])
  {
    hide Frame, EveryJob, JobInvariant.Inv, QueuedIn;
    JobOf(cfg, s, id);
    NothingSentYet(cfg, s.jobs[id]);
    PositionsAreExact(cfg, s);
  }

  lemma NothingSentYet(cfg: Config, j: Job)
    requires JobInvariant.Inv(cfg, j) && j.handler.Armed?
    ensures j.emitted == []
  {
    hide JobInvariant.ContentInv, JobInvariant.TaskInv, JobInvariant.HandlerInv;
    hide JobInvariant.StatusInv, JobInvariant.Sealed;
  }

  // --------------------------------------------------------------------------- clean-up

  /** An expired job is gone from the table, with its file; the others stay as they were, in order. */
  lemma ExpiryForgets(cfg: Config, s: State, id: JobId)
    requires Inv(cfg, s) && Enabled(cfg, s, CleanupExpires(id))
    ensures var s' := Step(cfg, s, CleanupExpires(id));
      && id !in s'.order && s'.order == Without(s.order, id)
      && id in s'.jobs && s'.jobs[id].audio == None
      && s'.timers == s.timers - multiset{id}
      && forall k | k in s.jobs && k != id :: k in s'.jobs && s'.jobs[k] == s.jobs[k]
  {
    hide Inv;
    ExpiringIsListed(cfg, s, id);
  }

  /** Once the timers are stopped no clean-up takes place. */
  lemma StoppedTimersAreStill(cfg: Config, s: State, id: JobId)
    requires Enabled(cfg, s, StopTimers)
    ensures var s' := Step(cfg, s, StopTimers);
      !Enabled(cfg, s', CleanupExpires(id)) && s'.order == s.order && s'.jobs == s.jobs
  {
  }

  lemma ExpiringIsListed(cfg: Config, s: State, id: JobId)
    requires Inv(cfg, s) && id in s.timers
    ensures id in s.order && id in s.jobs
  {
    hide EveryJob, Queue, Starts, History, WorkerInv;
  }
}
