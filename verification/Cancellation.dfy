/** What a cancellation comes to in the end: of a job by its client, and of the worker by `stop`. */
module Cancellation {
  import opened Basics
  import opened Jobs
  import opened Machine
  import opened Safety
  import opened Fifo
  import opened Lifecycle
  import opened Progress
  import JobInvariant
  import VllmStream
  import Transcript

  // -------------------------------------------------- the task the worker waits for

  /** What one step, other than the worker's resumption, may do to the task in hand: nothing, ask
      for its cancellation, or, if nobody had asked before, anything; a task asked to end only
      ends, and not normally. */
  ghost predicate TaskMoves(t: Task, t': Task) {
    || t' == t
    || t' == CancelTask(t)
    || (t.Live? && !t.cancelling)
    || (t.Live? && t.cancelling && t'.Done? && (t'.outcome.TaskCancelled? || (t.begun && t'.outcome.Raised?)))
  }

  /** The worker waits for the same job, and what it was told it has not forgotten. */
  ghost predicate StillBusy(s: State, s': State) {
    && s.worker.Busy? && s'.worker.Busy?
    && s'.worker.id == s.worker.id && (s.worker.interrupted ==> s'.worker.interrupted)
    && s.worker.id in s.jobs && s.worker.id in s'.jobs
    && TaskMoves(s.jobs[s.worker.id].task, s'.jobs[s.worker.id].task)
  }

  lemma SameWorkerStays(s: State, s': State)
    requires s.worker.Busy? && s'.worker == s.worker && s.worker.id in s.jobs && s.worker.id in s'.jobs
    requires TaskMoves(s.jobs[s.worker.id].task, s'.jobs[s.worker.id].task)
    ensures StillBusy(s, s')
  {
  }

  lemma TouchStays(s: State, id: JobId, j: Job)
    requires s.worker.Busy? && s.worker.id in s.jobs
    requires id in s.jobs ==> TaskMoves(s.jobs[id].task, j.task)
    requires id !in s.jobs ==> id != s.worker.id
    ensures StillBusy(s, Touch(s, id, j))
  {
  }

  lemma CancelStays(s: State, id: JobId, handler: Handler)
    requires s.worker.Busy? && s.worker.id in s.jobs && id in s.jobs
    ensures StillBusy(s, Cancel(s, id, handler))
  {
    hide Conclude;
    var j := s.jobs[id].(handler := handler);
    ConcludeJobs(s, id, CancelJob(j));
  }

  lemma HandlerStays(cfg: Config, s: State, e: Event)
    requires Enabled(cfg, s, e) && (IsUploadEvent(e) || IsStreamEvent(e))
    requires s.worker.Busy? && s.worker.id in s.jobs
    ensures StillBusy(s, Effect(cfg, s, e))
  {
    hide Cancel, PositionAndEta, FinalItems, StillBusy;
    if e.Reserve? {
      TouchStays(s, e.id, NewJob(e.id, e.client));
      SameWorkerStays(s, Effect(cfg, s, e));
    } else {
      CancelStays(s, e.id, Leaving);
      CancelStays(s, e.id, Closed);
      HandlerTouchStays(cfg, s, e);
    }
  }

  lemma HandlerTouchStays(cfg: Config, s: State, e: Event)
    requires Enabled(cfg, s, e) && (IsUploadEvent(e) || IsStreamEvent(e)) && !e.Reserve?
    requires s.worker.Busy? && s.worker.id in s.jobs
    requires StillBusy(s, Cancel(s, e.id, Leaving)) && StillBusy(s, Cancel(s, e.id, Closed))
    ensures StillBusy(s, Effect(cfg, s, e))
  {
    hide Cancel, PositionAndEta, FinalItems;
  }

  lemma TaskStays(cfg: Config, s: State, e: Event)
    requires Enabled(cfg, s, e) && IsTaskEvent(e)
    ensures StillBusy(s, Effect(cfg, s, e))
  {
    hide BeginTask, ReadLine, EndReply, GroqReply;
  }

  lemma OtherStays(cfg: Config, s: State, e: Event)
    requires Enabled(cfg, s, e) && !IsUploadEvent(e) && !IsStreamEvent(e) && !IsTaskEvent(e) && !e.WorkerResumes?
    requires s.worker.Busy? && s.worker.id in s.jobs
    ensures StillBusy(s, Effect(cfg, s, e))
  {
    hide Pop, Settle;
  }

  lemma WaitingStays(cfg: Config, s: State, e: Event)
    requires Inv(cfg, s) && s.worker.Busy? && !Resumes(cfg, s, e)
    ensures StillBusy(s, Step(cfg, s, e))
  {
    hide Inv, Effect, Enabled, StillBusy;
    WorkerJob(cfg, s);
    if !Enabled(cfg, s, e) {
      SameWorkerStays(s, s);
    } else if IsUploadEvent(e) || IsStreamEvent(e) {
      HandlerStays(cfg, s, e);
    } else if IsTaskEvent(e) {
      TaskStays(cfg, s, e);
    } else {
      OtherStays(cfg, s, e);
    }
  }

  // ------------------------------------------------------------------------- stop

  /** The worker is bound to see `CancelledError` or an exception of its task. */
  ghost predicate ToldToStop(s: State) {
    && s.worker.Busy? && s.worker.id in s.jobs
    && (s.worker.interrupted
        || (match s.jobs[s.worker.id].task
            case Live(_, cancelling, _, _) => cancelling
            case Done(outcome) => !outcome.Returned?
            case NoTask => false))
  }

  lemma StopTells(cfg: Config, s: State)
    requires Inv(cfg, s) && s.worker.Busy?
    ensures var s' := Step(cfg, s, StopWorker); ToldToStop(s') && s'.worker.id == s.worker.id
  {
    hide Inv;
    WorkerJob(cfg, s);
  }

  lemma {:induction false} StaysTold(cfg: Config, s: State, schedule: seq<Event>)
    requires Inv(cfg, s) && ToldToStop(s) && Resumptions(cfg, s, schedule) == 0
    ensures var s' := Exec(cfg, s, schedule);
      Inv(cfg, s') && ToldToStop(s') && s'.worker.id == s.worker.id
  {
    hide Inv, Step, Resumes;
    if schedule != [] {
      var before := schedule[..|schedule| - 1];
      var e := schedule[|schedule| - 1];
      StaysTold(cfg, s, before);
      WaitingStays(cfg, Exec(cfg, s, before), e);
      StepKeeps(cfg, Exec(cfg, s, before), e);
    }
  }

  /** A worker told to stop, once it resumes: it ends if and only if the job was not cancelled by
      its client and it sees `CancelledError`, not another exception by which the task ended. */
  ghost predicate Obeys(cfg: Config, s: State) {
    s.worker.Busy? && s.worker.id in s.jobs && s.jobs[s.worker.id].task.Done? ==>
      var j := s.jobs[s.worker.id]; var w := Step(cfg, s, WorkerResumes).worker;
      && (w.Off? <==> !j.cancelRequested && (s.worker.interrupted || !j.task.outcome.Raised?))
      && (w.Off? || w.Idle?)
  }

  /** `stop` ends an idle worker at once. A busy one stays busy with its job until it resumes,
      whatever else happens, and then obeys, or loses the stop and goes on, as `Obeys` says. */
  lemma StopIsObeyed(cfg: Config, s: State, schedule: seq<Event>)
    requires Inv(cfg, s) && Resumptions(cfg, Step(cfg, s, StopWorker), schedule) == 0
    ensures !s.worker.Busy? ==> Step(cfg, s, StopWorker).worker.Off?
    ensures s.worker.Busy? ==>
      var s' := Exec(cfg, Step(cfg, s, StopWorker), schedule);
      s'.worker.Busy? && s'.worker.id == s.worker.id && s'.worker.id in s'.jobs && Obeys(cfg, s')
  {
    hide Inv, Exec, Step, Resumptions, ToldToStop, Obeys;
    if !s.worker.Busy? {
      IdleStops(cfg, s);
      return;
    }
    StopTells(cfg, s);
    StepKeeps(cfg, s, StopWorker);
    StaysTold(cfg, Step(cfg, s, StopWorker), schedule);
    ToldResumes(cfg, Exec(cfg, Step(cfg, s, StopWorker), schedule));
  }

  lemma ToldResumes(cfg: Config, s: State)
    requires ToldToStop(s)
    ensures s.worker.Busy? && s.worker.id in s.jobs
    ensures Obeys(cfg, s)
  {
    hide Conclude, SettleJob;
  }

  lemma IdleStops(cfg: Config, s: State)
    requires !s.worker.Busy?
    ensures Step(cfg, s, StopWorker).worker.Off?
  {
  }

  // ----------------------------------------------------------------------- cancel

  /** The job in hand can still end by something other than `CancelledError`. */
  predicate MayFail(s: State, id: JobId) {
    && s.worker.Busy? && s.worker.id == id && !s.worker.interrupted && id in s.jobs
    && (match s.jobs[id].task
        case Live(begun, _, _, _) => begun
        case Done(outcome) => !outcome.TaskCancelled?
        case NoTask => false)
  }

  /** Cancelled, and bound to stay so. */
  ghost predicate CancelledForGood(s: State, id: JobId) {
    && id in s.jobs && s.jobs[id].status == Cancelled && !MayFail(s, id)
    && (s.worker.Busy? && s.worker.id == id && s.jobs[id].task.Live? ==>
          s.worker.interrupted || s.jobs[id].task.cancelling)
  }

  lemma GoodStays(cfg: Config, s: State, e: Event, id: JobId)
    requires Inv(cfg, s) && CancelledForGood(s, id)
    ensures CancelledForGood(Step(cfg, s, e), id)
  {
    hide Inv, Step, Enabled;
    StepAdvances(cfg, s, e, id);
    var s' := Step(cfg, s, e);
    if s.worker.Busy? && !Resumes(cfg, s, e) {
      WaitingStays(cfg, s, e);
    } else {
      NotPickedUp(cfg, s, e, id);
    }
  }

  /** The worker picks up QUEUED jobs only. */
  lemma NotPickedUp(cfg: Config, s: State, e: Event, id: JobId)
    requires Inv(cfg, s) && id in s.jobs && s.jobs[id].status == Cancelled
    requires !s.worker.Busy? || Resumes(cfg, s, e)
    ensures var w := Step(cfg, s, e).worker; !w.Busy? || w.id != id
  {
    hide Inv, Step, Pop, Effect;
    BusyAfter(cfg, s, e);
    if Observe(cfg, s, e).Serve? {
      PopWorker(cfg, s);
      PopIsStep(cfg, s);
    }
  }

  lemma PopIsStep(cfg: Config, s: State)
    requires Enabled(cfg, s, WorkerPops)
    ensures Step(cfg, s, WorkerPops) == Pop(cfg, s)
  {
    hide Pop;
  }

  lemma {:induction false} GoodStaysForever(cfg: Config, s: State, later: seq<Event>, id: JobId)
    requires Inv(cfg, s) && CancelledForGood(s, id)
    ensures Inv(cfg, Exec(cfg, s, later)) && CancelledForGood(Exec(cfg, s, later), id)
  {
    hide Inv, Step, CancelledForGood;
    if later != [] {
      var before := later[..|later| - 1];
      GoodStaysForever(cfg, s, before, id);
      GoodStays(cfg, Exec(cfg, s, before), later[|later| - 1], id);
      StepKeeps(cfg, Exec(cfg, s, before), later[|later| - 1]);
    }
  }

  /** How a cancelled job comes to be FAILED after all: its task ends by an exception, or has ended
      otherwise already, and the worker resumes. */
  function Ending(s: State, id: JobId): seq<Event>
    requires id in s.jobs
  {
    if s.jobs[id].task.Live? then [TaskRaises("boom", "RuntimeError"), WorkerResumes] else [WorkerResumes]
  }

  lemma EndingFails(cfg: Config, s: State, id: JobId)
    requires MayFail(s, id) && s.jobs[id].error.Some?
    ensures var s' := Exec(cfg, s, Ending(s, id)); id in s'.jobs && s'.jobs[id].status == Failed
  {
    hide Step;
    if s.jobs[id].task.Live? {
      RaiseNow(cfg, s, id);
      ResumeFails(cfg, Step(cfg, s, TaskRaises("boom", "RuntimeError")), id);
      assert [] + [TaskRaises("boom", "RuntimeError")] == [TaskRaises("boom", "RuntimeError")];
      ExecAppend(cfg, s, [], TaskRaises("boom", "RuntimeError"));
      ExecAppend(cfg, s, [TaskRaises("boom", "RuntimeError")], WorkerResumes);
      assert [TaskRaises("boom", "RuntimeError")] + [WorkerResumes] == Ending(s, id);
    } else {
      ResumeFails(cfg, s, id);
      assert [] + [WorkerResumes] == Ending(s, id);
      ExecAppend(cfg, s, [], WorkerResumes);
    }
  }

  lemma RaiseNow(cfg: Config, s: State, id: JobId)
    requires MayFail(s, id) && s.jobs[id].task.Live? && s.jobs[id].error.Some?
    ensures var s' := Step(cfg, s, TaskRaises("boom", "RuntimeError"));
      MayFail(s', id) && s'.jobs[id].error.Some? && s'.jobs[id].task.Done?
  {
  }

  lemma ResumeFails(cfg: Config, s: State, id: JobId)
    requires MayFail(s, id) && s.jobs[id].task.Done? && s.jobs[id].error.Some?
    ensures var s' := Step(cfg, s, WorkerResumes); id in s'.jobs && s'.jobs[id].status == Failed
  {
  }

  /** A job for which `cancel` returns True stays CANCELLED whatever happens later if and only if,
      when `cancel` is called, the worker does not wait for a task of it that has begun and has not
      ended by cancellation. In particular a job cancelled before the worker took it stays so. */
  lemma CancelIsFinal(cfg: Config, s: State, e: Event)
    requires Inv(cfg, s) && CancelReturnsTrue(cfg, s, e)
    ensures !MayFail(s, e.id) <==> forall later ::
      var s' := Exec(cfg, Step(cfg, s, e), later); e.id in s'.jobs && s'.jobs[e.id].status == Cancelled
    ensures e.id !in s.started ==> !MayFail(s, e.id)
  {
    hide Inv, Exec, Step, Enabled;
    var id, s' := e.id, Step(cfg, s, e);
    CancelledNow(cfg, s, e);
    StepKeeps(cfg, s, e);
    StartedIfBusy(cfg, s);
    if MayFail(s, id) {
      EndingFails(cfg, s', id);
      var bad := Exec(cfg, s', Ending(s', id));
      assert bad.jobs[id].status != Cancelled;
    } else {
      forall later
        ensures var s'' := Exec(cfg, s', later); id in s''.jobs && s''.jobs[id].status == Cancelled
      {
        GoodStaysForever(cfg, s', later, id);
      }
    }
  }

  lemma StartedIfBusy(cfg: Config, s: State)
    requires Inv(cfg, s)
    ensures s.worker.Busy? ==> s.worker.id in s.started
  {
    hide Inv;
    if s.worker.Busy? {
      WorkerJob(cfg, s);
    }
  }
}
