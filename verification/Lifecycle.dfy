/** How the status of one job may change along a run. */
module Lifecycle {
  import opened Basics
  import opened Jobs
  import opened Machine
  import opened Safety
  import JobInvariant
  import VllmStream
  import Transcript

  function Rank(st: Status): nat {
    match st
    case Uploading => 0
    case Queued => 1
    case Processing => 2
    case Streaming => 3
    case _ => 4
  }

  /** The worker resumes from a task that did not end by cancellation, and was not cancelled itself. */
  predicate Relabels(s: State, e: Event, id: JobId) {
    && e.WorkerResumes? && s.worker.Busy? && s.worker.id == id
    && id in s.jobs && s.jobs[id].task.Done?
    && !SeesCancelledError(s.jobs[id].task.outcome, s.worker.interrupted)
  }

  /** What one step may do to a job: ranks never fall, COMPLETED and FAILED are final, CANCELLED can
      only turn into FAILED, and a cancellation request is never withdrawn. */
  ghost predicate Advances(i: Job, j: Job, relabels: bool) {
    && j.id == i.id && j.client == i.client
    && Rank(i.status) <= Rank(j.status)
    && (i.status == Completed || i.status == Failed ==> j.status == i.status && j.error == i.error)
    && (i.status == Cancelled ==> j.status == if relabels then Failed else Cancelled)
    && (i.cancelRequested ==> j.cancelRequested)
  }

  lemma CancelAdvances(s: State, id: JobId, handler: Handler, k: JobId)
    requires id in s.jobs && k in s.jobs
    ensures k in Cancel(s, id, handler).jobs && Advances(s.jobs[k], Cancel(s, id, handler).jobs[k], false)
  {
    hide Conclude;
    ConcludeJobs(s, id, CancelJob(s.jobs[id].(handler := handler)));
  }

  lemma SettledAdvances(i: Job, outcome: Outcome, interrupted: bool)
    requires JobInvariant.InProcess(i) || (i.status == Cancelled && i.cancelRequested)
    ensures var j := SettleJob(i, outcome, interrupted); var relabels := !SeesCancelledError(outcome, interrupted);
      && ((i.status == Cancelled ==> i.error.Some?) ==>
            Advances(i, j, relabels) && Advances(i, j.(cleanupScheduled := true), relabels))
  {
  }

  lemma SettleAdvances(cfg: Config, s: State, k: JobId)
    requires Inv(cfg, s) && Enabled(cfg, s, WorkerResumes) && k in s.jobs
    ensures k in Effect(cfg, s, WorkerResumes).jobs
    ensures Advances(s.jobs[k], Effect(cfg, s, WorkerResumes).jobs[k], Relabels(s, WorkerResumes, k))
  {
    hide JobInvariant.Inv, Frame, EveryJob, Conclude, SettleJob, Advances;
    var id := s.worker.id;
    var j := s.jobs[id];
    JobOf(cfg, s, id);
    FinishedJob(cfg, j);
    SettledAdvances(j, j.task.outcome, s.worker.interrupted);
    ConcludeJobs(s, id, SettleJob(j, j.task.outcome, s.worker.interrupted));
    SameAdvances(s.jobs[k]);
  }

  lemma SameAdvances(j: Job)
    ensures Advances(j, j, false)
    ensures Advances(j, j.(audio := None), false)
    ensures Advances(j, j.(task := CancelTask(j.task)), false)
  {
  }

  /** The status of a job whose task has ended. */
  lemma FinishedJob(cfg: Config, j: Job)
    requires JobInvariant.Inv(cfg, j) && j.task.Done?
    ensures JobInvariant.InProcess(j) || (j.status == Cancelled && j.cancelRequested && j.error.Some?)
    ensures JobInvariant.InProcess(j) ==> !j.cancelRequested
  {
    hide JobInvariant.ContentInv, JobInvariant.StreamInv, JobInvariant.Sealed;
  }

  lemma HeadIsLive(cfg: Config, s: State)
    requires Inv(cfg, s) && s.pending != []
    ensures s.pending[0] in s.jobs && (StalePop(s) || s.jobs[s.pending[0]].status == Queued)
  {
    hide JobInvariant.Inv, Starts, Timers, History;
    assert s.pending[0] in s.pending;
  }

  lemma StartAdvances(cfg: Config, j: Job)
    requires j.status == Queued
    ensures Advances(j, StartJob(cfg, j), false)
    ensures var j' := SettleJob(StartJob(cfg, j), Returned, false);
      Advances(j, j', false) && Advances(j, j'.(cleanupScheduled := true), false)
  {
  }

  lemma PopAdvances(cfg: Config, s: State, k: JobId)
    requires Inv(cfg, s) && s.pending != [] && k in s.jobs
    ensures k in Pop(cfg, s).jobs && Advances(s.jobs[k], Pop(cfg, s).jobs[k], false)
  {
    hide Inv, Conclude, SettleJob, Advances, StartJob;
    HeadIsLive(cfg, s);
    SameAdvances(s.jobs[k]);
    if !StalePop(s) {
      var id := s.pending[0];
      var j' := StartJob(cfg, s.jobs[id]);
      StartAdvances(cfg, s.jobs[id]);
      var s2 := Touch(s.(pending := s.pending[1..], popped := s.popped + [id]), id, j')
                  .(worker := Busy(id, s.clock, false), started := s.started + [id]);
      ConcludeJobs(s2, id, SettleJob(j', Returned, false));
    }
  }

  lemma TaskAdvances(cfg: Config, s: State, e: Event, k: JobId)
    requires Inv(cfg, s) && IsTaskEvent(e) && Enabled(cfg, s, e) && k in s.jobs
    ensures k in Effect(cfg, s, e).jobs && Advances(s.jobs[k], Effect(cfg, s, e).jobs[k], false)
  {
    hide Inv, Advances, BeginTask, ReadLine, EndReply, GroqReply, EndTask;
    SameAdvances(s.jobs[k]);
    if k == s.worker.id {
      TaskAdvancesJob(cfg, s, e);
    }
  }

  lemma TaskAdvancesJob(cfg: Config, s: State, e: Event)
    requires Inv(cfg, s) && IsTaskEvent(e) && Enabled(cfg, s, e)
    ensures s.worker.Busy? && s.worker.id in s.jobs && s.worker.id in Effect(cfg, s, e).jobs
    ensures Advances(s.jobs[s.worker.id], Effect(cfg, s, e).jobs[s.worker.id], false)
  {
    hide Inv, JobInvariant.Inv, JobInvariant.Written, Advances, Effect;
    var j := TaskWrites(cfg, s, e);
    JobOf(cfg, s, s.worker.id);
    JobInvariant.RunningInProcess(cfg, s.jobs[s.worker.id]);
    StatusAdvances(s.jobs[s.worker.id], j);
  }

  lemma StatusAdvances(i: Job, j: Job)
    requires JobInvariant.Written(i, j) && (Running(i) ==> JobInvariant.InProcess(i))
    ensures Advances(i, j, false)
  {
  }

  lemma HandlerAdvances(cfg: Config, s: State, e: Event, k: JobId)
    requires Inv(cfg, s) && (IsUploadEvent(e) || IsStreamEvent(e)) && Enabled(cfg, s, e) && k in s.jobs
    ensures k in Effect(cfg, s, e).jobs && Advances(s.jobs[k], Effect(cfg, s, e).jobs[k], false)
  {
    hide Inv, Effect, Enabled, Advances;
    if IsUploadEvent(e) {
      UploadAdvances(cfg, s, e, k);
    } else {
      StreamAdvances(cfg, s, e, k);
    }
  }

  lemma UploadAdvances(cfg: Config, s: State, e: Event, k: JobId)
    requires Inv(cfg, s) && IsUploadEvent(e) && Enabled(cfg, s, e) && k in s.jobs
    ensures k in Effect(cfg, s, e).jobs && Advances(s.jobs[k], Effect(cfg, s, e).jobs[k], false)
  {
    hide JobInvariant.Inv, Frame, EveryJob, Cancel, PositionAndEta, FinalItems;
    if !e.Reserve? {
      JobOf(cfg, s, e.id);
      JobInvariant.RunningInProcess(cfg, s.jobs[e.id]);
      CancelAdvances(s, e.id, Leaving, k);
      CancelAdvances(s, e.id, Closed, k);
    }
  }

  lemma StreamAdvances(cfg: Config, s: State, e: Event, k: JobId)
    requires Inv(cfg, s) && IsStreamEvent(e) && Enabled(cfg, s, e) && k in s.jobs
    ensures k in Effect(cfg, s, e).jobs && Advances(s.jobs[k], Effect(cfg, s, e).jobs[k], false)
  {
    hide JobInvariant.Inv, Frame, EveryJob, Cancel, PositionAndEta, FinalItems;
    if !e.Reserve? {
      JobOf(cfg, s, e.id);
      JobInvariant.RunningInProcess(cfg, s.jobs[e.id]);
      CancelAdvances(s, e.id, Leaving, k);
      CancelAdvances(s, e.id, Closed, k);
    }
  }

  /** One step: statuses only move forward, and CANCELLED turns into FAILED exactly when the worker
      resumes from a task that did not end by cancellation: it had ended before the job was
      cancelled, or it ended by another exception after that. */
  lemma StepAdvances(cfg: Config, s: State, e: Event, k: JobId)
    requires Inv(cfg, s) && k in s.jobs
    ensures k in Step(cfg, s, e).jobs
    ensures Advances(s.jobs[k], Step(cfg, s, e).jobs[k], Relabels(s, e, k))
  {
    hide Inv, Pop, Settle, Cancel, Advances;
    SameAdvances(s.jobs[k]);
    if !Enabled(cfg, s, e) {
    } else if IsUploadEvent(e) || IsStreamEvent(e) {
      HandlerAdvances(cfg, s, e, k);
    } else if IsTaskEvent(e) {
      TaskAdvances(cfg, s, e, k);
    } else if e.WorkerPops? {
      PopAdvances(cfg, s, k);
    } else if e.WorkerResumes? {
      SettleAdvances(cfg, s, k);
    }
  }

  /** Any number of steps. */
  ghost predicate Evolves(i: Job, j: Job) {
    && j.id == i.id && j.client == i.client
    && Rank(i.status) <= Rank(j.status)
    && (i.status == Completed || i.status == Failed ==> j.status == i.status && j.error == i.error)
    && (i.status == Cancelled ==> j.status == Cancelled || j.status == Failed)
    && (i.cancelRequested ==> j.cancelRequested)
  }

  lemma {:induction false} RunEvolves(cfg: Config, s: State, schedule: seq<Event>, k: JobId)
    requires Inv(cfg, s) && k in s.jobs
    ensures var s' := Exec(cfg, s, schedule);
      Inv(cfg, s') && k in s'.jobs && Evolves(s.jobs[k], s'.jobs[k])
  {
    hide Inv;
    if schedule != [] {
      var before := schedule[..|schedule| - 1];
      var e := schedule[|schedule| - 1];
      RunEvolves(cfg, s, before, k);
      StepAdvances(cfg, Exec(cfg, s, before), e, k);
      StepKeeps(cfg, Exec(cfg, s, before), e);
    }
  }

  /** `cancel(id)` returns True in `s`: the handler's step finds a job it can still cancel. */
  predicate CancelReturnsTrue(cfg: Config, s: State, e: Event) {
    && Enabled(cfg, s, e)
    && (e.HandlerLeaves? || e.StreamDropped? || e.SpoolFailed?
        || (e.SpoolMore? && s.jobs[e.id].handler.total + e.n > cfg.maxAudioBytes)
        || (e.SpoolEnd? && !UploadAccepted(s.jobs[e.id], e.file)))
    && CanCancel(s, e.id)
  }

  /** A job for which `cancel` returned True ends up CANCELLED or FAILED, never COMPLETED, whatever
      happens afterwards. */
  lemma CancelledNeverCompletes(cfg: Config, s: State, e: Event, later: seq<Event>)
    requires Inv(cfg, s) && CancelReturnsTrue(cfg, s, e)
    ensures var s' := Step(cfg, s, e); var s'' := Exec(cfg, s', later);
      && e.id in s'.jobs && s'.jobs[e.id].status == Cancelled && s'.jobs[e.id].error == Some(JOB_CANCELLED)
      && s'.jobs[e.id].audio == None && s'.jobs[e.id].notified && e.id !in ActiveIds(s'.jobs, s'.order)
      && e.id in s''.jobs && (s''.jobs[e.id].status == Cancelled || s''.jobs[e.id].status == Failed)
  {
    hide Inv, JobInvariant.Inv, Exec, Step;
    StepKeeps(cfg, s, e);
    CancelledNow(cfg, s, e);
    RunEvolves(cfg, Step(cfg, s, e), later, e.id);
  }

  lemma CancelledNow(cfg: Config, s: State, e: Event)
    requires CancelReturnsTrue(cfg, s, e)
    ensures Stopped(s, Step(cfg, s, e), e.id)
  {
    hide Cancel, Stopped, CanCancel;
    ConcludeStops(s, e.id, Leaving);
    ConcludeStops(s, e.id, Closed);
  }

  /** What `cancel` leaves behind when it returns True. */
  ghost predicate Stopped(s: State, s': State, id: JobId) {
    && id in s.jobs && id in s'.jobs && s'.jobs[id].status == Cancelled && s'.jobs[id].error == Some(JOB_CANCELLED)
    && s'.jobs[id].cancelRequested && s'.jobs[id].audio == None && s'.jobs[id].notified
    && id !in ActiveIds(s'.jobs, s'.order)
    && s'.jobs[id].task == CancelTask(s.jobs[id].task) && s'.worker == s.worker
  }

  lemma ConcludeStops(s: State, id: JobId, handler: Handler)
    requires CanCancel(s, id)
    ensures Stopped(s, Cancel(s, id, handler), id)
  {
    hide Conclude;
    ConcludeJobs(s, id, CancelJob(s.jobs[id].(handler := handler)));
  }
}
