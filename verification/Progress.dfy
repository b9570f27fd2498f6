/** Waiting is bounded and the worker drains the queue. */
module Progress {
  import opened Basics
  import opened Jobs
  import opened Machine
  import opened Safety
  import opened Fifo
  import opened Positions
  import opened Lifecycle
  import JobInvariant
  import JsonRoundTrip
  import VllmStream
  import Transcript

  // ------------------------------------------------------------- bounded waiting

  /** One event and the jobs ahead of `k`: a job served, or cancelled ahead of it, brings it one
      place nearer; nothing pushes it back. */
  lemma RankAfter(cfg: Config, s: State, e: Event, k: JobId)
    requires Inv(cfg, s) && k in Line(s) && k in Line(Step(cfg, s, e))
    ensures var op := Observe(cfg, s, e); var r, r' := WaitRank(s, k), WaitRank(Step(cfg, s, e), k);
      && op != Serve(k) && op != Drop(k)
      && (op.Serve? ==> r' == r - 1)
      && (op.Drop? ==> op.id in Line(s) && r' == r - (if WaitRank(s, op.id) < r then 1 else 0))
      && (op.Push? || op.Stutter? ==> r' == r)
  {
    hide Inv, Step, Observe, Line;
    var op := Observe(cfg, s, e);
    var q, q' := Line(s), Line(Step(cfg, s, e));
    StepRefinesFifo(cfg, s, e);
    SameMembers(cfg, s);
    match op {
      case Push(id) => IndexInConcat(q, [id], k);
      case Serve(id) => WithoutHead(q);
      case Drop(id) => IndexAfterRemoval(q, id, k);
      case Stutter =>
    }
  }

  /** Starts and resumptions of the worker along a schedule. */
  function Starts(cfg: Config, s: State, schedule: seq<Event>): nat {
    if schedule == [] then 0
    else
      var before := schedule[..|schedule| - 1];
      Starts(cfg, s, before) + (if Observe(cfg, Exec(cfg, s, before), schedule[|schedule| - 1]).Serve? then 1 else 0)
  }

  predicate Resumes(cfg: Config, s: State, e: Event) { e.WorkerResumes? && Enabled(cfg, s, e) }

  function Resumptions(cfg: Config, s: State, schedule: seq<Event>): nat {
    if schedule == [] then 0
    else
      var before := schedule[..|schedule| - 1];
      Resumptions(cfg, s, before) + (if Resumes(cfg, Exec(cfg, s, before), schedule[|schedule| - 1]) then 1 else 0)
  }

  lemma QueuedInLine(cfg: Config, s: State, k: JobId)
    requires Inv(cfg, s)
    ensures k in Line(s) <==> QueuedJob(s.jobs, k)
  {
    hide Inv;
    KnownLine(cfg, s);
    QueuedInMembers(s.jobs, s.pending);
  }

  /** A job of rank `r` that is still QUEUED has seen at most `r` other jobs start. */
  lemma {:induction false} StartsAheadAreBounded(cfg: Config, s: State, schedule: seq<Event>, k: JobId)
    requires Inv(cfg, s) && k in Line(s) && k in Line(Exec(cfg, s, schedule))
    ensures WaitRank(Exec(cfg, s, schedule), k) + Starts(cfg, s, schedule) <= WaitRank(s, k)
  {
    hide Inv, Step, Observe, Line, WaitRank, QueuedJob;
    if schedule != [] {
      var before := schedule[..|schedule| - 1];
      var e := schedule[|schedule| - 1];
      var mid := Exec(cfg, s, before);
      QueuedInLine(cfg, s, k);
      StillQueued(cfg, s, before, e, k);
      StartsAheadAreBounded(cfg, s, before, k);
      RunEvolves(cfg, s, before, k);
      RankAfter(cfg, mid, e, k);
    }
  }

  /** A job QUEUED after a step and known before the run was QUEUED all along. */
  lemma StillQueued(cfg: Config, s: State, before: seq<Event>, e: Event, k: JobId)
    requires Inv(cfg, s) && QueuedJob(s.jobs, k)
    requires k in Line(Step(cfg, Exec(cfg, s, before), e))
    ensures Inv(cfg, Exec(cfg, s, before)) && k in Line(Exec(cfg, s, before)) && k in s.jobs
  {
    hide Inv, Step, Line;
    var mid := Exec(cfg, s, before);
    RunEvolves(cfg, s, before, k);
    StepKeeps(cfg, mid, e);
    QueuedInLine(cfg, Step(cfg, mid, e), k);
    StepAdvances(cfg, mid, e, k);
    QueuedInLine(cfg, mid, k);
  }

  function BusyCount(s: State): nat { if s.worker.Busy? then 1 else 0 }

  /** The worker resumes from a job at most once for each start, plus once for the job it had. */
  lemma {:induction false} ResumptionsFollowStarts(cfg: Config, s: State, schedule: seq<Event>)
    ensures Resumptions(cfg, s, schedule) + BusyCount(Exec(cfg, s, schedule))
         <= Starts(cfg, s, schedule) + BusyCount(s)
  {
    hide Step, Observe, Resumes;
    if schedule != [] {
      var before := schedule[..|schedule| - 1];
      ResumptionsFollowStarts(cfg, s, before);
      BusyAfter(cfg, Exec(cfg, s, before), schedule[|schedule| - 1]);
    }
  }

  lemma BusyAfter(cfg: Config, s: State, e: Event)
    ensures (if Resumes(cfg, s, e) then 1 else 0) + BusyCount(Step(cfg, s, e))
         <= (if Observe(cfg, s, e).Serve? then 1 else 0) + BusyCount(s)
  {
    hide Pop, Settle, Cancel, PositionAndEta;
    if Enabled(cfg, s, e) {
      if e.WorkerPops? {
        PopWorker(cfg, s);
      } else if e.WorkerResumes? {
        SettleWorker(s, s.worker.id, s.worker.start, Current(s).task.outcome, s.worker.interrupted);
      } else if (IsUploadEvent(e) && !e.Reserve?) || IsStreamEvent(e) {
        CancelWorker(s, e.id, Leaving);
        CancelWorker(s, e.id, Closed);
      }
    }
  }

  lemma CancelWorker(s: State, id: JobId, handler: Handler)
    requires id in s.jobs
    ensures Cancel(s, id, handler).worker == s.worker
  {
    hide Conclude, CancelJob;
    ConcludeJobs(s, id, CancelJob(s.jobs[id].(handler := handler)));
  }

  lemma SettleWorker(s: State, id: JobId, start: real, outcome: Outcome, interrupted: bool)
    requires id in s.jobs
    ensures Settle(s, id, start, outcome, interrupted).worker == NextWorker(s.jobs[id], outcome, interrupted)
  {
    hide Conclude, SettleJob, NextWorker;
  }

  lemma PopWorker(cfg: Config, s: State)
    requires s.pending != []
    ensures var s' := Pop(cfg, s);
      if StalePop(s) then s'.worker == s.worker
      else if cfg.backend.Unset? then !s'.worker.Busy?
      else s'.worker == Busy(s.pending[0], s.clock, false)
  {
    hide Settle, StartJob, Touch;
    if !StalePop(s) {
      var id := s.pending[0];
      var s2 := Touch(s.(pending := s.pending[1..], popped := s.popped + [id]), id, StartJob(cfg, s.jobs[id]))
                  .(worker := Busy(id, s.clock, false), started := s.started + [id]);
      TouchHas(s.(pending := s.pending[1..], popped := s.popped + [id]), id, StartJob(cfg, s.jobs[id]));
      SettleWorker(s2, id, s.clock, Returned, false);
    }
  }

  lemma TouchHas(s: State, id: JobId, j: Job)
    ensures id in Touch(s, id, j).jobs
  {
  }

  /** Bounded waiting: while the job is QUEUED, no more jobs have started than were ahead of it, and
      those the worker has resumed from or is busy with are among them and the one it had at first.
      After that the job has been started or cancelled. */
  lemma WaitingIsBounded(cfg: Config, s: State, schedule: seq<Event>, k: JobId)
    requires Inv(cfg, s) && QueuedJob(s.jobs, k)
    ensures k in Line(s)
    ensures QueuedJob(Exec(cfg, s, schedule).jobs, k) ==>
      && Starts(cfg, s, schedule) <= WaitRank(s, k)
      && Resumptions(cfg, s, schedule) + BusyCount(Exec(cfg, s, schedule)) <= WaitRank(s, k) + BusyCount(s)
  {
    hide Inv, Step, Line, WaitRank, QueuedJob;
    QueuedInLine(cfg, s, k);
    if QueuedJob(Exec(cfg, s, schedule).jobs, k) {
      KnownJob(cfg, s, k);
      RunEvolves(cfg, s, schedule, k);
      QueuedInLine(cfg, Exec(cfg, s, schedule), k);
      StartsAheadAreBounded(cfg, s, schedule, k);
      ResumptionsFollowStarts(cfg, s, schedule);
    }
  }

  lemma KnownJob(cfg: Config, s: State, k: JobId)
    requires QueuedJob(s.jobs, k)
    ensures k in s.jobs
  {
  }

  // ----------------------------------------------------------------------- drain

  /** Steps left for the job in hand. */
  function Phase(s: State): nat {
    if !s.worker.Busy? || s.worker.id !in s.jobs then 0
    else
      match s.jobs[s.worker.id].task
      case Live(begun, _, _, _) => if begun then 2 else 3
      case Done(_) => 1
      case NoTask => 0
  }

  /** Work left for the worker. */
  function Work(s: State): nat { 4 * |s.pending| + Phase(s) }

  predicate EndsTask(e: Event) {
    e.TaskReplyEnds? || e.TaskGroqReply? || e.TaskRaises? || e.TaskStops?
  }

  /** The events by which the worker and its task get on. */
  predicate IsProgress(e: Event) {
    e.WorkerPops? || e.WorkerResumes? || e.TaskBegins? || EndsTask(e)
  }

  lemma CancelPhase(s: State, id: JobId, handler: Handler)
    requires id in s.jobs
    ensures Phase(Cancel(s, id, handler)) == Phase(s)
  {
    hide Conclude;
    ConcludeJobs(s, id, CancelJob(s.jobs[id].(handler := handler)));
  }

  lemma PopPhase(cfg: Config, s: State)
    requires s.pending != [] && s.worker.Idle?
    ensures Phase(Pop(cfg, s)) <= 3
  {
    hide Pop;
  }

  lemma TaskWork(cfg: Config, s: State, e: Event)
    requires IsTaskEvent(e) && Enabled(cfg, s, e)
    ensures Phase(Effect(cfg, s, e)) <= Phase(s)
    ensures !e.TaskReads? ==> Phase(Effect(cfg, s, e)) < Phase(s)
  {
    hide VllmStream.DeltaOfLine, Transcript.Diagnose, Transcript.Describe,
      GroqSegment;
  }

  /** Only the pop may bring the worker a new job. */
  lemma PhaseAfter(cfg: Config, s: State, e: Event)
    requires Inv(cfg, s) && Enabled(cfg, s, e)
    ensures e.WorkerPops? ==> Phase(Effect(cfg, s, e)) <= 3
    ensures !e.WorkerPops? ==> Phase(Effect(cfg, s, e)) <= Phase(s)
    ensures e.TaskBegins? || EndsTask(e) || e.WorkerResumes? ==> Phase(Effect(cfg, s, e)) < Phase(s)
  {
    hide Inv, Effect, Enabled, Phase;
    if IsTaskEvent(e) {
      TaskWork(cfg, s, e);
    } else if IsUploadEvent(e) || IsStreamEvent(e) {
      HandlerPhase(cfg, s, e);
    } else {
      WorkerPhase(cfg, s, e);
    }
  }

  lemma WorkerPhase(cfg: Config, s: State, e: Event)
    requires Enabled(cfg, s, e) && !IsTaskEvent(e) && !IsUploadEvent(e) && !IsStreamEvent(e)
    ensures e.WorkerPops? ==> Phase(Effect(cfg, s, e)) <= 3
    ensures !e.WorkerPops? ==> Phase(Effect(cfg, s, e)) <= Phase(s)
    ensures e.WorkerResumes? ==> Phase(Effect(cfg, s, e)) < Phase(s)
  {
    hide Pop, Settle;
    if e.WorkerPops? {
      PopPhase(cfg, s);
    } else if e.WorkerResumes? {
      SettleWorker(s, s.worker.id, s.worker.start, Current(s).task.outcome, s.worker.interrupted);
    }
  }

  lemma OnlyUploadsPush(cfg: Config, s: State, e: Event)
    ensures Observe(cfg, s, e).Push? ==> e.SpoolEnd?
  {
  }

  /** No event but a submission adds work, and every step of the worker or its task uses some up. */
  lemma WorkAfter(cfg: Config, s: State, e: Event)
    requires Inv(cfg, s)
    ensures !Observe(cfg, s, e).Push? ==> Work(Step(cfg, s, e)) <= Work(s)
    ensures IsProgress(e) && Enabled(cfg, s, e) ==> Work(Step(cfg, s, e)) < Work(s)
  {
    hide Inv, Effect, Observe, Phase, Enabled;
    QueuesAfter(cfg, s, e);
    OnlyUploadsPush(cfg, s, e);
    if Enabled(cfg, s, e) {
      PhaseAfter(cfg, s, e);
    }
  }

  /** How many steps of the worker and its task a schedule really takes. */
  function StepsTaken(cfg: Config, s: State, schedule: seq<Event>): nat {
    if schedule == [] then 0
    else
      var before := schedule[..|schedule| - 1];
      var e := schedule[|schedule| - 1];
      StepsTaken(cfg, s, before) + (if IsProgress(e) && Enabled(cfg, Exec(cfg, s, before), e) then 1 else 0)
  }

  predicate NoSubmission(cfg: Config, s: State, schedule: seq<Event>) {
    forall n | 0 <= n < |schedule| :: !Observe(cfg, Exec(cfg, s, schedule[..n]), schedule[n]).Push?
  }

  /** Whatever else happens in between, the worker and its task take at most `Work(s)` steps before
      there is nothing left for them, unless a job is submitted. */
  lemma {:induction false} EveryScheduleDrains(cfg: Config, s: State, schedule: seq<Event>)
    requires Inv(cfg, s) && NoSubmission(cfg, s, schedule)
    ensures StepsTaken(cfg, s, schedule) + Work(Exec(cfg, s, schedule)) <= Work(s)
    ensures StepsTaken(cfg, s, schedule) == Work(s) ==> Exec(cfg, s, schedule).pending == []
    ensures Inv(cfg, Exec(cfg, s, schedule))
  {
    hide Inv, Step, Observe, Phase, Enabled;
    if schedule != [] {
      var before := schedule[..|schedule| - 1];
      var e := schedule[|schedule| - 1];
      forall n | 0 <= n < |before|
        ensures before[..n] == schedule[..n]
      {
      }
      EveryScheduleDrains(cfg, s, before);
      WorkAfter(cfg, Exec(cfg, s, before), e);
      StepKeeps(cfg, Exec(cfg, s, before), e);
    }
  }

  lemma HandlerPhase(cfg: Config, s: State, e: Event)
    requires Inv(cfg, s) && (IsUploadEvent(e) || IsStreamEvent(e)) && Enabled(cfg, s, e)
    ensures Phase(Effect(cfg, s, e)) == Phase(s)
  {
    hide Inv, Effect, Enabled, Phase;
    if IsUploadEvent(e) {
      UploadPhase(cfg, s, e);
    } else {
      StreamPhase(cfg, s, e);
    }
  }

  lemma UploadPhase(cfg: Config, s: State, e: Event)
    requires Inv(cfg, s) && IsUploadEvent(e) && Enabled(cfg, s, e)
    ensures Phase(Effect(cfg, s, e)) == Phase(s)
  {
    hide JobInvariant.Inv, Frame, EveryJob, Cancel, PositionAndEta, OpeningItem, FinalItems;
    if e.Reserve? {
      if s.worker.Busy? {
        WorkerJob(cfg, s);
      }
    } else {
      CancelPhase(s, e.id, Leaving);
      CancelPhase(s, e.id, Closed);
    }
  }

  lemma StreamPhase(cfg: Config, s: State, e: Event)
    requires Inv(cfg, s) && IsStreamEvent(e) && Enabled(cfg, s, e)
    ensures Phase(Effect(cfg, s, e)) == Phase(s)
  {
    hide JobInvariant.Inv, Frame, EveryJob, Cancel, PositionAndEta, OpeningItem, FinalItems;
    if e.Reserve? {
      if s.worker.Busy? {
        WorkerJob(cfg, s);
      }
    } else {
      CancelPhase(s, e.id, Leaving);
      CancelPhase(s, e.id, Closed);
    }
  }

  /** The worker was told to stop and has yet to find out. */
  predicate Stopping(s: State) {
    && s.worker.Busy? && s.worker.id in s.jobs
    && (s.worker.interrupted
        || (var j := s.jobs[s.worker.id];
            !j.cancelRequested && ((j.task.Live? && j.task.cancelling) || j.task == Done(TaskCancelled))))
  }

  /** A step that the worker or its task can take now. */
  function NextStep(cfg: Config, s: State): Event {
    if s.worker.Busy? && s.worker.id in s.jobs then
      match s.jobs[s.worker.id].task
      case Live(begun, cancelling, _, _) =>
        if cancelling then TaskStops
        else if !begun then TaskBegins
        else if cfg.backend.Vibevoice? then TaskReplyEnds
        else if cfg.backend.Groq? then TaskGroqReply("", "0")
        else TaskRaises("", "RuntimeError")
      case _ => WorkerResumes
    else WorkerPops
  }

  /** While there is work and the worker is on, it can move. */
  lemma NeverStuck(cfg: Config, s: State)
    requires Inv(cfg, s) && !s.worker.Off? && Work(s) > 0
    ensures IsProgress(NextStep(cfg, s)) && Enabled(cfg, s, NextStep(cfg, s))
  {
    hide JobInvariant.Inv, Books;
    JsonRoundTrip.ZeroIsNumeral();
  }

  lemma NextKeepsOn(cfg: Config, s: State)
    requires Inv(cfg, s) && !s.worker.Off? && Work(s) > 0 && !Stopping(s)
    ensures var s' := Step(cfg, s, NextStep(cfg, s)); !s'.worker.Off? && !Stopping(s')
  {
    hide JobInvariant.Inv, Books, Effect;
    NeverStuck(cfg, s);
    var e := NextStep(cfg, s);
    if e.WorkerPops? {
      PopKeepsOn(cfg, s);
    } else if e.WorkerResumes? {
      ResumeKeepsOn(cfg, s);
    } else {
      TaskKeepsOn(cfg, s, e);
    }
  }

  lemma PopKeepsOn(cfg: Config, s: State)
    requires s.pending != [] && s.worker.Idle?
    ensures var s' := Effect(cfg, s, WorkerPops); !s'.worker.Off? && !Stopping(s')
  {
    hide Pop;
    PopNotStopping(cfg, s);
  }

  lemma ResumeKeepsOn(cfg: Config, s: State)
    requires Enabled(cfg, s, WorkerResumes) && !Stopping(s)
    ensures var s' := Effect(cfg, s, WorkerResumes); s'.worker.Idle?
  {
    hide Settle;
    SettleWorker(s, s.worker.id, s.worker.start, Current(s).task.outcome, s.worker.interrupted);
  }

  lemma TaskKeepsOn(cfg: Config, s: State, e: Event)
    requires IsTaskEvent(e) && Enabled(cfg, s, e) && !Stopping(s)
    ensures var s' := Effect(cfg, s, e); !s'.worker.Off? && !Stopping(s')
  {
    hide VllmStream.DeltaOfLine, Transcript.Diagnose, Transcript.Describe,
      GroqSegment;
  }

  lemma PopNotStopping(cfg: Config, s: State)
    requires s.pending != [] && s.worker.Idle?
    ensures !Stopping(Pop(cfg, s)) && !Pop(cfg, s).worker.Off?
  {
    hide Conclude, SettleJob;
  }

  /** Without `stop` the worker empties `_pending`: from every reachable state there is a schedule
      of its own steps, one unit of work each at least, after which nothing is pending and every
      job that was waiting or in hand has reached a terminal status. */
  lemma {:induction false} Drains(cfg: Config, s: State) returns (schedule: seq<Event>)
    requires Inv(cfg, s) && !s.worker.Off? && !Stopping(s)
    ensures |schedule| <= Work(s) && forall e | e in schedule :: IsProgress(e)
    ensures var s' := Exec(cfg, s, schedule);
      && s'.pending == [] && s'.worker.Idle?
      && forall k | k in s.jobs && s.jobs[k].status != Uploading :: k in s'.jobs && Terminal(s'.jobs[k].status)
    decreases Work(s)
  {
    hide Inv, Step, Stopping, NextStep, Enabled;
    if Work(s) == 0 {
      schedule := [];
      NothingLeft(cfg, s);
    } else {
      var e := NextStep(cfg, s);
      NeverStuck(cfg, s);
      NextKeepsOn(cfg, s);
      WorkAfter(cfg, s, e);
      StepKeeps(cfg, s, e);
      var rest := Drains(cfg, Step(cfg, s, e));
      schedule := [e] + rest;
      ExecCons(cfg, s, e, rest);
      forall k | k in s.jobs && s.jobs[k].status != Uploading
        ensures k in Step(cfg, s, e).jobs && Step(cfg, s, e).jobs[k].status != Uploading
      {
        StepAdvances(cfg, s, e, k);
      }
    }
  }

  lemma {:induction false} ExecCons(cfg: Config, s: State, e: Event, rest: seq<Event>)
    ensures Exec(cfg, s, [e] + rest) == Exec(cfg, Step(cfg, s, e), rest)
  {
    hide Step;
    if rest == [] {
      assert [e] + rest == [e] && ([e])[..0] == [];
    } else {
      var n := |rest| - 1;
      assert [e] + rest == ([e] + rest[..n]) + [rest[n]];
      ExecAppend(cfg, s, [e] + rest[..n], rest[n]);
      ExecCons(cfg, s, e, rest[..n]);
    }
  }

  lemma NothingLeft(cfg: Config, s: State)
    requires Inv(cfg, s) && !s.worker.Off? && Work(s) == 0
    ensures s.pending == [] && s.worker.Idle?
    ensures forall k | k in s.jobs && s.jobs[k].status != Uploading :: Terminal(s.jobs[k].status)
  {
    hide JobInvariant.Inv;
    forall k | k in s.jobs && s.jobs[k].status != Uploading
      ensures Terminal(s.jobs[k].status)
    {
      assert PlacedJob(s, k, s.jobs[k]);
    }
  }
}
