/** server/queue.py as it is written: objects whose fields change in place. `Abs` is the state of
    the machine they stand for, and every method is proved to take the machine's step. */
module TranscriptionQueue {
  import opened Basics
  import opened Jobs
  import opened Machine
  import Fifo
  import Positions
  import QueueInfo

  class TranscriptionJob {
    const jobId: JobId
    const client: string
    var status: Status
    var audioPath: Option<nat>
    var errorMessage: Option<string>
    var cancelRequested: bool
    var processTask: Task
    var terminalNotified: bool
    var cleanupScheduled: bool
    var chunkQueue: seq<Option<string>>
    var handler: Handler
    ghost var taken: seq<Option<string>>
    ghost var lines: seq<string>
    ghost var answer: Option<string>
    ghost var emitted: seq<Item>

    ghost function Value(): Job
      reads this
    {
      Job(jobId, client, status, audioPath, errorMessage, cancelRequested, processTask, terminalNotified,
          cleanupScheduled, chunkQueue, taken, lines, answer, handler, emitted)
    }

    constructor (jobId: JobId, client: string)
      ensures Value() == NewJob(jobId, client)
      ensures this.jobId == jobId
    {
      this.jobId, this.client := jobId, client;
      status, audioPath, errorMessage := Uploading, None, None;
      cancelRequested, processTask := false, NoTask;
      terminalNotified, cleanupScheduled := false, false;
      chunkQueue, handler := [], Parsing;
      taken, lines, answer, emitted := [], [], None, [];
    }

    /** The file goes with the path that names it; calling this twice is harmless. */
    method DiscardAudio()
      modifies this`audioPath
      ensures Value() == old(Value()).(audio := None)
    {
      if audioPath.None? {
        return;
      }
      audioPath := None;
    }

    /** `_notify_terminal`: the end-of-stream mark, at most once. */
    method NotifyTerminal()
      modifies this`terminalNotified, this`chunkQueue
      ensures Value() == Jobs.NotifyTerminal(old(Value()))
    {
      if terminalNotified {
        return;
      }
      terminalNotified := true;
      chunkQueue := chunkQueue + [None];
    }

    /** `process_task.cancel()`, unless there is no task or it has ended. */
    method CancelProcessTask()
      modifies this`processTask
      ensures Value() == old(Value()).(task := CancelTask(old(processTask)))
    {
      if processTask.Live? {
        processTask := processTask.(cancelling := true);
      }
    }

    /** The part of `cancel` that concerns the job alone. */
    method Abandon()
      modifies this
      ensures Value() == CancelJob(old(Value()))
    {
      cancelRequested := true;
      status := Cancelled;
      errorMessage := Some(JOB_CANCELLED);
      CancelProcessTask();
      DiscardAudio();
      NotifyTerminal();
    }

    method Begin(cfg: Config)
      modifies this
      ensures Value() == StartJob(cfg, old(Value()))
    {
      status := Processing;
      processTask := if cfg.backend.Unset? then NoTask else Live(false, false, false, []);
    }

    /** The worker's `try` and `except` clauses. */
    method TakeVerdict(outcome: Outcome, interrupted: bool)
      modifies this`status, this`errorMessage
      ensures Value() == old(Value()).(status := VerdictStatus(old(Value()), outcome, interrupted),
                                       error := VerdictError(old(Value()), outcome, interrupted))
    {
      if SeesCancelledError(outcome, interrupted) {
        status := Cancelled;
        errorMessage := Some(if cancelRequested then JOB_CANCELLED else QUEUE_STOPPED);
      } else if outcome.Raised? {
        status := Failed;
        errorMessage := Some(if outcome.message != "" then outcome.message else outcome.typeName);
      } else {
        status := if errorMessage.Some? then Failed else Completed;
      }
    }

    /** The verdict and what `finally` does to the job. */
    method End(outcome: Outcome, interrupted: bool)
      modifies this
      ensures Value() == SettleJob(old(Value()), outcome, interrupted)
    {
      TakeVerdict(outcome, interrupted);
      processTask := NoTask;
      DiscardAudio();
      NotifyTerminal();
    }
  }

  datatype SubmitResult = Submitted | UnknownJob | WrongState

  class TranscriptionQueue {
    const cfg: Config
    var jobs: map<JobId, TranscriptionJob>
    var order: seq<JobId>
    var pending: seq<JobId>
    var processingTimes: seq<real>
    var cleanupTasks: multiset<JobId>
    var worker: Worker
    var clock: real
    /** Every job reserved so far: handlers and the worker still refer to those that have left
        the dictionary. */
    var known: map<JobId, TranscriptionJob>
    ghost var submitted: seq<JobId>
    ghost var popped: seq<JobId>
    ghost var started: seq<JobId>
    ghost var scheduled: seq<JobId>
    ghost var finished: seq<real>

    /** `jobs` and `order` are one ordered dictionary over some of the known job objects. */
    ghost predicate Valid()
      reads this`known, this`jobs, this`order
    {
      && (forall id | id in known :: known[id].jobId == id)
      && (forall id | id in order :: id in jobs)
      && (forall id | id in jobs :: id in order && id in known && jobs[id] == known[id])
    }

    ghost function Table(): map<JobId, Job>
      reads this`known, known.Values
    {
      map id | id in known :: known[id].Value()
    }

    ghost function Abs(): State
      reads this, known.Values
    {
      State(Table(), order, pending, cleanupTasks, processingTimes, clock, worker, submitted, popped,
            started, scheduled, finished)
    }

    constructor (cfg: Config)
      ensures Valid() && Abs() == Init() && this.cfg == cfg && known == map[]
    {
      this.cfg := cfg;
      jobs, order, pending, processingTimes := map[], [], [], [];
      cleanupTasks, worker, clock := multiset{}, Off, 0.0;
      known, submitted, popped, started, scheduled, finished := map[], [], [], [], [], [];
    }

    // ----------------------------------------------------------------- reading

    /** Counts the active jobs, in dictionary order. */
    method ActiveCount() returns (n: nat)
      requires Valid() && NoDup(order)
      ensures n == |ActiveIds(Abs().jobs, order)|
    {
      hide Abs, Table, Valid, NoDup, ActiveIds;
      n := 0;
      ghost var s := Abs();
      assert ActiveIds(s.jobs, order[..0]) == {} by {
        NoneActive(s.jobs);
      }
      for k := 0 to |order|
        invariant n == |ActiveIds(s.jobs, order[..k])|
      {
        var id := order[k];
        StatusIs(id);
        ActiveGrows(s.jobs, order, k);
        if Active(jobs[id].status) {
          n := n + 1;
        }
      }
      assert order[..|order|] == order;
    }

    /** Walks the dictionary, counting QUEUED jobs, until it meets the one asked for. */
    method GetPosition(id: JobId) returns (position: Option<nat>)
      requires Valid()
      ensures position == Position(Abs(), id)
    {
      hide QueuedIn, IndexOf;
      var count := 0;
      ghost var s := Abs();
      LineEnds(s.jobs, order);
      for k := 0 to |order|
        invariant count == |QueuedIn(s.jobs, order[..k])|
        invariant id !in QueuedIn(s.jobs, order[..k])
      {
        var key := order[k];
        StatusIs(key);
        LineGrows(s.jobs, order, k);
        if jobs[key].status == Queued {
          count := count + 1;
          if key == id {
            FirstInLine(s.jobs, order, k);
            return Some(count);
          }
        }
      }
      return None;
    }

    lemma StatusIs(id: JobId)
      requires Valid() && id in order
      ensures id in jobs && id in Abs().jobs
      ensures Abs().jobs[id].status == jobs[id].status && Abs().jobs[id].client == jobs[id].client
    {
    }

    method EstimateWaitFor(position: nat) returns (eta: real)
      ensures eta == EstimateWait(processingTimes, position)
    {
      if processingTimes == [] {
        return position as real * DEFAULT_WAIT;
      }
      var sum := 0.0;
      for k := 0 to |processingTimes|
        invariant sum == Sum(processingTimes[..k])
      {
        assert processingTimes[..k + 1][..k] == processingTimes[..k];
        sum := sum + processingTimes[k];
      }
      assert processingTimes[..|processingTimes|] == processingTimes;
      eta := position as real * (sum / |processingTimes| as real);
    }

    method GetPositionAndEta(id: JobId) returns (r: Option<(nat, real)>)
      requires Valid()
      ensures r == PositionAndEta(Abs(), id)
    {
      var position := GetPosition(id);
      match position {
        case None => r := None;
        case Some(p) =>
          var eta := EstimateWaitFor(p);
          r := Some((p, eta));
      }
    }

    /** `get_queue_info`: the client's own jobs in dictionary order, and how many are QUEUED. */
    method GetQueueInfo(client: string) returns (yours: seq<QueueInfo.JobInfo>, total: nat)
      requires Valid()
      ensures yours == QueueInfo.YourJobs(Abs(), client, order)
      ensures total == |QueuedIn(Abs().jobs, order)|
    {
      hide Abs, Table, Valid, QueuedIn, PositionAndEta;
      yours, total := [], 0;
      LineEnds(Abs().jobs, order);
      for k := 0 to |order|
        invariant yours == QueueInfo.YourJobs(Abs(), client, order[..k])
        invariant total == |QueuedIn(Abs().jobs, order[..k])|
      {
        var id := order[k];
        StatusIs(id);
        LineGrows(Abs().jobs, order, k);
        QueueInfo.YourJobsAppend(Abs(), client, order[..k], id);
        assert order[..k] + [id] == order[..k + 1];
        if jobs[id].status == Queued {
          total := total + 1;
        }
        if jobs[id].client == client {
          var place := GetPositionAndEta(id);
          yours := yours + [QueueInfo.JobInfo(id, jobs[id].status, place)];
        }
      }
    }

    // ----------------------------------------------------------------- writing

    /** What a key of the dictionary stands for. */
    lemma Find(id: JobId)
      requires Valid()
      ensures Abs().order == order && (id in jobs <==> id in order)
      ensures id in jobs ==> id in known && jobs[id] == known[id] && known[id].jobId == id
      ensures id in jobs ==> id in Abs().jobs && Abs().jobs[id] == known[id].Value()
    {
    }

    /** The dictionary and the table of known jobs are as they were, and of the job objects only
        that of `id` may have changed. */
    twostate predicate OnlyJob(id: JobId)
      reads this, known.Values
    {
      && known == old(known) && jobs == old(jobs) && order == old(order)
      && id in known
      && (forall o | o in known.Values && o != known[id] :: unchanged(o))
    }

    twostate lemma TableAfter(id: JobId)
      requires old(Valid()) && OnlyJob(id)
      ensures id in old(Table()) && old(Table())[id] == old(known[id].Value())
      ensures Table() == old(Table())[id := known[id].Value()]
    {
      forall k | k in known && k != id
        ensures known[k].Value() == old(known[k].Value())
      {
        assert known[k].jobId == k && known[id].jobId == id;
        assert known[k] in known.Values;
      }
    }

    twostate lemma AbsAfter(id: JobId)
      requires old(Valid()) && OnlyJob(id)
      ensures Valid()
      ensures id in old(Abs()).jobs && old(Abs()).jobs[id] == old(known[id].Value())
      ensures Abs().jobs == old(Abs()).jobs[id := known[id].Value()]
    {
      ValidAfter(id);
      TableAfter(id);
    }

    twostate lemma ValidAfter(id: JobId)
      requires old(Valid()) && OnlyJob(id)
      ensures Valid()
    {
      hide Abs, Table;
    }

    method Reserve(job: TranscriptionJob) returns (ok: bool)
      requires Valid() && NoDup(order) && job.jobId !in known
      requires job.Value() == NewJob(job.jobId, job.client)
      modifies this
      ensures Valid()
      ensures ok == HasRoom(cfg, old(Abs()))
      ensures ok ==> known == old(known)[job.jobId := job]
      ensures ok ==> Abs() == ReserveJob(old(Abs()), job.jobId, job.client)
      ensures !ok ==> known == old(known) && Abs() == old(Abs())
    {
      hide NoDup, ActiveIds;
      var active := ActiveCount();
      if active >= cfg.maxSize {
        return false;
      }
      jobs, order := jobs[job.jobId := job], order + [job.jobId];
      known := known[job.jobId := job];
      ok := true;
      ReserveValid(job);
      ReserveAbs(job);
    }

    twostate lemma ReserveAbs(job: TranscriptionJob)
      requires job.jobId !in old(known) && unchanged(old(known.Values)) && unchanged(job)
      requires known == old(known)[job.jobId := job]
      ensures Table() == old(Table())[job.jobId := job.Value()]
    {
      forall k | k in old(known)
        ensures known[k].Value() == old(known[k].Value())
      {
        assert known[k] in old(known.Values);
      }
    }

    twostate lemma ReserveValid(job: TranscriptionJob)
      requires old(Valid()) && job.jobId !in old(known)
      requires known == old(known)[job.jobId := job] && jobs == old(jobs)[job.jobId := job]
      requires order == old(order) + [job.jobId]
      ensures Valid()
    {
      hide Abs, Table;
    }

    method SubmitJob(id: JobId) returns (r: SubmitResult)
      requires Valid()
      modifies this`pending, this`submitted, known.Values
      ensures Valid() && known == old(known)
      ensures r == if id !in old(jobs) then UnknownJob
                   else if old(jobs[id].status) != Uploading then WrongState else Submitted
      ensures Abs() ==
        if r.Submitted? then Submit(old(Abs()), id, old(Abs()).jobs[id].(status := Queued)) else old(Abs())
    {
      hide Valid, Table;
      Find(id);
      if id !in jobs {
        return UnknownJob;
      }
      var job := jobs[id];
      if job.status != Uploading {
        return WrongState;
      }
      job.status := Queued;
      pending := pending + [id];
      submitted := submitted + [id];
      AbsAfter(id);
      r := Submitted;
    }

    /** `_schedule_cleanup`: one timer for each job still in the dictionary. */
    method ScheduleCleanup(id: JobId)
      requires Valid()
      modifies this`cleanupTasks, this`scheduled, known.Values
      ensures Valid() && known == old(known)
      ensures Abs() == Machine.ScheduleCleanup(old(Abs()), id)
    {
      hide Valid, Table;
      Find(id);
      if id !in jobs {
        return;
      }
      var job := jobs[id];
      if job.cleanupScheduled {
        return;
      }
      job.cleanupScheduled := true;
      cleanupTasks := cleanupTasks + multiset{id};
      scheduled := scheduled + [id];
      AbsAfter(id);
    }

    method Cancel(id: JobId) returns (ok: bool)
      requires Valid()
      modifies this`cleanupTasks, this`scheduled, known.Values
      ensures Valid() && known == old(known)
      ensures ok == CanCancel(old(Abs()), id)
      ensures Abs() == if ok then Conclude(old(Abs()), id, CancelJob(old(Abs()).jobs[id])) else old(Abs())
    {
      hide Valid, Table, Machine.ScheduleCleanup;
      Find(id);
      if id !in jobs {
        return false;
      }
      var job := jobs[id];
      if job.status == Completed || job.status == Failed || job.status == Cancelled {
        return false;
      }
      StopJob(job);
      ScheduleCleanup(id);
      ok := true;
    }

    /** The part of `cancel` that concerns the job alone. */
    method StopJob(job: TranscriptionJob)
      requires Valid() && job.jobId in known && known[job.jobId] == job
      modifies job
      ensures Valid() && Abs() == Touch(old(Abs()), job.jobId, CancelJob(old(job.Value())))
    {
      hide Valid, Table, TranscriptionJob.Value, CancelJob;
      job.Abandon();
      AbsAfter(job.jobId);
    }

    // --------------------------------------------------------------- the worker

    method StartWorker()
      requires Valid() && worker.Off?
      modifies this`worker
      ensures Valid() && Abs() == old(Abs()).(worker := Idle)
    {
      worker := Idle;
    }

    /** The worker's loop down to the point where it awaits the task; without a process function
        the job is over at once. */
    method WorkerPops()
      requires Valid() && pending != []
      modifies this`pending, this`worker, this`popped, this`started, this`processingTimes, this`finished
      modifies this`cleanupTasks, this`scheduled, known.Values
      ensures Valid() && known == old(known)
      ensures Abs() == Pop(cfg, old(Abs()))
    {
      hide Valid, Table, Machine.Settle, StartJob;
      var id := pending[0];
      Find(id);
      pending, popped := pending[1..], popped + [id];
      if id !in jobs || jobs[id].status == Cancelled {
        return;
      }
      Launch(id);
    }

    method Launch(id: JobId)
      requires Valid() && id in known
      modifies this`worker, this`started, this`processingTimes, this`finished
      modifies this`cleanupTasks, this`scheduled, known.Values
      ensures Valid() && known == old(known)
      ensures Abs() == Launched(cfg, old(Abs()), id)
    {
      hide Valid, Table, Abs, TranscriptionJob.Value, StartJob, Machine.Settle;
      KnownAt(id);
      BeginJob(known[id]);
      MarkStarted(id);
      if cfg.backend.Unset? {
        Settle(id, clock, Returned, false);
      }
    }

    method MarkStarted(id: JobId)
      requires Valid()
      modifies this`worker, this`started
      ensures Valid() && Abs() == old(Abs()).(worker := Busy(id, clock, false), started := old(started) + [id])
    {
      started := started + [id];
      worker := Busy(id, clock, false);
    }

    method BeginJob(job: TranscriptionJob)
      requires Valid() && job.jobId in known && known[job.jobId] == job
      modifies job
      ensures Valid() && Abs() == Touch(old(Abs()), job.jobId, StartJob(cfg, old(job.Value())))
    {
      hide Valid, Table, TranscriptionJob.Value;
      job.Begin(cfg);
      AbsAfter(job.jobId);
    }

    /** The awaited task has ended, or the worker has been cancelled. */
    method WorkerResumes()
      requires Valid() && worker.Busy? && worker.id in known && known[worker.id].processTask.Done?
      modifies this`worker, this`processingTimes, this`finished, this`cleanupTasks, this`scheduled, known.Values
      ensures Valid() && known == old(known)
      ensures Abs() == Machine.Settle(old(Abs()), old(worker.id), old(worker.start),
                                      old(known[worker.id].processTask.outcome), old(worker.interrupted))
    {
      Settle(worker.id, worker.start, known[worker.id].processTask.outcome, worker.interrupted);
    }

    /** The `except` clauses and the `finally` of one worker iteration. */
    method Settle(id: JobId, start: real, outcome: Outcome, interrupted: bool)
      requires Valid() && id in known
      modifies this`worker, this`processingTimes, this`finished, this`cleanupTasks, this`scheduled, known.Values
      ensures Valid() && known == old(known)
      ensures Abs() == Machine.Settle(old(Abs()), id, start, outcome, interrupted)
    {
      hide Valid, Table, Abs, TranscriptionJob.Value;
      hide Machine.ScheduleCleanup, Ended, Machine.Settle;
      KnownAt(id);
      ghost var s := Abs();
      CloseJob(known[id], start, outcome, interrupted);
      ScheduleCleanup(id);
      ScheduleCommutes(s, id, start, outcome, interrupted);
    }

    method CloseJob(job: TranscriptionJob, start: real, outcome: Outcome, interrupted: bool)
      requires Valid() && job.jobId in known && known[job.jobId] == job
      modifies this`worker, this`processingTimes, this`finished, job
      ensures Valid() && Abs() == Ended(old(Abs()), job.jobId, start, outcome, interrupted)
    {
      hide Valid, Table, Abs, TranscriptionJob.Value;
      hide SettleJob, Record, NextWorker, SeesCancelledError;
      KnownAt(job.jobId);
      var elapsed := clock - start;
      MoveOn(job, outcome, interrupted);
      EndJob(job, outcome, interrupted);
      RecordTime(job.status, elapsed);
    }

    /** The worker ends when it was cancelled and goes on otherwise. */
    method MoveOn(job: TranscriptionJob, outcome: Outcome, interrupted: bool)
      requires Valid()
      modifies this`worker
      ensures Valid() && Abs() == old(Abs()).(worker := NextWorker(old(job.Value()), outcome, interrupted))
    {
      worker := if SeesCancelledError(outcome, interrupted) && !job.cancelRequested then Off else Idle;
    }

    /** The last twenty processing times of jobs that completed or failed. */
    method RecordTime(verdict: Status, elapsed: real)
      requires Valid()
      modifies this`processingTimes, this`finished
      ensures Valid()
      ensures Abs() == if verdict == Completed || verdict == Failed then Record(old(Abs()), elapsed) else old(Abs())
    {
      if verdict != Completed && verdict != Failed {
        return;
      }
      processingTimes := processingTimes + [elapsed];
      finished := finished + [elapsed];
      if |processingTimes| > MAX_HISTORY {
        processingTimes := processingTimes[1..];
      }
    }

    lemma KnownAt(id: JobId)
      requires Valid() && id in known
      ensures known[id].jobId == id && id in Abs().jobs && Abs().jobs[id] == known[id].Value()
      ensures Abs().jobs[id].cancelRequested == known[id].cancelRequested
      ensures Abs().clock == clock && Abs().started == started
    {
    }

    /** The verdict on a job whose task is over, with its end-of-stream mark. */
    method EndJob(job: TranscriptionJob, outcome: Outcome, interrupted: bool)
      requires Valid() && job.jobId in known && known[job.jobId] == job
      modifies job
      ensures Valid() && Abs() == Touch(old(Abs()), job.jobId, SettleJob(old(job.Value()), outcome, interrupted))
      ensures job.status == SettleJob(old(job.Value()), outcome, interrupted).status
    {
      hide Valid, Table, SettleJob;
      job.End(outcome, interrupted);
      AbsAfter(job.jobId);
    }

    /** `_cleanup_job` after its sleep. */
    method CleanupJob(id: JobId)
      requires Valid() && id in cleanupTasks
      modifies this`cleanupTasks, this`jobs, this`order, known.Values
      ensures Valid() && known == old(known)
      ensures Abs() == Expire(old(Abs()), id)
    {
      hide Valid, Table;
      Find(id);
      if id in jobs {
        ForgetJob(id);
      }
      cleanupTasks := cleanupTasks - multiset{id};
    }

    method ForgetJob(id: JobId)
      requires Valid() && id in jobs
      modifies this`jobs, this`order, known[id]
      ensures Valid()
      ensures Abs() == Touch(old(Abs()), id, old(known[id].Value()).(audio := None)).(order := Without(old(order), id))
    {
      hide Table, Valid, TranscriptionJob.Value;
      Find(id);
      var job := jobs[id];
      job.DiscardAudio();
      AbsAfter(id);
      jobs, order := jobs - {id}, Without(order, id);
      ForgottenValid(id);
    }

    twostate lemma ForgottenValid(id: JobId)
      requires old(Valid()) && known == old(known)
      requires jobs == old(jobs) - {id} && order == Without(old(order), id)
      ensures Valid()
    {
      hide Abs, Table;
    }

    /** `_worker_task.cancel()`. */
    method Stop()
      requires Valid() && (worker.Busy? ==> worker.id in known)
      modifies this`worker, known.Values
      ensures Valid() && known == old(known)
      ensures Abs() == Machine.Stop(old(Abs()))
    {
      match worker
      case Off =>
      case Idle => worker := Off;
      case Busy(id, start, _) =>
        KnownAt(id);
        if known[id].processTask.Live? {
          CancelTaskOf(known[id]);
        } else {
          worker := Busy(id, start, true);
        }
    }

    method CancelTaskOf(job: TranscriptionJob)
      requires Valid() && job.jobId in known && known[job.jobId] == job
      modifies job
      ensures Valid()
      ensures Abs() == Touch(old(Abs()), job.jobId, old(job.Value()).(task := CancelTask(old(job.processTask))))
    {
      hide Valid, Table;
      job.CancelProcessTask();
      AbsAfter(job.jobId);
    }

    method StopTimers()
      requires Valid()
      modifies this`cleanupTasks
      ensures Valid() && Abs() == old(Abs()).(timers := multiset{})
    {
      cleanupTasks := multiset{};
    }

    method Advance(delta: real)
      requires Valid()
      modifies this`clock
      ensures Valid() && Abs() == old(Abs()).(clock := old(clock) + delta)
    {
      clock := clock + delta;
    }
  }

  /** A popped job is started, and ended at once when there is nothing to run. */
  ghost function Launched(cfg: Config, s: State, id: JobId): State
    requires Has(s, id)
  {
    var s' := Touch(s, id, StartJob(cfg, s.jobs[id])).(worker := Busy(id, s.clock, false), started := s.started + [id]);
    if cfg.backend.Unset? then Machine.Settle(s', id, s.clock, Returned, false) else s'
  }

  /** The end of an iteration, short of scheduling the clean-up. */
  ghost function Ended(s: State, id: JobId, start: real, outcome: Outcome, interrupted: bool): State
    requires Has(s, id)
  {
    var j := SettleJob(s.jobs[id], outcome, interrupted);
    var s' := Touch(s, id, j).(worker := NextWorker(s.jobs[id], outcome, interrupted));
    if j.status == Completed || j.status == Failed then Record(s', s.clock - start) else s'
  }

  /** The history may be updated before the clean-up is scheduled. */
  lemma ScheduleCommutes(s: State, id: JobId, start: real, outcome: Outcome, interrupted: bool)
    requires Has(s, id)
    ensures Machine.ScheduleCleanup(Ended(s, id, start, outcome, interrupted), id)
         == Machine.Settle(s, id, start, outcome, interrupted)
  {
    hide SettleJob, NextWorker;
  }

  lemma NoneActive(jobs: map<JobId, Job>)
    ensures ActiveIds(jobs, []) == {}
  {
  }

  lemma PrefixGrows(ids: seq<JobId>, k: nat)
    requires NoDup(ids) && k < |ids|
    ensures ids[..k + 1] == ids[..k] + [ids[k]] && ids[k] !in ids[..k]
  {
  }

  lemma ActiveGrows(jobs: map<JobId, Job>, ids: seq<JobId>, k: nat)
    requires NoDup(ids) && k < |ids|
    ensures var more := ids[k] in jobs && Active(jobs[ids[k]].status);
      |ActiveIds(jobs, ids[..k + 1])| == |ActiveIds(jobs, ids[..k])| + (if more then 1 else 0)
  {
    hide NoDup, Active;
    PrefixGrows(ids, k);
    var id := ids[k];
    assert ActiveIds(jobs, ids[..k + 1])
        == ActiveIds(jobs, ids[..k]) + (if id in jobs && Active(jobs[id].status) then {id} else {});
  }

  lemma LineEnds(jobs: map<JobId, Job>, ids: seq<JobId>)
    ensures ids[..0] == [] && ids[0..] == ids && ids[..|ids|] == ids && ids[|ids|..] == []
    ensures QueuedIn(jobs, []) == []
  {
  }

  lemma LineGrows(jobs: map<JobId, Job>, ids: seq<JobId>, k: nat)
    requires k < |ids|
    ensures QueuedIn(jobs, ids[..k + 1])
         == QueuedIn(jobs, ids[..k]) + (if QueuedJob(jobs, ids[k]) then [ids[k]] else [])
  {
    assert ids[..k + 1] == ids[..k] + [ids[k]];
    Fifo.QueuedInConcat(jobs, ids[..k], [ids[k]]);
    Positions.QueuedInOne(jobs, ids[k]);
  }

  /** The first occurrence of a QUEUED key gives its place in the line. */
  lemma FirstInLine(jobs: map<JobId, Job>, ids: seq<JobId>, k: nat)
    requires k < |ids| && QueuedJob(jobs, ids[k]) && ids[k] !in QueuedIn(jobs, ids[..k])
    ensures ids[k] in QueuedIn(jobs, ids)
    ensures IndexOf(QueuedIn(jobs, ids), ids[k]) == |QueuedIn(jobs, ids[..k])|
  {
    hide QueuedIn, QueuedJob;
    assert ids == ids[..k] + [ids[k]] + ids[k + 1..];
    Positions.QueuedInThree(jobs, ids[..k], ids[k], ids[k + 1..]);
    Positions.FirstAt(QueuedIn(jobs, ids[..k]), ids[k], QueuedIn(jobs, ids[k + 1..]));
  }
}
