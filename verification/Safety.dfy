/** Whole-run safety of the job protocol: an invariant of the machine that holds after every
    schedule of events. */
module Safety {
  import opened Basics
  import opened Jobs
  import opened Machine
  import JobInvariant
  import VllmStream
  import Transcript

  ghost predicate Inv(cfg: Config, s: State) {
    && EveryJob(cfg, s)
    && Frame(cfg, s)
  }

  /** All of the invariant that concerns where jobs are, not what is in them. */
  ghost predicate Frame(cfg: Config, s: State) {
    && Books(cfg, s)
    && WorkerInv(s)
  }

  ghost predicate Books(cfg: Config, s: State) {
    && Placed(s)
    && Queue(s)
    && Starts(s)
    && Timers(s)
    && History(s)
    && |ActiveIds(s.jobs, s.order)| <= cfg.maxSize
  }

  ghost predicate EveryJob(cfg: Config, s: State) {
    forall id | id in s.jobs :: JobInvariant.Inv(cfg, s.jobs[id]) && s.jobs[id].id == id
  }

  /** Where a job may be, given its status. */
  ghost predicate PlacedJob(s: State, id: JobId, j: Job) {
    && (id !in s.order ==> Terminal(j.status))
    && (j.cleanupScheduled <==> Terminal(j.status))
    && (j.cleanupScheduled <==> id in s.scheduled)
    && (j.status == Queued ==> id in s.pending)
    && (j.status == Uploading ==> id !in s.submitted)
    && (j.handler.Armed? || j.handler.Sending? ==> id in s.submitted)
    && (JobInvariant.InProcess(j) || !j.task.NoTask? ==> s.worker.Busy? && s.worker.id == id)
    && (JobInvariant.InProcess(j) || j.status == Completed || j.status == Failed ==> id in s.started)
    && (id in s.started ==> j.status != Queued && j.status != Uploading)
  }

  ghost predicate Placed(s: State) {
    && NoDup(s.order)
    && (forall id | id in s.order :: id in s.jobs)
    && (forall id {:trigger PlacedJob(s, id, s.jobs[id])} | id in s.jobs :: PlacedJob(s, id, s.jobs[id]))
  }

  /** The submission log is what was popped followed by what is pending; a pending id stands for a
      QUEUED job or for a job cancelled in the meantime. */
  ghost predicate Queue(s: State) {
    && NoDup(s.submitted)
    && s.submitted == s.popped + s.pending
    && (forall id | id in s.submitted :: id in s.jobs)
    && (forall id | id in s.pending :: id in s.jobs && (s.jobs[id].status == Queued || s.jobs[id].status == Cancelled))
  }

  ghost function Members(ids: seq<JobId>): set<JobId> { set id | id in ids }

  /** Jobs are started in submission order, none twice. */
  ghost predicate Starts(s: State) {
    && s.started == Restrict(s.popped, Members(s.started))
    && (forall id | id in s.started :: id in s.popped)
  }

  ghost predicate WorkerInv(s: State) {
    s.worker.Busy? ==>
      && s.worker.id in s.jobs
      && !s.jobs[s.worker.id].task.NoTask?
      && s.worker.id in s.started
      && s.worker.start <= s.clock
  }

  /** One clean-up timer is ever created for a job, and an unexpired one finds its job. */
  ghost predicate Timers(s: State) {
    && NoDup(s.scheduled)
    && (forall id | id in s.scheduled :: id in s.jobs)
    && (forall id :: s.timers[id] <= 1)
    && (forall id | id in s.timers :: id in s.order && id in s.scheduled)
  }

  ghost function Recent(xs: seq<real>): seq<real> {
    if |xs| <= MAX_HISTORY then xs else xs[|xs| - MAX_HISTORY..]
  }

  ghost predicate History(s: State) {
    && s.times == Recent(s.finished)
    && (forall k | 0 <= k < |s.finished| :: s.finished[k] >= 0.0)
  }

  // ------------------------------------- one clause at a time, one job at a time

  /** `s'` differs from `s` in job `id` only, as far as `Placed` can see. */
  ghost predicate OthersStay(s: State, s': State, id: JobId) {
    forall k | k in s'.jobs && k != id ::
      && k in s.jobs && s'.jobs[k] == s.jobs[k]
      && (k in s'.order <==> k in s.order)
      && (k in s'.scheduled <==> k in s.scheduled)
      && (k in s'.pending <==> k in s.pending)
      && (k in s'.submitted <==> k in s.submitted)
      && (k in s'.started <==> k in s.started)
      && (s.worker.Busy? && s.worker.id == k ==> s'.worker.Busy? && s'.worker.id == k)
  }

  lemma PlacedKeeps(s: State, s': State, id: JobId)
    requires Placed(s) && OthersStay(s, s', id)
    requires NoDup(s'.order) && (forall k | k in s'.order :: k in s'.jobs)
    requires id in s'.jobs ==> PlacedJob(s', id, s'.jobs[id])
    ensures Placed(s')
  {
    forall k | k in s'.jobs
      ensures PlacedJob(s', k, s'.jobs[k])
    {
      if k != id {
        assert PlacedJob(s, k, s.jobs[k]);
      }
    }
  }

  lemma QueueKeeps(s: State, s': State, id: JobId, j: Job)
    requires Queue(s) && s'.jobs == s.jobs[id := j]
    requires s'.submitted == s.submitted && s'.popped == s.popped && s'.pending == s.pending
    requires id in s.pending ==> j.status == Queued || j.status == Cancelled
    ensures Queue(s')
  {
  }

  lemma TimersKeep(s: State, s': State)
    requires Timers(s) && s'.timers == s.timers && s'.scheduled == s.scheduled
    requires s.jobs.Keys <= s'.jobs.Keys && forall k | k in s.order :: k in s'.order
    ensures Timers(s')
  {
  }

  lemma ActiveSame(s: State, id: JobId, j: Job)
    requires id in s.jobs && (Active(j.status) <==> Active(s.jobs[id].status))
    ensures ActiveIds(s.jobs[id := j], s.order) == ActiveIds(s.jobs, s.order)
  {
  }

  lemma ActiveFewer(s: State, id: JobId, j: Job)
    requires Terminal(j.status)
    ensures ActiveIds(s.jobs[id := j], s.order) == ActiveIds(s.jobs, s.order) - {id}
    ensures |ActiveIds(s.jobs[id := j], s.order)| <= |ActiveIds(s.jobs, s.order)|
  {
    var a := ActiveIds(s.jobs, s.order);
    assert ActiveIds(s.jobs[id := j], s.order) == a - {id};
    if id !in a {
      assert a - {id} == a;
    }
  }

  lemma ActiveMore(s: State, id: JobId, j: Job)
    requires id !in s.jobs && Active(j.status)
    ensures ActiveIds(s.jobs[id := j], s.order + [id]) == ActiveIds(s.jobs, s.order) + {id}
  {
  }

  // ---------------------------------------------------------------- the operations

  /** `j` may replace `i` without touching queues, worker or timers. */
  ghost predicate Alike(i: Job, j: Job) {
    && j.id == i.id
    && j.cleanupScheduled == i.cleanupScheduled
    && (j.status == i.status || (JobInvariant.InProcess(i) && JobInvariant.InProcess(j)))
    && (j.task.NoTask? <==> i.task.NoTask?)
    && (j.handler.Armed? || j.handler.Sending? ==> i.handler.Armed? || i.handler.Sending?)
  }

  lemma EveryJobKeeps(cfg: Config, s: State, s': State, id: JobId, j: Job)
    requires EveryJob(cfg, s) && s'.jobs == s.jobs[id := j] && JobInvariant.Inv(cfg, j) && j.id == id
    ensures EveryJob(cfg, s')
  {
  }

  lemma TouchKeeps(cfg: Config, s: State, id: JobId, j: Job)
    requires Frame(cfg, s) && id in s.jobs && Alike(s.jobs[id], j)
    ensures Frame(cfg, Touch(s, id, j))
  {
    var s' := Touch(s, id, j);
    assert PlacedJob(s, id, s.jobs[id]);
    PlacedKeeps(s, s', id);
    QueueKeeps(s, s', id, j);
    TimersKeep(s, s');
    ActiveSame(s, id, j);
  }

  lemma UnknownId(cfg: Config, s: State, id: JobId)
    requires Frame(cfg, s) && id !in s.jobs
    ensures id !in s.order && id !in s.pending && id !in s.submitted && id !in s.started && id !in s.scheduled
  {
    assert forall k | k in s.started :: k in s.submitted;
  }

  lemma ReservePlaced(s: State, id: JobId, client: string)
    requires Placed(s) && id !in s.jobs
    requires id !in s.order && id !in s.submitted && id !in s.started && id !in s.scheduled
    ensures Placed(ReserveJob(s, id, client))
  {
    PlacedKeeps(s, ReserveJob(s, id, client), id);
  }

  lemma ReserveKeeps(cfg: Config, s: State, id: JobId, client: string)
    requires Frame(cfg, s) && id !in s.jobs && HasRoom(cfg, s)
    ensures Frame(cfg, ReserveJob(s, id, client))
  {
    var s' := ReserveJob(s, id, client);
    UnknownId(cfg, s, id);
    ReservePlaced(s, id, client);
    QueueKeeps(s, s', id, NewJob(id, client));
    TimersKeep(s, s');
    ActiveMore(s, id, NewJob(id, client));
  }

  lemma SubmitQueue(s: State, id: JobId, j: Job)
    requires Queue(s) && id !in s.submitted && j.status == Queued
    ensures Queue(Submit(s, id, j))
  {
    var s' := Submit(s, id, j);
    assert s'.submitted == s'.popped + s'.pending;
  }

  lemma SubmitKeeps(cfg: Config, s: State, id: JobId)
    requires Frame(cfg, s) && id in s.jobs && s.jobs[id].handler.Spooling? && s.jobs[id].status == Uploading
    requires s.jobs[id].task.NoTask? && id !in s.started
    ensures Frame(cfg, Submit(s, id, AcceptUpload(s.jobs[id])))
  {
    var j := AcceptUpload(s.jobs[id]);
    var s' := Submit(s, id, j);
    assert PlacedJob(s, id, s.jobs[id]);
    PlacedKeeps(s, s', id);
    SubmitQueue(s, id, j);
    TimersKeep(s, s');
    ActiveSame(s, id, j);
  }

  /** A job takes a terminal status: its clean-up is scheduled unless it already was. */
  lemma ConcludePlaced(s: State, id: JobId, j: Job, w: Worker)
    requires Placed(s) && id in s.jobs && Terminal(j.status)
    requires j.cleanupScheduled == s.jobs[id].cleanupScheduled
    requires !j.task.NoTask? ==> w.Busy? && w.id == id
    requires w == s.worker || (s.worker.Busy? && s.worker.id == id)
    requires j.status != Cancelled ==> id in s.started
    requires j.handler.Armed? || j.handler.Sending? ==> id in s.submitted
    ensures Placed(Conclude(s, id, j).(worker := w))
    ensures Conclude(s, id, j).jobs == s.jobs[id := j.(cleanupScheduled := true)]
    ensures !j.cleanupScheduled ==> id in s.order && id !in s.scheduled
  {
    assert PlacedJob(s, id, s.jobs[id]);
    PlacedKeeps(s, Conclude(s, id, j).(worker := w), id);
  }

  lemma ConcludeTimers(s: State, id: JobId, j: Job)
    requires Timers(s) && id in s.jobs
    requires !j.cleanupScheduled ==> id in s.order && id !in s.scheduled
    ensures Timers(Conclude(s, id, j))
  {
    if !j.cleanupScheduled {
      assert id !in s.timers;
    }
  }

  lemma ConcludeKeeps(cfg: Config, s: State, id: JobId, j: Job, w: Worker)
    requires Books(cfg, s) && id in s.jobs && Terminal(j.status)
    requires j.cleanupScheduled == s.jobs[id].cleanupScheduled
    requires !j.task.NoTask? ==> w.Busy? && w.id == id
    requires w == s.worker || (s.worker.Busy? && s.worker.id == id)
    requires j.status != Cancelled ==> id in s.started
    requires j.handler.Armed? || j.handler.Sending? ==> id in s.submitted
    requires id in s.pending ==> j.status == Cancelled
    ensures Books(cfg, Conclude(s, id, j).(worker := w))
    ensures Conclude(s, id, j).jobs == s.jobs[id := j.(cleanupScheduled := true)]
  {
    hide Placed, PlacedJob, Conclude, ActiveIds;
    ConcludeJobs(s, id, j);
    ConcludePlaced(s, id, j, w);
    QueueKeeps(s, Conclude(s, id, j), id, j.(cleanupScheduled := true));
    ConcludeTimers(s, id, j);
    ActiveFewer(s, id, j.(cleanupScheduled := true));
  }

  /** `cancel` takes a job out of the active set. */
  lemma CancelKeeps(cfg: Config, s: State, id: JobId, j: Job)
    requires Frame(cfg, s) && id in s.jobs && j.status == Cancelled
    requires j.cleanupScheduled == s.jobs[id].cleanupScheduled
    requires j.task.NoTask? <==> s.jobs[id].task.NoTask?
    requires j.handler.Armed? || j.handler.Sending? ==> id in s.submitted
    ensures Frame(cfg, Conclude(s, id, j))
    ensures Conclude(s, id, j).jobs == s.jobs[id := j.(cleanupScheduled := true)]
  {
    hide Queue, Timers, ActiveIds, NoDup, Starts, History;
    assert PlacedJob(s, id, s.jobs[id]);
    ConcludeKeeps(cfg, s, id, j, s.worker);
    assert Conclude(s, id, j).(worker := s.worker) == Conclude(s, id, j);
  }

  lemma KeepRecent(xs: seq<real>, x: real)
    ensures Keep(Recent(xs), x) == Recent(xs + [x])
  {
  }

  lemma RecordKeeps(cfg: Config, s: State, elapsed: real)
    requires Frame(cfg, s) && elapsed >= 0.0
    ensures Frame(cfg, Record(s, elapsed))
  {
    KeepRecent(s.finished, elapsed);
    OnlyHistoryMoves(s, Record(s, elapsed));
  }

  lemma OnlyHistoryMoves(s: State, s': State)
    requires Placed(s) && s' == s.(times := s'.times, finished := s'.finished)
    ensures Placed(s')
  {
    forall k | k in s'.jobs
      ensures PlacedJob(s', k, s'.jobs[k])
    {
      assert PlacedJob(s, k, s.jobs[k]);
    }
  }

  lemma SettledJob(j: Job, outcome: Outcome, interrupted: bool)
    ensures var j' := SettleJob(j, outcome, interrupted);
      && j'.id == j.id && Terminal(j'.status) && j'.task.NoTask?
      && j'.cleanupScheduled == j.cleanupScheduled && j'.handler == j.handler
  {
  }

  lemma SettledKeeps(cfg: Config, s: State, id: JobId, j: Job, w: Worker, elapsed: real)
    requires Books(cfg, s) && id in s.jobs && s.worker.Busy? && s.worker.id == id && !w.Busy?
    requires Terminal(j.status) && j.task.NoTask? && elapsed >= 0.0
    requires j.cleanupScheduled == s.jobs[id].cleanupScheduled && j.handler == s.jobs[id].handler
    requires id in s.started && id !in s.pending
    ensures Frame(cfg, Settled(s, id, j, w, elapsed))
    ensures Settled(s, id, j, w, elapsed).jobs == s.jobs[id := j.(cleanupScheduled := true)]
  {
    assert PlacedJob(s, id, s.jobs[id]);
    ConcludeKeeps(cfg, s, id, j, w);
    RecordKeeps(cfg, Conclude(s, id, j).(worker := w), elapsed);
  }

  lemma SettleKeeps(cfg: Config, s: State, id: JobId, start: real, outcome: Outcome, interrupted: bool)
    requires Books(cfg, s) && id in s.jobs && s.worker.Busy? && s.worker.id == id && start <= s.clock
    requires id in s.started && id !in s.pending
    ensures Frame(cfg, Settle(s, id, start, outcome, interrupted))
    ensures Settle(s, id, start, outcome, interrupted).jobs
         == s.jobs[id := SettleJob(s.jobs[id], outcome, interrupted).(cleanupScheduled := true)]
  {
    hide Books, Frame, SettleJob;
    SettledJob(s.jobs[id], outcome, interrupted);
    SettledKeeps(cfg, s, id, SettleJob(s.jobs[id], outcome, interrupted),
                 NextWorker(s.jobs[id], outcome, interrupted), s.clock - start);
  }

  lemma PopQueue(s: State)
    requires Queue(s) && s.pending != []
    ensures s.submitted == (s.popped + [s.pending[0]]) + s.pending[1..]
    ensures s.pending[0] !in s.popped && s.pending[0] !in s.pending[1..]
    ensures s.pending[0] in s.jobs
    ensures forall k | k in s.pending && k != s.pending[0] :: k in s.pending[1..]
  {
    var n := |s.popped|;
    assert s.submitted[n] == s.pending[0];
    assert forall k | 0 <= k < n :: s.submitted[k] == s.popped[k];
    assert forall k | 0 <= k < |s.pending| :: s.submitted[n + k] == s.pending[k];
  }

  /** Dropping a stale id changes the queue only. */
  lemma PopStaleKeeps(cfg: Config, s: State)
    requires Frame(cfg, s) && s.pending != [] && StalePop(s)
    ensures Frame(cfg, s.(pending := s.pending[1..], popped := s.popped + [s.pending[0]]))
  {
    var id := s.pending[0];
    var s' := s.(pending := s.pending[1..], popped := s.popped + [id]);
    PopQueue(s);
    assert PlacedJob(s, id, s.jobs[id]);
    PlacedKeeps(s, s', id);
    PopStarts(s, false);
  }

  lemma PopStarts(s: State, starts: bool)
    requires Starts(s) && s.pending != [] && s.pending[0] !in s.popped
    ensures var id := s.pending[0];
      Starts(s.(pending := s.pending[1..], popped := s.popped + [id],
                started := if starts then s.started + [id] else s.started))
  {
    var id := s.pending[0];
    var keep := Members(s.started);
    if starts {
      RestrictAppend(s.popped, id, keep + {id});
      RestrictWiden(s.popped, keep, id);
      assert Members(s.started + [id]) == keep + {id};
    } else {
      RestrictAppend(s.popped, id, keep);
    }
  }

  /** The popped job leaves the line and becomes the worker's. */
  lemma PopStartKeeps(cfg: Config, s: State, j: Job)
    requires Frame(cfg, s) && s.pending != [] && !StalePop(s) && s.worker.Idle?
    requires j == StartJob(cfg, s.jobs[s.pending[0]])
    ensures var id := s.pending[0];
      Books(cfg, Touch(s, id, j).(pending := s.pending[1..], popped := s.popped + [id],
                                  worker := Busy(id, s.clock, false), started := s.started + [id]))
    ensures s.pending[0] !in s.pending[1..] && s.jobs[s.pending[0]].status == Queued
  {
    var id := s.pending[0];
    var s' := Touch(s, id, j).(pending := s.pending[1..], popped := s.popped + [id],
                               worker := Busy(id, s.clock, false), started := s.started + [id]);
    PopQueue(s);
    assert PlacedJob(s, id, s.jobs[id]);
    PlacedKeeps(s, s', id);
    PopStarts(s, true);
    ActiveSame(s, id, j);
  }

  lemma ExpirePlaced(s: State, id: JobId)
    requires Placed(s) && id in s.order && id in s.scheduled
    ensures Placed(Expire(s, id)) && Terminal(s.jobs[id].status)
  {
    assert PlacedJob(s, id, s.jobs[id]);
    WithoutNoDup(s.order, id);
    PlacedKeeps(s, Expire(s, id), id);
  }

  lemma ExpireTimers(s: State, id: JobId)
    requires Timers(s) && id in s.timers && id in s.jobs
    ensures Timers(Expire(s, id))
  {
  }

  lemma ActiveWithout(s: State, id: JobId)
    requires id in s.jobs && Terminal(s.jobs[id].status)
    ensures ActiveIds(s.jobs[id := s.jobs[id].(audio := None)], Without(s.order, id)) == ActiveIds(s.jobs, s.order)
  {
  }

  lemma ExpireKeeps(cfg: Config, s: State, id: JobId)
    requires Frame(cfg, s) && id in s.timers
    ensures Frame(cfg, Expire(s, id))
  {
    var s' := Expire(s, id);
    ExpirePlaced(s, id);
    QueueKeeps(s, s', id, s.jobs[id].(audio := None));
    ExpireTimers(s, id);
    ActiveWithout(s, id);
  }

  /** The clock, the flag of a cancelled worker, an idle worker's end and new start, and the
      removal of all timers disturb nothing else. */
  lemma QuietKeeps(cfg: Config, s: State, s': State)
    requires Frame(cfg, s)
    requires s' == s.(clock := s'.clock, worker := s'.worker, timers := s'.timers)
    requires s'.clock >= s.clock && (s'.timers == s.timers || s'.timers == multiset{})
    requires s'.worker.Busy? <==> s.worker.Busy?
    requires s.worker.Busy? ==> s'.worker.id == s.worker.id && s'.worker.start == s.worker.start
    ensures Frame(cfg, s')
  {
    forall k | k in s'.jobs
      ensures PlacedJob(s', k, s'.jobs[k])
    {
      assert PlacedJob(s, k, s.jobs[k]);
    }
  }

  // ------------------------------------------------------------------- every event

  lemma JobOf(cfg: Config, s: State, id: JobId)
    requires Inv(cfg, s) && id in s.jobs
    ensures JobInvariant.Inv(cfg, s.jobs[id]) && s.jobs[id].id == id
    ensures PlacedJob(s, id, s.jobs[id])
  {
    hide JobInvariant.Inv;
  }

  lemma TouchStep(cfg: Config, s: State, id: JobId, j: Job)
    requires Inv(cfg, s) && id in s.jobs && Alike(s.jobs[id], j) && JobInvariant.Inv(cfg, j)
    ensures Inv(cfg, Touch(s, id, j))
  {
    hide JobInvariant.Inv, Frame;
    JobOf(cfg, s, id);
    TouchKeeps(cfg, s, id, j);
    EveryJobKeeps(cfg, s, Touch(s, id, j), id, j);
  }

  lemma CancelStep(cfg: Config, s: State, id: JobId, handler: Handler)
    requires Inv(cfg, s) && id in s.jobs
    requires var h := s.jobs[id].handler;
      (h.Spooling? && handler.Leaving?) || ((h.Leaving? || h.Sending?) && handler.Closed?)
    ensures Inv(cfg, Cancel(s, id, handler))
  {
    hide JobInvariant.Inv, Frame, EveryJob;
    var j := s.jobs[id].(handler := handler);
    JobOf(cfg, s, id);
    JobInvariant.RunningInProcess(cfg, s.jobs[id]);
    if Active(s.jobs[id].status) {
      JobInvariant.HandlerCancelKeeps(cfg, s.jobs[id], handler);
      CancelKeeps(cfg, s, id, CancelJob(j));
      JobInvariant.FlagKeeps(cfg, CancelJob(j));
      EveryJobKeeps(cfg, s, Cancel(s, id, handler), id, CancelJob(j).(cleanupScheduled := true));
    } else {
      JobInvariant.HandlerLeavesKeeps(cfg, s.jobs[id]);
      TouchStep(cfg, s, id, j);
    }
  }

  predicate IsUploadEvent(e: Event) {
    e.Reserve? || e.FormAccepted? || e.UploadAborted? || e.SpoolMore? || e.SpoolFailed? || e.SpoolEnd?
  }

  predicate IsTaskEvent(e: Event) {
    e.TaskBegins? || e.TaskReads? || e.TaskReplyEnds? || e.TaskGroqReply? || e.TaskRaises? || e.TaskStops?
  }

  predicate IsStreamEvent(e: Event) {
    e.HandlerLeaves? || e.StreamOpens? || e.StreamTakes? || e.StreamIdles? || e.StreamDropped?
  }

  lemma UploadStep(cfg: Config, s: State, e: Event)
    requires Inv(cfg, s) && IsUploadEvent(e) && Enabled(cfg, s, e)
    ensures Inv(cfg, Effect(cfg, s, e))
  {
    hide JobInvariant.Inv, Frame, EveryJob;
    if e.Reserve? {
      ReserveKeeps(cfg, s, e.id, e.client);
      JobInvariant.NewJobKeeps(cfg, e.id, e.client);
      EveryJobKeeps(cfg, s, ReserveJob(s, e.id, e.client), e.id, NewJob(e.id, e.client));
      return;
    }
    var j := s.jobs[e.id];
    JobOf(cfg, s, e.id);
    JobInvariant.RunningInProcess(cfg, j);
    match e {
      case FormAccepted(id) =>
        JobInvariant.UploadMoves(cfg, j, Spooling(0));
        TouchStep(cfg, s, id, j.(handler := Spooling(0)));
      case UploadAborted(id) =>
        JobInvariant.UploadMoves(cfg, j, Leaving);
        TouchStep(cfg, s, id, j.(handler := Leaving));
      case SpoolMore(id, n) =>
        if j.handler.total + n > cfg.maxAudioBytes {
          CancelStep(cfg, s, id, Leaving);
        } else {
          JobInvariant.UploadMoves(cfg, j, Spooling(j.handler.total + n));
          TouchStep(cfg, s, id, j.(handler := Spooling(j.handler.total + n)));
        }
      case SpoolFailed(id) => CancelStep(cfg, s, id, Leaving);
      case SpoolEnd(id, file) =>
        if UploadAccepted(j, file) {
          SubmitKeeps(cfg, s, id);
          JobInvariant.AcceptUploadKeeps(cfg, j);
          EveryJobKeeps(cfg, s, Submit(s, id, AcceptUpload(j)), id, AcceptUpload(j));
        } else {
          CancelStep(cfg, s, id, Leaving);
        }
    }
  }

  lemma StreamStep(cfg: Config, s: State, e: Event)
    requires Inv(cfg, s) && IsStreamEvent(e) && Enabled(cfg, s, e)
    ensures Inv(cfg, Effect(cfg, s, e))
  {
    hide JobInvariant.Inv, Frame, EveryJob, PositionAndEta, OpeningItem, FinalItems;
    var j := s.jobs[e.id];
    JobOf(cfg, s, e.id);
    match e {
      case HandlerLeaves(id) => CancelStep(cfg, s, id, Closed);
      case StreamOpens(id) =>
        JobInvariant.OpenStreamKeeps(cfg, j, PositionAndEta(s, id));
        TouchStep(cfg, s, id, OpenStream(j, PositionAndEta(s, id)));
      case StreamTakes(id) =>
        JobInvariant.TakeChunkKeeps(cfg, j);
        TouchStep(cfg, s, id, TakeChunk(j));
      case StreamIdles(id) =>
        JobInvariant.KeepAliveKeeps(cfg, j);
        TouchStep(cfg, s, id, KeepAlive(j));
      case StreamDropped(id) => CancelStep(cfg, s, id, Closed);
    }
  }

  lemma WorkerJob(cfg: Config, s: State)
    requires Inv(cfg, s) && s.worker.Busy?
    ensures s.worker.id in s.jobs && s.worker.id in s.started && s.worker.start <= s.clock
    ensures !s.jobs[s.worker.id].task.NoTask?
  {
    hide JobInvariant.Inv, Books;
  }

  lemma WrittenIsAlike(i: Job, j: Job)
    requires JobInvariant.Written(i, j) && (Running(i) ==> JobInvariant.InProcess(i)) && !i.task.NoTask?
    ensures Alike(i, j)
  {
  }

  lemma TaskStep(cfg: Config, s: State, e: Event)
    requires Inv(cfg, s) && IsTaskEvent(e) && Enabled(cfg, s, e)
    ensures Inv(cfg, Effect(cfg, s, e))
  {
    hide Inv, JobInvariant.Inv, JobInvariant.Written, Alike, Touch;
    hide BeginTask, ReadLine, EndReply, GroqReply, EndTask;
    WorkerJob(cfg, s);
    var id := s.worker.id;
    var j := s.jobs[id];
    JobOf(cfg, s, id);
    JobInvariant.RunningInProcess(cfg, j);
    var j' := TaskWrites(cfg, s, e);
    WrittenIsAlike(j, j');
    TouchStep(cfg, s, id, j');
  }

  /** The job as a task event leaves it. */
  lemma TaskWrites(cfg: Config, s: State, e: Event) returns (j: Job)
    requires Inv(cfg, s) && IsTaskEvent(e) && Enabled(cfg, s, e)
    ensures s.worker.Busy? && s.worker.id in s.jobs && Effect(cfg, s, e) == Touch(s, s.worker.id, j)
    ensures JobInvariant.Written(s.jobs[s.worker.id], j) && JobInvariant.Inv(cfg, j)
  {
    hide Inv, JobInvariant.Inv, JobInvariant.Written, Touch, BeginTask, ReadLine, EndReply, GroqReply, EndTask;
    var i := Current(s);
    JobOf(cfg, s, s.worker.id);
    match e {
      case TaskBegins =>
        JobInvariant.BeginTaskKeeps(cfg, i);
        JobInvariant.BeginWrites(cfg, i);
        j := BeginTask(cfg, i);
      case TaskReads(line) =>
        JobInvariant.ReadLineKeeps(cfg, i, line);
        JobInvariant.ReadWrites(i, line);
        j := ReadLine(i, line);
      case TaskReplyEnds =>
        JobInvariant.EndReplyKeeps(cfg, i);
        JobInvariant.EndWrites(i);
        j := EndReply(i);
      case TaskGroqReply(text, duration) =>
        JobInvariant.GroqReplyKeeps(cfg, i, text, duration);
        JobInvariant.GroqWrites(i, text, duration);
        j := GroqReply(i, text, duration);
      case TaskRaises(message, typeName) =>
        JobInvariant.EndTaskKeeps(cfg, i, Raised(message, typeName));
        JobInvariant.StopWrites(i, Raised(message, typeName));
        j := EndTask(i, Raised(message, typeName));
      case TaskStops =>
        JobInvariant.EndTaskKeeps(cfg, i, TaskCancelled);
        JobInvariant.StopWrites(i, TaskCancelled);
        j := EndTask(i, TaskCancelled);
    }
  }

  lemma PopStep(cfg: Config, s: State)
    requires Inv(cfg, s) && s.worker.Idle? && s.pending != []
    ensures Inv(cfg, Pop(cfg, s))
  {
    hide JobInvariant.Inv;
    var id := s.pending[0];
    if StalePop(s) {
      PopStaleKeeps(cfg, s);
    } else {
      PopFresh(cfg, s);
    }
  }

  lemma PopFresh(cfg: Config, s: State)
    requires Inv(cfg, s) && s.worker.Idle? && s.pending != [] && !StalePop(s)
    ensures Inv(cfg, Pop(cfg, s))
  {
    hide JobInvariant.Inv, Frame, EveryJob, Books, Settle;
    FrameOf(cfg, s);
    PopStartKeeps(cfg, s, StartJob(cfg, s.jobs[s.pending[0]]));
    JobOf(cfg, s, s.pending[0]);
    if cfg.backend.Unset? { SettledAtOnce(cfg, s, Taken(cfg, s)); } else { StartStep(cfg, s); }
  }

  /** The state in which the worker has taken the next job. */
  ghost function Taken(cfg: Config, s: State): State
    requires s.pending != [] && s.pending[0] in s.jobs
  {
    var id := s.pending[0];
    Touch(s, id, StartJob(cfg, s.jobs[id])).(pending := s.pending[1..], popped := s.popped + [id],
                                             worker := Busy(id, s.clock, false), started := s.started + [id])
  }

  lemma StartStep(cfg: Config, s: State)
    requires Inv(cfg, s) && s.pending != [] && s.pending[0] in s.jobs && !cfg.backend.Unset?
    requires s.jobs[s.pending[0]].status == Queued && Books(cfg, Taken(cfg, s))
    ensures Inv(cfg, Taken(cfg, s))
  {
    hide JobInvariant.Inv, EveryJob, Books;
    var id := s.pending[0];
    JobOf(cfg, s, id);
    JobInvariant.StartKeeps(cfg, s.jobs[id]);
    EveryJobKeeps(cfg, s, Taken(cfg, s), id, StartJob(cfg, s.jobs[id]));
  }

  lemma SettledAtOnce(cfg: Config, s: State, s2: State)
    requires Inv(cfg, s) && s.pending != [] && s.pending[0] in s.jobs && cfg.backend.Unset?
    requires s2 == Taken(cfg, s) && s.jobs[s.pending[0]].status == Queued
    requires Books(cfg, s2) && s.pending[0] !in s.pending[1..]
    ensures Inv(cfg, Settle(s2, s.pending[0], s.clock, Returned, false))
  {
    hide JobInvariant.Inv, EveryJob, Books, Frame, SettleJob, Settle;
    var id := s.pending[0];
    var j' := StartJob(cfg, s.jobs[id]);
    SettleKeeps(cfg, s2, id, s.clock, Returned, false);
    JobOf(cfg, s, id);
    JobInvariant.SettleAtOnceKeeps(cfg, s.jobs[id]);
    SettledJob(j', Returned, false);
    SettledEvery(cfg, s, Settle(s2, id, s.clock, Returned, false), id, SettleJob(j', Returned, false));
  }

  lemma FrameOf(cfg: Config, s: State)
    requires Inv(cfg, s)
    ensures Frame(cfg, s) && Books(cfg, s)
  {
    hide JobInvariant.Inv, Placed, Queue, Timers;
  }

  /** The settled job satisfies its own invariant, flag included. */
  lemma SettledEvery(cfg: Config, s: State, s': State, id: JobId, j: Job)
    requires Inv(cfg, s) && s'.jobs == s.jobs[id := j.(cleanupScheduled := true)]
    requires JobInvariant.Inv(cfg, j) && j.id == id
    ensures EveryJob(cfg, s')
  {
    hide JobInvariant.Inv, Frame;
    JobInvariant.FlagKeeps(cfg, j);
    EveryJobKeeps(cfg, s, s', id, j.(cleanupScheduled := true));
  }

  lemma StartedNotPending(cfg: Config, s: State, id: JobId)
    requires Inv(cfg, s) && id in s.started
    ensures id in s.popped && id !in s.pending
  {
    hide JobInvariant.Inv, Placed;
    NoDupSplit(s.popped, s.pending, id);
  }

  lemma ResumeStep(cfg: Config, s: State)
    requires Inv(cfg, s) && Enabled(cfg, s, WorkerResumes)
    ensures Inv(cfg, Effect(cfg, s, WorkerResumes))
  {
    hide JobInvariant.Inv, Frame, EveryJob, Books, SettleJob;
    var id := s.worker.id;
    var j := s.jobs[id];
    JobOf(cfg, s, id);
    WorkerJob(cfg, s);
    FrameOf(cfg, s);
    StartedNotPending(cfg, s, id);
    SettleKeeps(cfg, s, id, s.worker.start, j.task.outcome, s.worker.interrupted);
    JobInvariant.SettleKeeps(cfg, j, s.worker.interrupted);
    SettledJob(j, j.task.outcome, s.worker.interrupted);
    SettledEvery(cfg, s, Effect(cfg, s, WorkerResumes), id, SettleJob(j, j.task.outcome, s.worker.interrupted));
  }

  lemma ExpireStep(cfg: Config, s: State, id: JobId)
    requires Inv(cfg, s) && id in s.timers
    ensures Inv(cfg, Expire(s, id))
  {
    hide JobInvariant.Inv, EveryJob;
    TimerFindsJob(cfg, s, id);
    JobOf(cfg, s, id);
    JobInvariant.FlagKeeps(cfg, s.jobs[id]);
    ExpireKeeps(cfg, s, id);
    EveryJobKeeps(cfg, s, Expire(s, id), id, s.jobs[id]);
  }

  lemma TimerFindsJob(cfg: Config, s: State, id: JobId)
    requires Inv(cfg, s) && id in s.timers
    ensures id in s.order && id in s.jobs && Terminal(s.jobs[id].status)
  {
    hide JobInvariant.Inv;
    assert PlacedJob(s, id, s.jobs[id]);
  }

  lemma StopStep(cfg: Config, s: State)
    requires Inv(cfg, s)
    ensures Inv(cfg, Stop(s))
  {
    hide JobInvariant.Inv, Frame, EveryJob;
    if s.worker.Busy? {
      var id := s.worker.id;
      WorkerJob(cfg, s);
      JobOf(cfg, s, id);
      var j := s.jobs[id].(task := CancelTask(s.jobs[id].task));
      if s.jobs[id].task.Live? {
        JobInvariant.StopTaskKeeps(cfg, s.jobs[id]);
        TouchStep(cfg, s, id, j);
        return;
      }
    }
    QuietKeeps(cfg, s, Stop(s));
    EverySame(cfg, s, Stop(s));
  }

  lemma EverySame(cfg: Config, s: State, s': State)
    requires EveryJob(cfg, s) && s'.jobs == s.jobs
    ensures EveryJob(cfg, s')
  {
    hide JobInvariant.Inv;
  }

  /** Every event keeps the invariant. */
  lemma StepKeeps(cfg: Config, s: State, e: Event)
    requires Inv(cfg, s)
    ensures Inv(cfg, Step(cfg, s, e))
  {
    if !Enabled(cfg, s, e) {
      return;
    }
    EffectKeeps(cfg, s, e);
  }

  lemma EffectKeeps(cfg: Config, s: State, e: Event)
    requires Inv(cfg, s) && Enabled(cfg, s, e)
    ensures Inv(cfg, Effect(cfg, s, e))
  {
    hide JobInvariant.Inv, Frame, EveryJob, Pop, Settle, Expire, Stop;
    if IsUploadEvent(e) {
      UploadStep(cfg, s, e);
    } else if IsStreamEvent(e) {
      StreamStep(cfg, s, e);
    } else if IsTaskEvent(e) {
      TaskStep(cfg, s, e);
    } else if e.WorkerPops? {
      PopStep(cfg, s);
    } else if e.WorkerResumes? {
      ResumeStep(cfg, s);
    } else if e.CleanupExpires? {
      ExpireStep(cfg, s, e.id);
    } else if e.StopWorker? {
      StopStep(cfg, s);
    } else {
      QuietKeeps(cfg, s, Effect(cfg, s, e));
      EverySame(cfg, s, Effect(cfg, s, e));
    }
  }

  /** Whole-run safety: the invariant holds after every schedule. */
  lemma {:induction false} Always(cfg: Config, schedule: seq<Event>)
    ensures Inv(cfg, Exec(cfg, Init(), schedule))
  {
    if schedule != [] {
      Always(cfg, schedule[..|schedule| - 1]);
      StepKeeps(cfg, Exec(cfg, Init(), schedule[..|schedule| - 1]), schedule[|schedule| - 1]);
    }
  }
}
