/** What the invariant means for clients and operators, stated for every reachable state. */
module Guarantees {
  import opened Basics
  import opened Jobs
  import opened Machine
  import opened Safety
  import opened Lifecycle
  import JobInvariant
  import VllmStream
  import Transcript

  /** Capacity, queue and worker: every QUEUED job is pending exactly once, every other pending id
      was cancelled, and whatever is PROCESSING or STREAMING is the worker's current job. */
  lemma {:induction false} QueueDiscipline(cfg: Config, schedule: seq<Event>)
    ensures var s := Exec(cfg, Init(), schedule);
      && |ActiveIds(s.jobs, s.order)| <= cfg.maxSize
      && (forall id | QueuedJob(s.jobs, id) :: multiset(s.pending)[id] == 1)
      && (forall id | id in s.pending :: id in s.jobs && (QueuedJob(s.jobs, id) || s.jobs[id].status == Cancelled))
      && (forall id | id in s.jobs && JobInvariant.InProcess(s.jobs[id]) :: s.worker.Busy? && s.worker.id == id)
      && (forall id | id in s.jobs && Active(s.jobs[id].status) :: id in s.order)
  {
    hide JobInvariant.Inv, Starts, Timers, History;
    Always(cfg, schedule);
    var s := Exec(cfg, Init(), schedule);
    forall id | id in s.jobs
      ensures PlacedJob(s, id, s.jobs[id])
    {
    }
    forall i, j | 0 <= i < j < |s.pending|
      ensures s.pending[i] != s.pending[j]
    {
      assert s.submitted[|s.popped| + i] == s.pending[i] && s.submitted[|s.popped| + j] == s.pending[j];
    }
    NoDupCounts(s.pending);
  }

  lemma {:induction false} NoDupCounts(ids: seq<JobId>)
    requires NoDup(ids)
    ensures forall id :: multiset(ids)[id] == if id in ids then 1 else 0
  {
    if ids != [] {
      assert ids == [ids[0]] + ids[1..];
      assert NoDup(ids[1..]) && ids[0] !in ids[1..];
      NoDupCounts(ids[1..]);
    }
  }

  /** End of stream: a job's chunk log is texts closed by one end mark, which is there exactly when
      the status is terminal; and exactly then one clean-up timer has been created. */
  lemma {:induction false} EndMarkDiscipline(cfg: Config, schedule: seq<Event>, id: JobId)
    requires id in Exec(cfg, Init(), schedule).jobs
    ensures var s := Exec(cfg, Init(), schedule); var j := s.jobs[id]; var log := Log(j);
      && (Terminal(j.status) <==> j.notified)
      && (Terminal(j.status) <==> log != [] && log[|log| - 1].None?)
      && (forall k | 0 <= k < |log| - 1 :: log[k].Some?)
      && multiset(s.scheduled)[id] == if Terminal(j.status) then 1 else 0
  {
    hide JobInvariant.StreamInv, JobInvariant.ContentInv, JobInvariant.TaskInv, Queue, Starts, History;
    Always(cfg, schedule);
    var s := Exec(cfg, Init(), schedule);
    JobOf(cfg, s, id);
    NoDupCounts(s.scheduled);
    SealedShape(Log(s.jobs[id]), s.jobs[id].notified);
  }

  lemma SealedShape(log: seq<Option<string>>, notified: bool)
    requires JobInvariant.Sealed(log, notified)
    ensures notified <==> log != [] && log[|log| - 1].None?
    ensures forall k | 0 <= k < |log| - 1 :: log[k].Some?
  {
    if notified {
      forall k | 0 <= k < |log| - 1
        ensures log[k].Some?
      {
        JobInvariant.TextAt(log, k);
      }
    }
  }

  /** No leaked slot: a job is UPLOADING only while its handler still works on the upload or is on
      its way out; a handler that holds a response has submitted its job; and a finished handler's
      job is over, so it no longer counts against the capacity. */
  lemma {:induction false} NoLeakedSlot(cfg: Config, schedule: seq<Event>, id: JobId)
    requires id in Exec(cfg, Init(), schedule).jobs
    ensures var s := Exec(cfg, Init(), schedule); var j := s.jobs[id];
      && (j.status == Uploading ==> j.handler.Parsing? || j.handler.Spooling? || j.handler.Leaving?)
      && (j.handler.Armed? || j.handler.Sending? ==> id in s.submitted)
      && (j.handler.Closed? ==> id !in ActiveIds(s.jobs, s.order))
  {
    hide JobInvariant.StreamInv, JobInvariant.ContentInv, JobInvariant.TaskInv, Queue, Starts, History;
    Always(cfg, schedule);
    JobOf(cfg, Exec(cfg, Init(), schedule), id);
  }

  /** The way out is always open, and it ends with the slot free. */
  lemma LeavingFreesSlot(cfg: Config, s: State, id: JobId)
    requires Inv(cfg, s) && id in s.jobs && s.jobs[id].handler.Leaving?
    ensures Enabled(cfg, s, HandlerLeaves(id))
    ensures var s' := Step(cfg, s, HandlerLeaves(id));
      && id in s'.jobs && s'.jobs[id].handler.Closed? && s'.jobs[id].status == Cancelled
      && ActiveIds(s'.jobs, s'.order) == ActiveIds(s.jobs, s.order) - {id}
  {
    hide Inv, JobInvariant.Inv, Conclude;
    JobOf(cfg, s, id);
    LeavingStatus(cfg, s.jobs[id]);
    var j := s.jobs[id].(handler := Closed);
    ConcludeJobs(s, id, CancelJob(j));
    if Active(s.jobs[id].status) {
      ActiveFewer(s, id, CancelJob(j));
      ActiveFewer(s, id, CancelJob(j).(cleanupScheduled := true));
    } else {
      ActiveFewer(s, id, j);
    }
  }

  lemma LeavingStatus(cfg: Config, j: Job)
    requires JobInvariant.Inv(cfg, j) && j.handler.Leaving?
    ensures j.status == Uploading || j.status == Cancelled
  {
    hide JobInvariant.StreamInv, JobInvariant.ContentInv, JobInvariant.TaskInv;
  }

  // -------------------------------------------------------------------- storage

  /** Bytes of spooled audio on disk for one job: the file being written, or the finished one. */
  function DiskBytes(j: Job): nat {
    (if j.handler.Spooling? then j.handler.total else 0) + (match j.audio case Some(n) => n case None => 0)
  }

  function DiskTotal(jobs: map<JobId, Job>, ids: seq<JobId>): nat {
    if ids == [] then 0
    else DiskTotal(jobs, ids[..|ids| - 1]) +
         (if ids[|ids| - 1] in jobs then DiskBytes(jobs[ids[|ids| - 1]]) else 0)
  }

  /** Files exist for active jobs only; after the upload they exist for all of them. */
  lemma DiskOfJob(cfg: Config, s: State, id: JobId)
    requires Inv(cfg, s) && id in s.jobs
    ensures DiskBytes(s.jobs[id]) <= cfg.maxAudioBytes
    ensures DiskBytes(s.jobs[id]) > 0 ==> id in ActiveIds(s.jobs, s.order)
    ensures id in ActiveIds(s.jobs, s.order) && s.jobs[id].status != Uploading ==> s.jobs[id].audio.Some?
  {
    hide JobInvariant.StreamInv, JobInvariant.ContentInv, JobInvariant.TaskInv, Queue, Starts, History, Timers;
    JobOf(cfg, s, id);
  }

  lemma {:induction false} DiskOfList(cfg: Config, s: State, ids: seq<JobId>)
    requires Inv(cfg, s) && NoDup(ids)
    ensures DiskTotal(s.jobs, ids) <= |ActiveIds(s.jobs, s.order) * Members(ids)| * cfg.maxAudioBytes
  {
    hide Inv, DiskBytes, ActiveIds, Members;
    if ids != [] {
      var n := |ids| - 1;
      var less := ActiveIds(s.jobs, s.order) * Members(ids[..n]);
      DiskOfList(cfg, s, ids[..n]);
      OneMore(ActiveIds(s.jobs, s.order), ids);
      Distribute(|less|, cfg.maxAudioBytes);
      if ids[n] in s.jobs {
        DiskOfJob(cfg, s, ids[n]);
      }
    }
  }

  lemma OneMore(active: set<JobId>, ids: seq<JobId>)
    requires ids != [] && NoDup(ids)
    ensures var n := |ids| - 1; var less := active * Members(ids[..n]);
      |active * Members(ids)| == |less| + (if ids[n] in active then 1 else 0)
  {
    var n := |ids| - 1;
    assert ids == ids[..n] + [ids[n]] && ids[n] !in ids[..n];
    assert Members(ids) == Members(ids[..n]) + {ids[n]};
    if ids[n] in active {
      assert active * Members(ids) == active * Members(ids[..n]) + {ids[n]};
    } else {
      assert active * Members(ids) == active * Members(ids[..n]);
    }
  }

  lemma Distribute(n: nat, m: nat)
    ensures (n + 1) * m == n * m + m
  {
  }

  lemma Times(a: nat, b: nat, m: nat)
    requires a <= b
    ensures a * m <= b * m
  {
  }

  /** Disk bound: whatever list of jobs one adds up, their spooled audio never exceeds
      `max_queue_size * max_audio_bytes`. */
  lemma DiskBound(cfg: Config, schedule: seq<Event>, ids: seq<JobId>)
    requires NoDup(ids)
    ensures DiskTotal(Exec(cfg, Init(), schedule).jobs, ids) <= cfg.maxSize * cfg.maxAudioBytes
  {
    hide JobInvariant.Inv, EveryJob, Placed, Queue, Starts, History, Timers;
    var s := Exec(cfg, Init(), schedule);
    Always(cfg, schedule);
    DiskOfList(cfg, s, ids);
    var held := ActiveIds(s.jobs, s.order) * Members(ids);
    SubsetSize(held, ActiveIds(s.jobs, s.order));
    Times(|held|, cfg.maxSize, cfg.maxAudioBytes);
  }

  const MAX_AUDIO_BYTES := 524288000
  const MAX_QUEUE_SIZE := 50
  const REQUIRED_UPLOAD_STORAGE_BYTES := MAX_QUEUE_SIZE * (MAX_AUDIO_BYTES + 1048576) * 2 + 1073741824

  /** With the deployed limits the spooled audio takes less than half of the storage that setup
      insists on; the other half is there for multipart spill files. */
  lemma SetupBudgetSuffices(schedule: seq<Event>, backend: Backend, ids: seq<JobId>)
    requires NoDup(ids)
    ensures 2 * DiskTotal(Exec(Config(MAX_QUEUE_SIZE, MAX_AUDIO_BYTES, backend), Init(), schedule).jobs, ids)
         < REQUIRED_UPLOAD_STORAGE_BYTES
  {
    DiskBound(Config(MAX_QUEUE_SIZE, MAX_AUDIO_BYTES, backend), schedule, ids);
  }

  // --------------------------------------------------------------- waiting times

  /** The history holds the elapsed times of the last (at most 20) jobs that completed or failed. */
  lemma {:induction false} EtaWindow(cfg: Config, schedule: seq<Event>)
    ensures var s := Exec(cfg, Init(), schedule);
      && |s.times| == (if |s.finished| < MAX_HISTORY then |s.finished| else MAX_HISTORY)
      && s.times == s.finished[|s.finished| - |s.times|..]
      && forall k | 0 <= k < |s.times| :: s.times[k] >= 0.0
  {
    hide JobInvariant.Inv, EveryJob, Placed, Queue, Starts, Timers;
    Always(cfg, schedule);
  }

  lemma {:induction false} SumBounds(times: seq<real>, lo: real, hi: real)
    requires forall k | 0 <= k < |times| :: lo <= times[k] <= hi
    ensures |times| as real * lo <= Sum(times) <= |times| as real * hi
  {
    if times != [] {
      SumBounds(times[..|times| - 1], lo, hi);
    }
  }

  /** The estimate for a position lies between that many times the shortest and the longest time in
      the window, or is 30 seconds a job when the window is empty. */
  lemma EtaBounds(times: seq<real>, position: nat, lo: real, hi: real)
    requires forall k | 0 <= k < |times| :: lo <= times[k] <= hi
    ensures times == [] ==> EstimateWait(times, position) == 30.0 * position as real
    ensures times != [] ==> position as real * lo <= EstimateWait(times, position) <= position as real * hi
  {
    if times != [] {
      var mean := Sum(times) / |times| as real;
      SumBounds(times, lo, hi);
      MeanBounds(Sum(times), |times| as real, lo, hi);
      Scale(position as real, lo, mean);
      Scale(position as real, mean, hi);
    }
  }

  /** A job further back is never promised an earlier start. */
  lemma EtaGrows(times: seq<real>, position: nat, later: nat)
    requires forall k | 0 <= k < |times| :: times[k] >= 0.0
    requires position <= later
    ensures EstimateWait(times, position) <= EstimateWait(times, later)
  {
    if times != [] {
      SumNonNegative(times);
      MeanNonNegative(Sum(times), |times| as real);
      Scale(Sum(times) / |times| as real, position as real, later as real);
    }
  }

  lemma {:induction false} SumNonNegative(times: seq<real>)
    requires forall k | 0 <= k < |times| :: times[k] >= 0.0
    ensures Sum(times) >= 0.0
  {
    if times != [] {
      SumNonNegative(times[..|times| - 1]);
    }
  }

  lemma MeanNonNegative(sum: real, n: real)
    requires n > 0.0 && sum >= 0.0
    ensures sum / n >= 0.0
  {
  }

  lemma MeanBounds(sum: real, n: real, lo: real, hi: real)
    requires n > 0.0 && n * lo <= sum <= n * hi
    ensures lo <= sum / n <= hi
  {
    MeanNonNegative(sum - n * lo, n);
    MeanNonNegative(n * hi - sum, n);
    assert (sum - n * lo) / n == sum / n - lo;
    assert (n * hi - sum) / n == hi - sum / n;
  }

  lemma Scale(c: real, x: real, y: real)
    requires c >= 0.0 && x <= y
    ensures c * x <= c * y && x * c <= y * c
  {
    assert c * (y - x) >= 0.0;
  }

  // ------------------------------------------------------------ the event stream

  /** Stream grammar: nothing, or one opening item, then data and keepalives, then at most one
      verdict and nothing after it. The data are always a prefix of the chunks produced, and all of
      them once there is a verdict; `done` stands for COMPLETED without error, `error` for FAILED
      with the job's own message. */
  lemma {:induction false} StreamGrammar(cfg: Config, schedule: seq<Event>, id: JobId)
    requires id in Exec(cfg, Init(), schedule).jobs
    ensures var j := Exec(cfg, Init(), schedule).jobs[id];
      && (j.emitted == [] || JobInvariant.OpenShape(j.emitted) || JobInvariant.FinishedShape(j.emitted))
      && DataTexts(j.emitted) <= Texts(Log(j))
      && (JobInvariant.FinishedShape(j.emitted) ==>
            && j.handler.Closed?
            && DataTexts(j.emitted) == Texts(Log(j))
            && (match j.emitted[|j.emitted| - 1]
                case SentDone(k) => k == id && j.status == Completed && j.error == None
                case SentError(m) => j.status == Failed && j.error == Some(m) && m != ""
                case _ => false))
  {
    hide JobInvariant.ContentInv, JobInvariant.TaskInv, Frame, VllmStream.ReplyOf, Transcript.Diagnose;
    Always(cfg, schedule);
    var s := Exec(cfg, Init(), schedule);
    var j := s.jobs[id];
    JobOf(cfg, s, id);
    StreamFacts(cfg, j);
  }

  lemma StreamFacts(cfg: Config, j: Job)
    requires JobInvariant.Inv(cfg, j)
    ensures j.emitted == [] || JobInvariant.OpenShape(j.emitted) || JobInvariant.FinishedShape(j.emitted)
    ensures DataTexts(j.emitted) <= Texts(Log(j))
    ensures JobInvariant.FinishedShape(j.emitted) ==>
            && j.handler.Closed?
            && DataTexts(j.emitted) == Texts(Log(j))
            && (match j.emitted[|j.emitted| - 1]
                case SentDone(k) => k == j.id && j.status == Completed && j.error == None
                case SentError(m) => j.status == Failed && j.error == Some(m) && m != ""
                case _ => false)
  {
    hide JobInvariant.ContentInv, JobInvariant.TaskInv, JobInvariant.HandlerInv, JobInvariant.Sealed;
    TextsConcat(j.taken, j.queue);
    if JobInvariant.FinishedShape(j.emitted) {
      NotOpen(j.emitted);
      if j.queue == [] {
        assert Log(j) == j.taken;
      }
    }
  }

  lemma NotOpen(items: seq<Item>)
    requires JobInvariant.FinishedShape(items)
    ensures !JobInvariant.OpenShape(items) && items != []
  {
    assert JobInvariant.IsFinal(items[|items| - 1]);
    assert !JobInvariant.IsMiddle(items[|items| - 1]);
  }

  /** A verdict once sent stays true: the job's status never changes again. */
  lemma VerdictIsFinal(cfg: Config, s: State, id: JobId, later: seq<Event>)
    requires Inv(cfg, s) && id in s.jobs && JobInvariant.FinishedShape(s.jobs[id].emitted)
    ensures var s' := Exec(cfg, s, later);
      id in s'.jobs && s'.jobs[id].status == s.jobs[id].status && s'.jobs[id].error == s.jobs[id].error
  {
    hide Inv, JobInvariant.Inv, JobInvariant.FinishedShape;
    JobOf(cfg, s, id);
    StreamFacts(cfg, s.jobs[id]);
    RunEvolves(cfg, s, later, id);
  }
}
