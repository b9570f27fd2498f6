/** Lazy deletion refines a plain queue: `_pending` keeps the ids of cancelled jobs until the worker
    meets them, but seen through the job table it is a FIFO from which `cancel` removes at once. */
module Fifo {
  import opened Basics
  import opened Jobs
  import opened Machine
  import opened Safety
  import JobInvariant
  import VllmStream
  import Transcript

  /** What one event means to the plain queue. */
  datatype Op = Push(id: JobId) | Serve(id: JobId) | Drop(id: JobId) | Stutter

  function Observe(cfg: Config, s: State, e: Event): Op {
    if !Enabled(cfg, s, e) then Stutter
    else
      match e
      case SpoolEnd(id, file) => if UploadAccepted(s.jobs[id], file) then Push(id) else Stutter
      case WorkerPops => if StalePop(s) then Stutter else Serve(s.pending[0])
      case StreamDropped(id) => if CanCancel(s, id) && s.jobs[id].status == Queued then Drop(id) else Stutter
      case _ => Stutter
  }

  /** The plain queue: push at the back, serve from the front only, drop from anywhere. */
  function Apply(q: seq<JobId>, op: Op): Option<seq<JobId>> {
    match op
    case Push(id) => Some(q + [id])
    case Serve(id) => if q != [] && q[0] == id then Some(q[1..]) else None
    case Drop(id) => if id in q then Some(Without(q, id)) else None
    case Stutter => Some(q)
  }

  /** The live part of `_pending`. */
  function Line(s: State): seq<JobId> { QueuedIn(s.jobs, s.pending) }

  // --------------------------------------------------- the filter `QueuedIn`

  lemma QueuedInMembers(jobs: map<JobId, Job>, ids: seq<JobId>)
    ensures forall id :: id in QueuedIn(jobs, ids) <==> id in ids && QueuedJob(jobs, id)
  {
    if ids != [] {
      QueuedInMembers(jobs, ids[1..]);
      assert ids == [ids[0]] + ids[1..];
    }
  }

  lemma {:induction false} QueuedInConcat(jobs: map<JobId, Job>, xs: seq<JobId>, ys: seq<JobId>)
    ensures QueuedIn(jobs, xs + ys) == QueuedIn(jobs, xs) + QueuedIn(jobs, ys)
  {
    if xs == [] {
      assert xs + ys == ys;
    } else {
      assert (xs + ys)[1..] == xs[1..] + ys;
      QueuedInConcat(jobs, xs[1..], ys);
    }
  }

  lemma {:induction false} QueuedInSame(jobs: map<JobId, Job>, jobs': map<JobId, Job>, ids: seq<JobId>)
    requires forall id | id in ids :: QueuedJob(jobs, id) <==> QueuedJob(jobs', id)
    ensures QueuedIn(jobs', ids) == QueuedIn(jobs, ids)
  {
    if ids != [] {
      QueuedInSame(jobs, jobs', ids[1..]);
    }
  }

  /** One job stops being QUEUED: it disappears from the filtered list, the others keep their order. */
  lemma {:induction false} QueuedInLoses(jobs: map<JobId, Job>, jobs': map<JobId, Job>, ids: seq<JobId>, gone: JobId)
    requires forall id | id in ids && id != gone :: QueuedJob(jobs, id) <==> QueuedJob(jobs', id)
    requires !QueuedJob(jobs', gone)
    ensures QueuedIn(jobs', ids) == Without(QueuedIn(jobs, ids), gone)
  {
    if ids != [] {
      QueuedInLoses(jobs, jobs', ids[1..], gone);
      var head := if QueuedJob(jobs, ids[0]) then [ids[0]] else [];
      WithoutConcat(head, QueuedIn(jobs, ids[1..]), gone);
      if head != [] {
        assert Without(head, gone) == if ids[0] == gone then [] else [ids[0]];
      }
    }
  }

  lemma {:induction false} QueuedInNoDup(jobs: map<JobId, Job>, ids: seq<JobId>)
    requires NoDup(ids)
    ensures NoDup(QueuedIn(jobs, ids))
  {
    if ids != [] {
      QueuedInNoDup(jobs, ids[1..]);
      QueuedInMembers(jobs, ids[1..]);
    }
  }

  // ------------------------------------------------ who is QUEUED after an event

  lemma CancelQueued(s: State, id: JobId, handler: Handler, k: JobId)
    requires id in s.jobs && k in s.jobs
    ensures QueuedJob(Cancel(s, id, handler).jobs, k) <==> QueuedJob(s.jobs, k) && !(k == id && CanCancel(s, id))
  {
    hide Conclude;
    ConcludeJobs(s, id, CancelJob(s.jobs[id].(handler := handler)));
  }

  lemma PopQueued(cfg: Config, s: State, k: JobId)
    requires s.pending != [] && k in s.jobs
    ensures QueuedJob(Pop(cfg, s).jobs, k) <==> QueuedJob(s.jobs, k) && (StalePop(s) || k != s.pending[0])
  {
    hide Conclude, SettleJob, StartJob;
    if !StalePop(s) {
      var id := s.pending[0];
      var j' := StartJob(cfg, s.jobs[id]);
      NeverQueued(cfg, s.jobs[id], Returned, false);
      var s2 := Touch(s.(pending := s.pending[1..], popped := s.popped + [id]), id, j')
                  .(worker := Busy(id, s.clock, false), started := s.started + [id]);
      ConcludeJobs(s2, id, SettleJob(j', Returned, false));
    }
  }

  lemma NeverQueued(cfg: Config, j: Job, outcome: Outcome, interrupted: bool)
    ensures StartJob(cfg, j).status == Processing
    ensures SettleJob(StartJob(cfg, j), outcome, interrupted).status != Queued
    ensures SettleJob(j, outcome, interrupted).status != Queued
  {
  }

  lemma SettleQueued(cfg: Config, s: State, k: JobId)
    requires Inv(cfg, s) && Enabled(cfg, s, WorkerResumes) && k in s.jobs
    ensures QueuedJob(Effect(cfg, s, WorkerResumes).jobs, k) <==> QueuedJob(s.jobs, k)
  {
    hide JobInvariant.Inv, Frame, EveryJob, Conclude, SettleJob;
    var j := s.jobs[s.worker.id];
    JobOf(cfg, s, s.worker.id);
    JobInvariant.RunningInProcess(cfg, j);
    NeverQueued(cfg, j, j.task.outcome, s.worker.interrupted);
    ConcludeJobs(s, s.worker.id, SettleJob(j, j.task.outcome, s.worker.interrupted));
  }

  lemma HandlerQueued(cfg: Config, s: State, e: Event, k: JobId)
    requires Inv(cfg, s) && (IsUploadEvent(e) || IsStreamEvent(e)) && Enabled(cfg, s, e)
    requires k in s.jobs
    ensures var op := Observe(cfg, s, e);
      QueuedJob(Effect(cfg, s, e).jobs, k) <==> op == Push(k) || (QueuedJob(s.jobs, k) && op != Drop(k))
  {
    hide Inv, Effect, Enabled, Observe, QueuedJob;
    if IsUploadEvent(e) {
      UploadQueued(cfg, s, e, k);
    } else {
      StreamQueued(cfg, s, e, k);
    }
  }

  lemma UploadQueued(cfg: Config, s: State, e: Event, k: JobId)
    requires Inv(cfg, s) && IsUploadEvent(e) && Enabled(cfg, s, e)
    requires k in s.jobs
    ensures var op := Observe(cfg, s, e);
      QueuedJob(Effect(cfg, s, e).jobs, k) <==> op == Push(k) || (QueuedJob(s.jobs, k) && op != Drop(k))
  {
    hide Inv, JobInvariant.Inv, Cancel, PositionAndEta, FinalItems;
    if !e.Reserve? {
      JobOf(cfg, s, e.id);
      JobInvariant.RunningInProcess(cfg, s.jobs[e.id]);
      NotQueuedWhenLeaving(cfg, s.jobs[e.id]);
      CancelQueued(s, e.id, Leaving, k);
      CancelQueued(s, e.id, Closed, k);
    }
  }

  lemma StreamQueued(cfg: Config, s: State, e: Event, k: JobId)
    requires Inv(cfg, s) && IsStreamEvent(e) && Enabled(cfg, s, e)
    requires k in s.jobs
    ensures var op := Observe(cfg, s, e);
      QueuedJob(Effect(cfg, s, e).jobs, k) <==> op == Push(k) || (QueuedJob(s.jobs, k) && op != Drop(k))
  {
    hide Inv, JobInvariant.Inv, Cancel, PositionAndEta, FinalItems;
    if !e.Reserve? {
      JobOf(cfg, s, e.id);
      JobInvariant.RunningInProcess(cfg, s.jobs[e.id]);
      NotQueuedWhenLeaving(cfg, s.jobs[e.id]);
      CancelQueued(s, e.id, Leaving, k);
      CancelQueued(s, e.id, Closed, k);
    }
  }

  lemma NotQueuedWhenLeaving(cfg: Config, j: Job)
    requires JobInvariant.Inv(cfg, j)
    ensures j.handler.Leaving? ==> j.status != Queued
  {
    hide JobInvariant.ContentInv, JobInvariant.StreamInv, JobInvariant.Sealed;
  }

  lemma TaskQueued(cfg: Config, s: State, e: Event, k: JobId)
    requires Inv(cfg, s) && IsTaskEvent(e) && Enabled(cfg, s, e) && k in s.jobs
    ensures QueuedJob(Effect(cfg, s, e).jobs, k) <==> QueuedJob(s.jobs, k)
  {
    hide Inv, JobInvariant.Inv, VllmStream.DeltaOfLine, Transcript.Diagnose, Transcript.Describe,
      GroqSegment;
    JobOf(cfg, s, s.worker.id);
    JobInvariant.RunningInProcess(cfg, s.jobs[s.worker.id]);
  }

  lemma OtherQueued(cfg: Config, s: State, e: Event, k: JobId)
    requires !IsUploadEvent(e) && !IsStreamEvent(e) && !IsTaskEvent(e) && !e.WorkerPops? && !e.WorkerResumes?
    requires Enabled(cfg, s, e) && k in s.jobs
    ensures QueuedJob(Effect(cfg, s, e).jobs, k) <==> QueuedJob(s.jobs, k)
    ensures Observe(cfg, s, e).Stutter?
  {
  }

  /** A known job is QUEUED after an event exactly when it was pushed by it, or was QUEUED before
      and neither served nor dropped. */
  lemma QueuedAfter(cfg: Config, s: State, e: Event, k: JobId)
    requires Inv(cfg, s) && k in s.jobs
    ensures var op := Observe(cfg, s, e);
      QueuedJob(Step(cfg, s, e).jobs, k) <==>
        op == Push(k) || (QueuedJob(s.jobs, k) && op != Drop(k) && op != Serve(k))
  {
    if !Enabled(cfg, s, e) {
      hide Inv;
    } else if IsUploadEvent(e) || IsStreamEvent(e) {
      hide Inv, Effect, QueuedJob;
      HandlerQueued(cfg, s, e, k);
    } else if IsTaskEvent(e) {
      hide Inv, Effect, QueuedJob;
      TaskQueued(cfg, s, e, k);
    } else if e.WorkerPops? {
      hide Inv, Pop;
      PopQueued(cfg, s, k);
    } else if e.WorkerResumes? {
      hide Inv, Effect, QueuedJob;
      SettleQueued(cfg, s, k);
    } else {
      hide Inv, Effect, QueuedJob;
      OtherQueued(cfg, s, e, k);
    }
  }

  /** The operations other than pop leave the queues of ids alone. */
  ghost predicate SameQueues(s: State, s': State) {
    s'.pending == s.pending && s'.submitted == s.submitted && s'.started == s.started
  }

  lemma CancelQueues(s: State, id: JobId, handler: Handler)
    requires id in s.jobs
    ensures SameQueues(s, Cancel(s, id, handler))
  {
    hide Conclude, CancelJob;
    ConcludeJobs(s, id, CancelJob(s.jobs[id].(handler := handler)));
  }

  lemma SettleQueues(s: State, id: JobId, start: real, outcome: Outcome, interrupted: bool)
    requires id in s.jobs
    ensures SameQueues(s, Settle(s, id, start, outcome, interrupted))
  {
    hide Conclude, SettleJob, NextWorker;
    ConcludeJobs(s, id, SettleJob(s.jobs[id], outcome, interrupted));
  }

  lemma PopQueues(cfg: Config, s: State)
    requires s.pending != []
    ensures var s' := Pop(cfg, s);
      && s'.pending == s.pending[1..] && s'.submitted == s.submitted
      && s'.started == s.started + (if StalePop(s) then [] else [s.pending[0]])
  {
    hide Settle, StartJob;
    if !StalePop(s) {
      var id := s.pending[0];
      var s2 := Touch(s.(pending := s.pending[1..], popped := s.popped + [id]), id, StartJob(cfg, s.jobs[id]))
                  .(worker := Busy(id, s.clock, false), started := s.started + [id]);
      SettleQueues(s2, id, s.clock, Returned, false);
    }
  }

  /** How an event that `op` stands for moves the three queues of ids. */
  ghost predicate QueuesMoved(s: State, s': State, op: Op, pops: bool) {
    && (op.Push? ==> s'.pending == s.pending + [op.id] && s'.submitted == s.submitted + [op.id])
    && (!op.Push? ==> s'.submitted == s.submitted)
    && (pops ==> s.pending != [] && s'.pending == s.pending[1..])
    && (!op.Push? && !pops ==> s'.pending == s.pending)
    && s'.started == s.started + (if op.Serve? then [op.id] else [])
  }

  lemma QueuesAfter(cfg: Config, s: State, e: Event)
    ensures QueuesMoved(s, Step(cfg, s, e), Observe(cfg, s, e), e == WorkerPops && Enabled(cfg, s, e))
  {
    hide Effect, Enabled, Observe, QueuesMoved;
    if !Enabled(cfg, s, e) {
      IdleObserves(cfg, s, e);
      SameQueuesMoved(s, s);
    } else if IsUploadEvent(e) || IsStreamEvent(e) {
      HandlerMovesQueues(cfg, s, e);
    } else {
      WorkerMovesQueues(cfg, s, e);
    }
  }

  lemma IdleObserves(cfg: Config, s: State, e: Event)
    requires !Enabled(cfg, s, e)
    ensures Observe(cfg, s, e) == Stutter
  {
    hide Enabled;
  }

  lemma WorkerMovesQueues(cfg: Config, s: State, e: Event)
    requires Enabled(cfg, s, e) && !IsUploadEvent(e) && !IsStreamEvent(e)
    ensures QueuesMoved(s, Effect(cfg, s, e), Observe(cfg, s, e), e == WorkerPops)
  {
    hide Pop, Settle, QueuesMoved;
    if e.WorkerPops? {
      PopMovesQueues(cfg, s);
    } else {
      if e.WorkerResumes? {
        SettleQueues(s, s.worker.id, s.worker.start, Current(s).task.outcome, s.worker.interrupted);
      }
      SameQueuesMoved(s, Effect(cfg, s, e));
    }
  }

  lemma PopMovesQueues(cfg: Config, s: State)
    requires s.pending != []
    ensures QueuesMoved(s, Pop(cfg, s), if StalePop(s) then Stutter else Serve(s.pending[0]), true)
  {
    hide Pop;
    PopQueues(cfg, s);
  }

  lemma SameQueuesMoved(s: State, s': State)
    requires SameQueues(s, s')
    ensures QueuesMoved(s, s', Stutter, false)
    ensures forall id :: QueuesMoved(s, s', Drop(id), false)
  {
  }

  lemma HandlerMovesQueues(cfg: Config, s: State, e: Event)
    requires Enabled(cfg, s, e) && (IsUploadEvent(e) || IsStreamEvent(e))
    ensures QueuesMoved(s, Effect(cfg, s, e), Observe(cfg, s, e), false)
  {
    hide Cancel, PositionAndEta, CanCancel, QueuesMoved;
    if Observe(cfg, s, e).Push? {
      PushMovesQueues(s, e.id, AcceptUpload(s.jobs[e.id]));
    } else {
      if !e.Reserve? {
        CancelQueues(s, e.id, Leaving);
        CancelQueues(s, e.id, Closed);
      }
      SameQueuesMoved(s, Effect(cfg, s, e));
    }
  }

  lemma PushMovesQueues(s: State, id: JobId, j: Job)
    ensures QueuesMoved(s, Submit(s, id, j), Push(id), false)
  {
  }

  // ------------------------------------------------------------------ refinement

  lemma KnownLine(cfg: Config, s: State)
    requires Inv(cfg, s)
    ensures forall id | id in s.pending :: id in s.jobs
    ensures forall id | id in s.order :: id in s.jobs
    ensures NoDup(s.pending) && NoDup(s.order)
    ensures forall id | QueuedJob(s.jobs, id) :: id in s.pending && id in s.order && id in s.submitted
  {
    hide EveryJob, Starts, Timers, History;
    forall id | QueuedJob(s.jobs, id)
      ensures id in s.pending && id in s.order && id in s.submitted
    {
      assert PlacedJob(s, id, s.jobs[id]);
    }
    forall i, j | 0 <= i < j < |s.pending|
      ensures s.pending[i] != s.pending[j]
    {
      assert s.submitted[|s.popped| + i] == s.pending[i] && s.submitted[|s.popped| + j] == s.pending[j];
    }
  }

  /** Push: the new id is known, uploading, and in neither list. */
  lemma PushFacts(cfg: Config, s: State, e: Event)
    requires Inv(cfg, s) && Observe(cfg, s, e).Push?
    ensures var id := Observe(cfg, s, e).id;
      id in s.jobs && !QueuedJob(s.jobs, id) && id !in s.pending && id !in s.submitted && id in s.order
  {
    hide JobInvariant.Inv, Starts, Timers, History;
    var id := Observe(cfg, s, e).id;
    JobOf(cfg, s, id);
    JobInvariant.RunningInProcess(cfg, s.jobs[id]);
    assert PlacedJob(s, id, s.jobs[id]);
    assert forall k | k in s.pending :: k in s.submitted;
  }

  /** Every event does to the live line what the plain queue does. */
  lemma StepRefinesFifo(cfg: Config, s: State, e: Event)
    requires Inv(cfg, s)
    ensures Apply(Line(s), Observe(cfg, s, e)) == Some(Line(Step(cfg, s, e)))
  {
    hide Inv, Step, Observe, QueuedJob, Enabled;
    var s' := Step(cfg, s, e);
    var op := Observe(cfg, s, e);
    KnownLine(cfg, s);
    QueuesAfter(cfg, s, e);
    forall k | k in s.pending
      ensures QueuedJob(s'.jobs, k) <==> op == Push(k) || (QueuedJob(s.jobs, k) && op != Drop(k) && op != Serve(k))
    {
      QueuedAfter(cfg, s, e, k);
    }
    match op {
      case Push(id) => PushRefines(cfg, s, e);
      case Serve(id) => ServeRefines(cfg, s, e);
      case Drop(id) =>
        DropIsQueued(cfg, s, e);
        QueuedAfter(cfg, s, e, id);
        QueuedInMembers(s.jobs, s.pending);
        QueuedInLoses(s.jobs, s'.jobs, s.pending, id);
        DropKeepsPending(cfg, s, e);
      case Stutter => StutterRefines(cfg, s, e);
    }
  }

  lemma DropIsQueued(cfg: Config, s: State, e: Event)
    requires Observe(cfg, s, e).Drop?
    ensures QueuedJob(s.jobs, Observe(cfg, s, e).id)
  {
  }

  lemma DropKeepsPending(cfg: Config, s: State, e: Event)
    requires Inv(cfg, s) && Observe(cfg, s, e).Drop?
    ensures Step(cfg, s, e).pending == s.pending
  {
    hide Inv;
    QueuesAfter(cfg, s, e);
  }

  lemma PushRefines(cfg: Config, s: State, e: Event)
    requires Inv(cfg, s) && Observe(cfg, s, e).Push?
    ensures Line(Step(cfg, s, e)) == Line(s) + [Observe(cfg, s, e).id]
  {
    hide Inv, Step, Observe, QueuedJob;
    var s' := Step(cfg, s, e);
    var id := Observe(cfg, s, e).id;
    PushFacts(cfg, s, e);
    QueuesAfter(cfg, s, e);
    KnownLine(cfg, s);
    forall k | k in s.pending
      ensures QueuedJob(s'.jobs, k) <==> QueuedJob(s.jobs, k)
    {
      QueuedAfter(cfg, s, e, k);
    }
    QueuedAfter(cfg, s, e, id);
    QueuedInSame(s.jobs, s'.jobs, s.pending);
    QueuedInConcat(s'.jobs, s.pending, [id]);
    assert QueuedIn(s'.jobs, [id]) == [id];
  }

  lemma ServeRefines(cfg: Config, s: State, e: Event)
    requires Inv(cfg, s) && Observe(cfg, s, e).Serve?
    ensures Line(s) == [Observe(cfg, s, e).id] + Line(Step(cfg, s, e))
  {
    hide Inv, Step, QueuedJob;
    var s' := Step(cfg, s, e);
    var id := s.pending[0];
    QueuesAfter(cfg, s, e);
    KnownLine(cfg, s);
    HeadIsQueued(cfg, s);
    forall k | k in s.pending[1..]
      ensures QueuedJob(s'.jobs, k) <==> QueuedJob(s.jobs, k)
    {
      QueuedAfter(cfg, s, e, k);
    }
    QueuedInSame(s.jobs, s'.jobs, s.pending[1..]);
  }

  lemma HeadIsQueued(cfg: Config, s: State)
    requires Inv(cfg, s) && s.pending != [] && !StalePop(s)
    ensures QueuedJob(s.jobs, s.pending[0])
  {
    hide JobInvariant.Inv, Starts, Timers, History;
    assert s.pending[0] in s.pending;
  }

  lemma StutterRefines(cfg: Config, s: State, e: Event)
    requires Inv(cfg, s) && Observe(cfg, s, e).Stutter?
    ensures Line(Step(cfg, s, e)) == Line(s)
  {
    hide Inv, Step, QueuedJob;
    var s' := Step(cfg, s, e);
    QueuesAfter(cfg, s, e);
    KnownLine(cfg, s);
    forall k | k in s.pending
      ensures QueuedJob(s'.jobs, k) <==> QueuedJob(s.jobs, k)
    {
      QueuedAfter(cfg, s, e, k);
    }
    QueuedInSame(s.jobs, s'.jobs, s.pending);
    if e == WorkerPops && Enabled(cfg, s, e) {
      StaleHead(cfg, s);
      assert s.pending == [s.pending[0]] + s.pending[1..];
    }
  }

  lemma StaleHead(cfg: Config, s: State)
    requires Inv(cfg, s) && s.pending != [] && StalePop(s)
    ensures !QueuedJob(s.jobs, s.pending[0])
  {
    hide JobInvariant.Inv, Starts, Timers, History;
    assert PlacedJob(s, s.pending[0], s.jobs[s.pending[0]]);
  }

  // ------------------------------------------------------------------ whole runs

  /** The plain queue after a list of operations; `None` if one of them was not allowed. */
  function FifoRun(ops: seq<Op>): Option<seq<JobId>> {
    if ops == [] then Some([])
    else
      match FifoRun(ops[..|ops| - 1])
      case None => None
      case Some(q) => Apply(q, ops[|ops| - 1])
  }

  function Ops(cfg: Config, s: State, schedule: seq<Event>): seq<Op> {
    if schedule == [] then []
    else
      var before := schedule[..|schedule| - 1];
      Ops(cfg, s, before) + [Observe(cfg, Exec(cfg, s, before), schedule[|schedule| - 1])]
  }

  /** Ids pushed, or served, by a list of operations. */
  function Pushed(ops: seq<Op>): seq<JobId> {
    if ops == [] then []
    else Pushed(ops[..|ops| - 1]) + (if ops[|ops| - 1].Push? then [ops[|ops| - 1].id] else [])
  }

  function Served(ops: seq<Op>): seq<JobId> {
    if ops == [] then []
    else Served(ops[..|ops| - 1]) + (if ops[|ops| - 1].Serve? then [ops[|ops| - 1].id] else [])
  }

  /** From the empty server on, every schedule is a run of the plain queue: the live line is its
      contents, what was submitted is what was pushed, and the jobs started are those served. */
  lemma {:induction false} RunRefinesFifo(cfg: Config, schedule: seq<Event>)
    ensures var s := Exec(cfg, Init(), schedule); var ops := Ops(cfg, Init(), schedule);
      FifoRun(ops) == Some(Line(s)) && s.submitted == Pushed(ops) && s.started == Served(ops)
  {
    hide Inv, Step, Observe, Line;
    if schedule == [] {
      EmptyLine();
    } else {
      var before := schedule[..|schedule| - 1];
      var e := schedule[|schedule| - 1];
      var s := Exec(cfg, Init(), before);
      RunRefinesFifo(cfg, before);
      Always(cfg, before);
      StepRefinesFifo(cfg, s, e);
      QueuesAfter(cfg, s, e);
      var ops := Ops(cfg, Init(), schedule);
      assert ops[..|ops| - 1] == Ops(cfg, Init(), before);
    }
  }

  lemma EmptyLine()
    ensures Line(Init()) == []
  {
  }

  /** Nobody is started twice, and the order of starts is the order of submissions. */
  lemma StartsFollowSubmissions(cfg: Config, schedule: seq<Event>)
    ensures var s := Exec(cfg, Init(), schedule);
      NoDup(s.submitted) && s.started == Restrict(s.submitted, Members(s.started)) && NoDup(s.started)
  {
    hide EveryJob, Placed, Timers, History;
    var s := Exec(cfg, Init(), schedule);
    Always(cfg, schedule);
    forall id | id in s.pending
      ensures id !in Members(s.started)
    {
      PendingNotStarted(cfg, s, id);
    }
    RestrictNone(s.popped, s.pending, Members(s.started));
    RestrictNoDup(s.submitted, Members(s.started));
  }

  lemma PendingNotStarted(cfg: Config, s: State, id: JobId)
    requires Inv(cfg, s) && id in s.pending
    ensures id !in s.started
  {
    hide Inv;
    if id in s.started {
      StartedNotPending(cfg, s, id);
      assert false;
    }
  }
}
