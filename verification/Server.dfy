/** The running server: one queue object whose coroutines are resumed in any order. Whatever the
    order, the objects stand for what the state machine says, so every theorem about runs of the
    machine is a theorem about the objects. */
module Server {
  import opened Basics
  import opened Jobs
  import opened Machine
  import opened TranscriptionQueue
  import TranscribeRoute
  import ProcessJob
  import Safety
  import JobInvariant

  /** No event of the schedule comes before it can. */
  ghost predicate Legal(cfg: Config, s: State, schedule: seq<Event>) {
    forall k | 0 <= k < |schedule| :: Enabled(cfg, Exec(cfg, s, schedule[..k]), schedule[k])
  }

  /** A request arrives, and there is room for it. */
  method AcceptRequest(q: TranscriptionQueue, id: JobId, client: string)
    requires q.Valid() && Safety.Inv(q.cfg, q.Abs()) && Enabled(q.cfg, q.Abs(), Event.Reserve(id, client))
    modifies q
    ensures q.Valid() && q.Abs() == ReserveJob(old(q.Abs()), id, client)
    ensures forall o | o in q.known.Values :: o in old(q.known.Values) || fresh(o)
  {
    hide Safety.EveryJob, TranscriptionQueue.Valid, TranscriptionQueue.Abs;
    TableDomain(q);
    var job := new TranscriptionJob(id, client);
    var _ := q.Reserve(job);
  }

  lemma TableDomain(q: TranscriptionQueue)
    ensures q.Abs().jobs.Keys == q.known.Keys && q.Abs().order == q.order
  {
  }

  /** The request handler of one job goes on, up to the submission of the job. */
  method ResumeUpload(q: TranscriptionQueue, e: Event)
    requires q.Valid() && Safety.Inv(q.cfg, q.Abs()) && Enabled(q.cfg, q.Abs(), e)
    requires Safety.IsUploadEvent(e) && !e.Reserve?
    modifies q`pending, q`submitted, q`cleanupTasks, q`scheduled, q.known.Values
    ensures q.Valid() && q.known == old(q.known)
    ensures q.Abs() == Effect(q.cfg, old(q.Abs()), e)
  {
    hide TranscriptionQueue.Valid, TranscriptionQueue.Table, TranscriptionQueue.Abs, TranscriptionJob.Value;
    hide Safety.Inv, Machine.Cancel, Touch, Submit;
    OwnedAt(q, e.id);
    var job := q.known[e.id];
    match e {
      case FormAccepted(_) => TranscribeRoute.AcceptForm(q, job);
      case UploadAborted(_) => TranscribeRoute.MoveTo(q, job, Leaving);
      case SpoolMore(_, n) => TranscribeRoute.SpoolChunk(q, job, n);
      case SpoolFailed(_) => TranscribeRoute.Leave(q, job, Leaving);
      case SpoolEnd(_, file) =>
        SpoolingJob(q, e.id);
        TranscribeRoute.FinishUpload(q, job, file);
    }
  }

  /** Its event stream goes on, or the handler goes away. */
  method ResumeStream(q: TranscriptionQueue, e: Event)
    requires q.Valid() && Enabled(q.cfg, q.Abs(), e) && Safety.IsStreamEvent(e)
    modifies q`cleanupTasks, q`scheduled, q.known.Values
    ensures q.Valid() && q.known == old(q.known)
    ensures q.Abs() == Effect(q.cfg, old(q.Abs()), e)
  {
    hide TranscriptionQueue.Valid, TranscriptionQueue.Table, TranscriptionQueue.Abs, TranscriptionJob.Value;
    hide Machine.Cancel, Touch, TakeChunk, OpenStream, PositionAndEta;
    OwnedAt(q, e.id);
    var job := q.known[e.id];
    match e {
      case HandlerLeaves(_) => TranscribeRoute.Leave(q, job, Closed);
      case StreamOpens(_) => var _ := TranscribeRoute.OpenEvents(q, job);
      case StreamTakes(_) => var _ := TranscribeRoute.TakeEvent(q, job);
      case StreamIdles(_) => var _ := TranscribeRoute.KeepAliveEvent(q, job);
      case StreamDropped(_) => TranscribeRoute.Leave(q, job, Closed);
    }
  }

  /** The task of the job being processed goes on. */
  method ResumeTask(q: TranscriptionQueue, e: Event)
    requires q.Valid() && Enabled(q.cfg, q.Abs(), e) && Safety.IsTaskEvent(e)
    modifies q.known.Values
    ensures q.Valid() && q.known == old(q.known)
    ensures q.Abs() == Effect(q.cfg, old(q.Abs()), e)
  {
    hide TranscriptionQueue.Valid, TranscriptionQueue.Table, TranscriptionJob.Value;
    hide Touch, BeginTask, ReadLine, EndReply, GroqReply, EndTask;
    OwnedAt(q, q.worker.id);
    TaskStep(q, q.known[q.worker.id], e);
    q.AbsAfter(q.worker.id);
    assert q.Abs() == Touch(old(q.Abs()), q.worker.id, q.known[q.worker.id].Value()) by {
      TouchIs(old(q.Abs()), q.worker.id, q.known[q.worker.id].Value());
    }
  }

  lemma TouchIs(s: State, id: JobId, j: Job)
    ensures Touch(s, id, j) == s.(jobs := s.jobs[id := j])
  {
  }

  ghost function AfterTask(cfg: Config, j: Job, e: Event): Job
    requires Safety.IsTaskEvent(e)
    requires e.TaskRaises? || e.TaskStops? || Running(j)
  {
    match e
    case TaskBegins => BeginTask(cfg, j)
    case TaskReads(line) => ReadLine(j, line)
    case TaskReplyEnds => EndReply(j)
    case TaskGroqReply(text, duration) => GroqReply(j, text, duration)
    case TaskRaises(message, typeName) => EndTask(j, Raised(message, typeName))
    case TaskStops => EndTask(j, TaskCancelled)
  }

  method TaskStep(q: TranscriptionQueue, job: TranscriptionJob, e: Event)
    requires Safety.IsTaskEvent(e)
    requires e.TaskRaises? || e.TaskStops? || Running(job.Value())
    modifies job
    ensures job.Value() == AfterTask(q.cfg, old(job.Value()), e)
  {
    match e {
      case TaskBegins => ProcessJob.Begin(q.cfg, job);
      case TaskReads(line) => ProcessJob.ReadReplyLine(job, line);
      case TaskReplyEnds => ProcessJob.Finish(job);
      case TaskGroqReply(text, duration) => ProcessJob.FinishGroq(job, text, duration);
      case TaskRaises(message, typeName) => ProcessJob.Abort(job, Raised(message, typeName));
      case TaskStops => ProcessJob.Abort(job, TaskCancelled);
    }
  }

  /** The worker, the clean-up timers, and starting and stopping them. */
  method ResumeWorker(q: TranscriptionQueue, e: Event)
    requires q.Valid() && Safety.Inv(q.cfg, q.Abs()) && Enabled(q.cfg, q.Abs(), e)
    requires !Safety.IsUploadEvent(e) && !Safety.IsStreamEvent(e) && !Safety.IsTaskEvent(e)
    modifies q, q.known.Values
    ensures q.Valid() && q.known == old(q.known)
    ensures q.Abs() == Effect(q.cfg, old(q.Abs()), e)
  {
    hide TranscriptionQueue.Valid, TranscriptionQueue.Table, TranscriptionJob.Value;
    hide Safety.EveryJob, Safety.Books, Pop, Settle, Expire, Machine.Stop;
    match e {
      case WorkerPops => q.WorkerPops();
      case WorkerResumes =>
        OwnedAt(q, q.worker.id);
        q.WorkerResumes();
      case CleanupExpires(id) => q.CleanupJob(id);
      case Tick(delta) => q.Advance(delta);
      case StartWorker => q.StartWorker();
      case StopWorker =>
        TableDomain(q);
        q.Stop();
      case StopTimers => q.StopTimers();
    }
  }

  lemma OwnedAt(q: TranscriptionQueue, id: JobId)
    requires q.Valid() && id in q.Abs().jobs
    ensures id in q.known && TranscribeRoute.Owned(q, q.known[id]) && q.known[id].jobId == id
    ensures q.Abs().jobs[id] == q.known[id].Value()
    ensures q.known[id].handler == q.Abs().jobs[id].handler
    ensures q.known[id].chunkQueue == q.Abs().jobs[id].queue
    ensures q.known[id].processTask == q.Abs().jobs[id].task
    ensures q.Abs().worker == q.worker
  {
  }

  /** An upload that is still being spooled belongs to an UPLOADING job of the dictionary. */
  lemma SpoolingJob(q: TranscriptionQueue, id: JobId)
    requires q.Valid() && id in q.known && q.known[id].handler.Spooling?
    requires Safety.Inv(q.cfg, q.Abs())
    ensures id in q.jobs && q.known[id].status == Uploading
  {
    hide JobInvariant.Inv;
    q.KnownAt(id);
    JobInvariant.RunningInProcess(q.cfg, q.known[id].Value());
    assert Safety.PlacedJob(q.Abs(), id, q.Abs().jobs[id]);
  }

  /** One resumption of whichever coroutine the event names. */
  method Resume(q: TranscriptionQueue, e: Event)
    requires q.Valid() && Safety.Inv(q.cfg, q.Abs()) && Enabled(q.cfg, q.Abs(), e)
    modifies q, q.known.Values
    ensures q.Valid() && q.Abs() == Step(q.cfg, old(q.Abs()), e)
    ensures forall o | o in q.known.Values :: o in old(q.known.Values) || fresh(o)
  {
    hide TranscriptionQueue.Valid, TranscriptionQueue.Table, TranscriptionQueue.Abs, Safety.Inv, Enabled;
    hide Machine.Cancel, Touch, Submit, Pop, Settle, Expire, Machine.Stop;
    if e.Reserve? {
      AcceptRequest(q, e.id, e.client);
    } else if Safety.IsUploadEvent(e) {
      ResumeUpload(q, e);
    } else if Safety.IsStreamEvent(e) {
      ResumeStream(q, e);
    } else if Safety.IsTaskEvent(e) {
      ResumeTask(q, e);
    } else {
      ResumeWorker(q, e);
    }
  }

  /** A whole run of the server over any schedule: the objects end up in the machine's state, and
      the invariant of the machine holds of them. */
  method Run(cfg: Config, schedule: seq<Event>) returns (q: TranscriptionQueue)
    requires Legal(cfg, Init(), schedule)
    ensures fresh(q) && q.cfg == cfg && q.Valid()
    ensures q.Abs() == Exec(cfg, Init(), schedule) && Safety.Inv(cfg, q.Abs())
  {
    hide TranscriptionQueue.Valid, TranscriptionQueue.Table, TranscriptionQueue.Abs, Safety.Inv, Enabled, Step;
    q := new TranscriptionQueue(cfg);
    for k := 0 to |schedule|
      invariant fresh(q) && q.cfg == cfg && q.Valid()
      invariant forall o | o in q.known.Values :: fresh(o)
      invariant q.Abs() == Exec(cfg, Init(), schedule[..k])
    {
      Safety.Always(cfg, schedule[..k]);
      ExecAppend(cfg, Init(), schedule[..k], schedule[k]);
      assert schedule[..k] + [schedule[k]] == schedule[..k + 1];
      Resume(q, schedule[k]);
    }
    Safety.Always(cfg, schedule);
    assert schedule[..|schedule|] == schedule;
  }
}
