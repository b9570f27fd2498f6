/** The whole job protocol as a state machine. Every stretch of code between two `await`s is one
    event; a run is any finite schedule of events, and an event that is not enabled changes
    nothing. */
module Machine {
  import opened Basics
  import opened Jobs
  import Wav
  import opened JsonRoundTrip
  import opened JsonGrammar

  const MAX_HISTORY := 20
  const DEFAULT_WAIT := 30.0

  /** The worker coroutine: not running, waiting for an id, or awaiting the task of one job.
      `interrupted` records a cancellation of the worker that found the task already ended. */
  datatype Worker = Off | Idle | Busy(id: JobId, start: real, interrupted: bool)

  /** `jobs` holds every job object ever reserved, `order` the keys of the dictionary `_jobs` in
      insertion order. The last five fields record history and are never read by the code. */
  datatype State = State(
    jobs: map<JobId, Job>,
    order: seq<JobId>,
    pending: seq<JobId>,
    timers: multiset<JobId>,
    times: seq<real>,
    clock: real,
    worker: Worker,
    submitted: seq<JobId>,
    popped: seq<JobId>,
    started: seq<JobId>,
    scheduled: seq<JobId>,
    finished: seq<real>)

  function Init(): State {
    State(map[], [], [], multiset{}, [], 0.0, Off, [], [], [], [], [])
  }

  datatype Event =
    // server/routes/transcribe.py: the request handler
    | Reserve(id: JobId, client: string)
    | FormAccepted(id: JobId)
    | UploadAborted(id: JobId)
    | SpoolMore(id: JobId, n: nat)
    | SpoolFailed(id: JobId)
    | SpoolEnd(id: JobId, file: seq<Wav.Byte>)
    | HandlerLeaves(id: JobId)
    | StreamOpens(id: JobId)
    | StreamTakes(id: JobId)
    | StreamIdles(id: JobId)
    | StreamDropped(id: JobId)
    // server/transcribe.py: the task of the job being processed
    | TaskBegins
    | TaskReads(line: string)
    | TaskReplyEnds
    | TaskGroqReply(text: string, duration: string)
    | TaskRaises(message: string, typeName: string)
    | TaskStops
    // server/queue.py: the worker, the clean-up timers, start and stop
    | WorkerPops
    | WorkerResumes
    | CleanupExpires(id: JobId)
    | Tick(delta: real)
    | StartWorker
    | StopWorker
    | StopTimers

  // ------------------------------------------------------------------ the queue

  predicate Has(s: State, id: JobId) { id in s.jobs }

  predicate QueuedJob(jobs: map<JobId, Job>, id: JobId) {
    id in jobs && jobs[id].status == Queued
  }

  /** Those of `ids` whose job is QUEUED. Over `order` this is the line a client sees; over
      `pending` it is the line the worker will serve. */
  function QueuedIn(jobs: map<JobId, Job>, ids: seq<JobId>): seq<JobId> {
    if ids == [] then []
    else (if QueuedJob(jobs, ids[0]) then [ids[0]] else []) + QueuedIn(jobs, ids[1..])
  }

  /** `_active_count()` counts the members of this set. */
  function ActiveIds(jobs: map<JobId, Job>, order: seq<JobId>): set<JobId> {
    set id | id in order && id in jobs && Active(jobs[id].status)
  }

  function IndexOf(ids: seq<JobId>, id: JobId): (k: nat)
    requires id in ids
    ensures k < |ids| && ids[k] == id && id !in ids[..k]
  {
    if ids[0] == id then 0 else 1 + IndexOf(ids[1..], id)
  }

  /** `_get_position`: the place of a QUEUED job among the QUEUED jobs, in reservation order. */
  function Position(s: State, id: JobId): Option<nat> {
    var line := QueuedIn(s.jobs, s.order);
    if id in line then Some(IndexOf(line, id) + 1) else None
  }

  function Sum(xs: seq<real>): real {
    if xs == [] then 0.0 else Sum(xs[..|xs| - 1]) + xs[|xs| - 1]
  }

  /** `_estimate_wait`, over the reals. */
  function EstimateWait(times: seq<real>, position: nat): real {
    if times == [] then position as real * DEFAULT_WAIT
    else position as real * (Sum(times) / |times| as real)
  }

  function PositionAndEta(s: State, id: JobId): Option<(nat, real)> {
    match Position(s, id)
    case None => None
    case Some(p) => Some((p, EstimateWait(s.times, p)))
  }

  function Touch(s: State, id: JobId, j: Job): State { s.(jobs := s.jobs[id := j]) }

  predicate HasRoom(cfg: Config, s: State) { |ActiveIds(s.jobs, s.order)| < cfg.maxSize }

  function ReserveJob(s: State, id: JobId, client: string): State {
    Touch(s, id, NewJob(id, client)).(order := s.order + [id])
  }

  function Submit(s: State, id: JobId, j: Job): State {
    Touch(s, id, j).(pending := s.pending + [id], submitted := s.submitted + [id])
  }

  function ScheduleCleanup(s: State, id: JobId): State {
    if id !in s.order || id !in s.jobs || s.jobs[id].cleanupScheduled then s
    else
      Touch(s, id, s.jobs[id].(cleanupScheduled := true))
        .(timers := s.timers + multiset{id}, scheduled := s.scheduled + [id])
  }

  /** A job is written back after a terminal notification, and its clean-up is scheduled. */
  function Conclude(s: State, id: JobId, j: Job): State { ScheduleCleanup(Touch(s, id, j), id) }

  predicate CanCancel(s: State, id: JobId) {
    id in s.order && id in s.jobs && Active(s.jobs[id].status)
  }

  /** `cancel`, after the handler has already moved on to `handler`. */
  function Cancel(s: State, id: JobId, handler: Handler): State
    requires Has(s, id)
  {
    var j := s.jobs[id].(handler := handler);
    if CanCancel(s, id) then Conclude(s, id, CancelJob(j)) else Touch(s, id, j)
  }

  function Keep(times: seq<real>, elapsed: real): seq<real> {
    var longer := times + [elapsed];
    if |longer| > MAX_HISTORY then longer[1..] else longer
  }

  /** The processing time of a job that completed or failed enters the history. */
  function Record(s: State, elapsed: real): State {
    s.(times := Keep(s.times, elapsed), finished := s.finished + [elapsed])
  }

  /** A settled job is written back, and the worker moves on to `w`. */
  function Settled(s: State, id: JobId, j: Job, w: Worker, elapsed: real): State {
    var s' := Conclude(s, id, j).(worker := w);
    if j.status == Completed || j.status == Failed then Record(s', elapsed) else s'
  }

  function NextWorker(j: Job, outcome: Outcome, interrupted: bool): Worker {
    if SeesCancelledError(outcome, interrupted) && !j.cancelRequested then Off else Idle
  }

  /** The end of one worker iteration, `finally` included. */
  function Settle(s: State, id: JobId, start: real, outcome: Outcome, interrupted: bool): State
    requires Has(s, id)
  {
    Settled(s, id, SettleJob(s.jobs[id], outcome, interrupted),
            NextWorker(s.jobs[id], outcome, interrupted), s.clock - start)
  }

  predicate StalePop(s: State)
    requires s.pending != []
  {
    var id := s.pending[0];
    id !in s.order || id !in s.jobs || s.jobs[id].status == Cancelled
  }

  function Pop(cfg: Config, s: State): State
    requires s.pending != []
  {
    var id := s.pending[0];
    var s1 := s.(pending := s.pending[1..], popped := s.popped + [id]);
    if StalePop(s) then s1
    else
      var s2 := Touch(s1, id, StartJob(cfg, s.jobs[id]))
                  .(worker := Busy(id, s.clock, false), started := s.started + [id]);
      if cfg.backend.Unset? then Settle(s2, id, s.clock, Returned, false) else s2
  }

  /** `_worker_task.cancel()`: an idle worker ends; a cancellation of a waiting worker is passed on
      to the task it waits for, or, if that has ended, strikes when the worker resumes. */
  function Stop(s: State): State {
    match s.worker
    case Off => s
    case Idle => s.(worker := Off)
    case Busy(id, start, interrupted) =>
      if id in s.jobs && s.jobs[id].task.Live? then
        Touch(s, id, s.jobs[id].(task := CancelTask(s.jobs[id].task)))
      else s.(worker := Busy(id, start, true))
  }

  /** `_cleanup_job` after its sleep. */
  function Expire(s: State, id: JobId): State {
    var s1 := s.(timers := s.timers - multiset{id});
    if id in s.order && id in s.jobs then
      Touch(s1, id, s.jobs[id].(audio := None)).(order := Without(s.order, id))
    else s1
  }

  // --------------------------------------------------------------------- events

  predicate TaskRuns(s: State) {
    s.worker.Busy? && s.worker.id in s.jobs && Running(s.jobs[s.worker.id])
  }

  function Current(s: State): Job
    requires s.worker.Busy? && s.worker.id in s.jobs
  {
    s.jobs[s.worker.id]
  }

  predicate Enabled(cfg: Config, s: State, e: Event) {
    match e
    case Reserve(id, _) => id !in s.jobs && HasRoom(cfg, s)
    case FormAccepted(id) => id in s.jobs && s.jobs[id].handler.Parsing?
    case UploadAborted(id) => id in s.jobs && (s.jobs[id].handler.Parsing? || s.jobs[id].handler.Spooling?)
    case SpoolMore(id, n) => id in s.jobs && s.jobs[id].handler.Spooling? && n > 0
    case SpoolFailed(id) => id in s.jobs && s.jobs[id].handler.Spooling?
    case SpoolEnd(id, file) => id in s.jobs && s.jobs[id].handler.Spooling? && |file| == s.jobs[id].handler.total
    case HandlerLeaves(id) => id in s.jobs && s.jobs[id].handler.Leaving?
    case StreamOpens(id) => id in s.jobs && s.jobs[id].handler.Armed?
    case StreamTakes(id) => id in s.jobs && s.jobs[id].handler.Sending? && s.jobs[id].queue != []
    case StreamIdles(id) => id in s.jobs && s.jobs[id].handler.Sending?
    case StreamDropped(id) => id in s.jobs && s.jobs[id].handler.Sending?
    case TaskBegins => TaskRuns(s) && !Current(s).task.begun
    case TaskReads(_) => TaskRuns(s) && Current(s).task.begun && !Current(s).task.drained && cfg.backend.Vibevoice?
    case TaskReplyEnds => TaskRuns(s) && Current(s).task.begun && cfg.backend.Vibevoice?
    case TaskGroqReply(_, duration) =>
      TaskRuns(s) && Current(s).task.begun && cfg.backend.Groq? && IsNumeral(duration)
    case TaskRaises(_, typeName) =>
      s.worker.Busy? && s.worker.id in s.jobs && Current(s).task.Live? && Current(s).task.begun && typeName != ""
    case TaskStops => s.worker.Busy? && s.worker.id in s.jobs && Current(s).task.Live? && Current(s).task.cancelling
    case WorkerPops => s.worker.Idle? && s.pending != []
    case WorkerResumes => s.worker.Busy? && s.worker.id in s.jobs && Current(s).task.Done?
    case CleanupExpires(id) => id in s.timers
    case Tick(delta) => delta >= 0.0
    case StartWorker => s.worker.Off?
    case StopWorker => true
    case StopTimers => s.worker.Off?
  }

  function Effect(cfg: Config, s: State, e: Event): State
    requires Enabled(cfg, s, e)
  {
    match e
    case Reserve(id, client) => ReserveJob(s, id, client)
    case FormAccepted(id) => Touch(s, id, s.jobs[id].(handler := Spooling(0)))
    case UploadAborted(id) => Touch(s, id, s.jobs[id].(handler := Leaving))
    case SpoolMore(id, n) =>
      var total := s.jobs[id].handler.total + n;
      if total > cfg.maxAudioBytes then Cancel(s, id, Leaving)
      else Touch(s, id, s.jobs[id].(handler := Spooling(total)))
    case SpoolFailed(id) => Cancel(s, id, Leaving)
    case SpoolEnd(id, file) =>
      if UploadAccepted(s.jobs[id], file) then Submit(s, id, AcceptUpload(s.jobs[id]))
      else Cancel(s, id, Leaving)
    case HandlerLeaves(id) => Cancel(s, id, Closed)
    case StreamOpens(id) => Touch(s, id, OpenStream(s.jobs[id], PositionAndEta(s, id)))
    case StreamTakes(id) => Touch(s, id, TakeChunk(s.jobs[id]))
    case StreamIdles(id) => Touch(s, id, KeepAlive(s.jobs[id]))
    case StreamDropped(id) => Cancel(s, id, Closed)
    case TaskBegins => Touch(s, s.worker.id, BeginTask(cfg, Current(s)))
    case TaskReads(line) => Touch(s, s.worker.id, ReadLine(Current(s), line))
    case TaskReplyEnds => Touch(s, s.worker.id, EndReply(Current(s)))
    case TaskGroqReply(text, duration) => Touch(s, s.worker.id, GroqReply(Current(s), text, duration))
    case TaskRaises(message, typeName) => Touch(s, s.worker.id, EndTask(Current(s), Raised(message, typeName)))
    case TaskStops => Touch(s, s.worker.id, EndTask(Current(s), TaskCancelled))
    case WorkerPops => Pop(cfg, s)
    case WorkerResumes =>
      Settle(s, s.worker.id, s.worker.start, Current(s).task.outcome, s.worker.interrupted)
    case CleanupExpires(id) => Expire(s, id)
    case Tick(delta) => s.(clock := s.clock + delta)
    case StartWorker => s.(worker := Idle)
    case StopWorker => Stop(s)
    case StopTimers => s.(timers := multiset{})
  }

  function Step(cfg: Config, s: State, e: Event): State {
    if Enabled(cfg, s, e) then Effect(cfg, s, e) else s
  }

  /** The state after a whole schedule. */
  function Exec(cfg: Config, s: State, schedule: seq<Event>): State {
    if schedule == [] then s
    else Step(cfg, Exec(cfg, s, schedule[..|schedule| - 1]), schedule[|schedule| - 1])
  }

  /** `Conclude` writes one job, give or take its clean-up flag. */
  lemma ConcludeJobs(s: State, id: JobId, j: Job)
    ensures var s' := Conclude(s, id, j);
      s'.jobs == s.jobs[id := j] || s'.jobs == s.jobs[id := j.(cleanupScheduled := true)]
    ensures var s' := Conclude(s, id, j);
      s' == s.(jobs := s'.jobs, timers := s'.timers, scheduled := s'.scheduled)
  {
  }

  lemma ExecAppend(cfg: Config, s: State, schedule: seq<Event>, e: Event)
    ensures Exec(cfg, s, schedule + [e]) == Step(cfg, Exec(cfg, s, schedule), e)
  {
    assert (schedule + [e])[..|schedule|] == schedule;
  }

  lemma {:induction false} ExecConcat(cfg: Config, s: State, a: seq<Event>, b: seq<Event>)
    ensures Exec(cfg, s, a + b) == Exec(cfg, Exec(cfg, s, a), b)
  {
    hide Step;
    if b == [] {
      assert a + b == a;
    } else {
      var n := |b| - 1;
      assert a + b == (a + b[..n]) + [b[n]];
      ExecAppend(cfg, s, a + b[..n], b[n]);
      ExecConcat(cfg, s, a, b[..n]);
    }
  }
}
