/** One transcription job: the fields of `TranscriptionJob` (server/queue.py), the coroutine that
    processes it (server/transcribe.py) and the request handler that owns it
    (server/routes/transcribe.py), with what one atomic step of each does to the job. */
module Jobs {
  import opened Basics
  import opened JsonText
  import opened JsonRoundTrip
  import VllmStream
  import Transcript
  import Wav

  const JOB_CANCELLED := "Job cancelled"
  const QUEUE_STOPPED := "Queue stopped"
  const NO_AUDIO := "Job has no audio file"
  const FALLBACK_ERROR := "Transcription failed"

  /** A fresh uuid4 in hexadecimal: ASCII only, never drawn twice. */
  type JobId = string

  datatype Backend = Vibevoice | Groq | Unset

  datatype Config = Config(maxSize: nat, maxAudioBytes: nat, backend: Backend)

  datatype Status = Uploading | Queued | Processing | Streaming | Completed | Failed | Cancelled

  predicate Active(st: Status) {
    st == Uploading || st == Queued || st == Processing || st == Streaming
  }

  predicate Terminal(st: Status) { !Active(st) }

  /** How a finished task ended; a raised exception has a message and a class name. */
  datatype Outcome = Returned | Raised(message: string, typeName: string) | TaskCancelled

  /** `job.process_task`. A live task carries the locals of the coroutine; `cancelling` says that
      `task.cancel()` was called, `drained` that the reply generator has returned. */
  datatype Task =
    | NoTask
    | Live(begun: bool, cancelling: bool, drained: bool, accumulated: seq<string>)
    | Done(outcome: Outcome)

  /** Where the request handler stands: reading the form, spooling the upload, leaving with an
      error, holding a response that nobody has started to read, sending events, finished. */
  datatype Handler = Parsing | Spooling(total: nat) | Leaving | Armed | Sending | Closed

  /** What the event stream yields. */
  datatype Item =
    | SentPosition(id: JobId, position: nat, eta: real)
    | SentAccepted
    | SentKeepalive
    | SentData(text: string)
    | SentError(message: string)
    | SentDone(id: JobId)

  /** `queue` is `chunk_queue`; `taken` and `emitted` record what the event stream has removed
      from it and what it has yielded, `lines` what the task has read from vLLM and
      `answer` what Groq has said. */
  datatype Job = Job(
    id: JobId,
    client: string,
    status: Status,
    audio: Option<nat>,
    error: Option<string>,
    cancelRequested: bool,
    task: Task,
    notified: bool,
    cleanupScheduled: bool,
    queue: seq<Option<string>>,
    taken: seq<Option<string>>,
    lines: seq<string>,
    answer: Option<string>,
    handler: Handler,
    emitted: seq<Item>)

  function NewJob(id: JobId, client: string): Job {
    Job(id, client, Uploading, None, None, false, NoTask, false, false, [], [], [], None, Parsing, [])
  }

  /** Everything ever put into the chunk queue, in order. */
  function Log(j: Job): seq<Option<string>> { j.taken + j.queue }

  /** The texts among queued chunks. */
  function Texts(log: seq<Option<string>>): seq<string> {
    if log == [] then []
    else Texts(log[..|log| - 1]) + (match log[|log| - 1] case Some(t) => [t] case None => [])
  }

  /** The texts of the data events among yielded items. */
  function DataTexts(items: seq<Item>): seq<string> {
    if items == [] then []
    else
      var last := items[|items| - 1];
      DataTexts(items[..|items| - 1]) + (if last.SentData? then [last.text] else [])
  }

  // ----------------------------------------------------------- the queue's part

  function NotifyTerminal(j: Job): Job {
    if j.notified then j else j.(notified := true, queue := j.queue + [None])
  }

  function CancelTask(t: Task): Task {
    if t.Live? then t.(cancelling := true) else t
  }

  /** The part of `cancel` that concerns a job still active. */
  function CancelJob(j: Job): Job {
    NotifyTerminal(j.(cancelRequested := true, status := Cancelled, error := Some(JOB_CANCELLED),
                      task := CancelTask(j.task), audio := None))
  }

  function StartJob(cfg: Config, j: Job): Job {
    j.(status := Processing,
       task := if cfg.backend.Unset? then NoTask else Live(false, false, false, []))
  }

  /** The worker's `try`/`except` around the awaited task: `interrupted` when the worker itself
      was cancelled after the task had ended. */
  predicate SeesCancelledError(outcome: Outcome, interrupted: bool) {
    interrupted || outcome.TaskCancelled?
  }

  function VerdictStatus(j: Job, outcome: Outcome, interrupted: bool): Status {
    if SeesCancelledError(outcome, interrupted) then Cancelled
    else if outcome.Raised? || j.error.Some? then Failed
    else Completed
  }

  function VerdictError(j: Job, outcome: Outcome, interrupted: bool): Option<string> {
    if SeesCancelledError(outcome, interrupted) then
      Some(if j.cancelRequested then JOB_CANCELLED else QUEUE_STOPPED)
    else if outcome.Raised? then
      Some(if outcome.message != "" then outcome.message else outcome.typeName)
    else j.error
  }

  /** What the resumed worker leaves in the job, its `finally` included. */
  function SettleJob(j: Job, outcome: Outcome, interrupted: bool): Job {
    NotifyTerminal(j.(status := VerdictStatus(j, outcome, interrupted),
                      error := VerdictError(j, outcome, interrupted),
                      task := NoTask, audio := None))
  }

  // ---------------------------------------------------- the processing coroutine

  predicate Running(j: Job) { j.task.Live? && !j.task.cancelling }

  /** First step: Groq jobs become STREAMING at once; both backends demand the audio file. */
  function BeginTask(cfg: Config, j: Job): Job
    requires Running(j)
  {
    var j' := if cfg.backend.Groq? then j.(status := Streaming) else j;
    if j.audio.None? then j'.(task := Done(Raised(NO_AUDIO, "RuntimeError")))
    else j'.(task := j.task.(begun := true))
  }

  /** One line of vLLM's reply, with what the generator made of it. */
  function ApplyLine(j: Job, line: string, result: VllmStream.LineResult): Job
    requires Running(j)
  {
    var j' := j.(lines := j.lines + [line]);
    match result
    case Skip => j'
    case Finished => j'.(task := j.task.(drained := true))
    case Chunk(text) =>
      j'.(status := if j.task.accumulated == [] then Streaming else j.status,
          task := j.task.(accumulated := j.task.accumulated + [text]),
          queue := j.queue + [Some(text)])
    case Crash => j'.(task := Done(Raised("", "TypeError")))
  }

  function ReadLine(j: Job, line: string): Job
    requires Running(j)
  {
    ApplyLine(j, line, VllmStream.DeltaOfLine(line))
  }

  /** The reply is over: the transcript is checked and the coroutine ends. */
  function EndReply(j: Job): Job
    requires Running(j)
  {
    match Transcript.Diagnose(Concat(j.task.accumulated))
    case None => j.(task := Done(Returned))
    case Some(d) =>
      j.(error := Some(Transcript.Describe(d)),
         task := Done(Raised(Transcript.Describe(d), "RuntimeError")))
  }

  /** Groq's text as `json.dumps` prints it, in the segment format of VibeVoice; `duration` is the
      print of a float. */
  function GroqSegment(text: string, duration: string): string {
    Print(Spaced, Arr([Obj([("Start", Num("0")), ("End", Num(duration)), ("Content", Str(text))])]))
  }

  /** Groq's single answer; an empty text yields no chunk. */
  function GroqReply(j: Job, text: string, duration: string): Job {
    j.(task := Done(Returned),
       answer := Some(text),
       queue := if text != "" then j.queue + [Some(GroqSegment(text, duration))] else j.queue)
  }

  function EndTask(j: Job, outcome: Outcome): Job { j.(task := Done(outcome)) }

  // --------------------------------------------------------- the request handler

  /** The spooled file, read back: not empty, and of the one accepted shape. */
  predicate UploadAccepted(j: Job, file: seq<Wav.Byte>)
    requires j.handler.Spooling?
  {
    j.handler.total > 0 && Wav.ReadInfo(file).Accepted?
  }

  /** The spooled file is handed to the job and the job is submitted. */
  function AcceptUpload(j: Job): Job
    requires j.handler.Spooling?
  {
    j.(status := Queued, audio := Some(j.handler.total), handler := Armed)
  }

  function OpeningItem(j: Job, position: Option<(nat, real)>): Item {
    match position
    case Some((p, eta)) => SentPosition(j.id, p, eta)
    case None => SentAccepted
  }

  function OpenStream(j: Job, position: Option<(nat, real)>): Job {
    j.(handler := Sending, emitted := j.emitted + [OpeningItem(j, position)])
  }

  /** What follows the end-of-stream mark. */
  function FinalItems(j: Job): seq<Item> {
    if j.status == Cancelled then []
    else if j.status == Failed || j.error.Some? then
      [SentError(match j.error case Some(m) => if m != "" then m else FALLBACK_ERROR case None => FALLBACK_ERROR)]
    else [SentDone(j.id)]
  }

  function TakeChunk(j: Job): Job
    requires j.queue != []
  {
    var j' := j.(queue := j.queue[1..], taken := j.taken + [j.queue[0]]);
    match j.queue[0]
    case Some(text) => j'.(emitted := j.emitted + [SentData(text)])
    case None => j'.(handler := Closed, emitted := j.emitted + FinalItems(j))
  }

  function KeepAlive(j: Job): Job { j.(emitted := j.emitted + [SentKeepalive]) }

  // --------------------------------------------------------------- list algebra

  lemma TextsAppend(log: seq<Option<string>>, c: Option<string>)
    ensures Texts(log + [c]) == Texts(log) + (match c case Some(t) => [t] case None => [])
  {
    assert (log + [c])[..|log|] == log;
  }

  lemma {:induction false} TextsConcat(a: seq<Option<string>>, b: seq<Option<string>>)
    ensures Texts(a + b) == Texts(a) + Texts(b)
  {
    if b == [] {
      assert a + b == a;
    } else {
      var n := |b| - 1;
      assert a + b == (a + b[..n]) + [b[n]];
      TextsAppend(a + b[..n], b[n]);
      TextsConcat(a, b[..n]);
    }
  }

  lemma DataTextsAppend(items: seq<Item>, item: Item)
    ensures DataTexts(items + [item]) == DataTexts(items) + (if item.SentData? then [item.text] else [])
  {
    assert (items + [item])[..|items|] == items;
  }
}
