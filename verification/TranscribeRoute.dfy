/** server/routes/transcribe.py: what the request handler and its event stream do between two
    `await`s, on a queue that other coroutines change meanwhile. */
module TranscribeRoute {
  import opened Basics
  import opened Jobs
  import opened Machine
  import opened TranscriptionQueue
  import Wav

  /** `job` is one the queue has reserved, still in its dictionary or not. */
  ghost predicate Owned(q: TranscriptionQueue, job: TranscriptionJob)
    reads q`known
  {
    job.jobId in q.known && q.known[job.jobId] == job
  }

  /** The form has been read and has the right shape. */
  method AcceptForm(q: TranscriptionQueue, job: TranscriptionJob)
    requires q.Valid() && Owned(q, job)
    modifies job
    ensures q.Valid() && q.Abs() == Touch(old(q.Abs()), job.jobId, old(job.Value()).(handler := Spooling(0)))
  {
    MoveTo(q, job, Spooling(0));
  }

  method MoveTo(q: TranscriptionQueue, job: TranscriptionJob, handler: Handler)
    requires q.Valid() && Owned(q, job)
    modifies job
    ensures q.Valid() && q.Abs() == Touch(old(q.Abs()), job.jobId, old(job.Value()).(handler := handler))
  {
    hide TranscriptionQueue.Valid, TranscriptionQueue.Table;
    job.handler := handler;
    q.AbsAfter(job.jobId);
  }

  /** The handler moves on and calls `queue.cancel` for its job. */
  method Leave(q: TranscriptionQueue, job: TranscriptionJob, handler: Handler)
    requires q.Valid() && Owned(q, job)
    modifies q`cleanupTasks, q`scheduled, q.known.Values
    ensures q.Valid() && q.known == old(q.known)
    ensures Has(old(q.Abs()), job.jobId) && q.Abs() == Machine.Cancel(old(q.Abs()), job.jobId, handler)
  {
    hide TranscriptionQueue.Valid, TranscriptionQueue.Table, TranscriptionQueue.Abs, TranscriptionJob.Value;
    hide CancelJob, Conclude;
    q.KnownAt(job.jobId);
    MoveTo(q, job, handler);
    var _ := q.Cancel(job.jobId);
    TouchThenConclude(old(q.Abs()), job.jobId, old(job.Value()).(handler := handler),
                      CancelJob(old(job.Value()).(handler := handler)));
  }

  lemma TouchThenConclude(s: State, id: JobId, j: Job, k: Job)
    ensures Conclude(Touch(s, id, j), id, k) == Conclude(s, id, k)
  {
    TouchTwice(s, id, j, k);
  }

  lemma TouchTwice(s: State, id: JobId, j: Job, k: Job)
    ensures Touch(Touch(s, id, j), id, k) == Touch(s, id, k)
  {
    assert s.jobs[id := j][id := k] == s.jobs[id := k];
  }

  /** One chunk of the upload; a total over the limit is refused before it is written. */
  method SpoolChunk(q: TranscriptionQueue, job: TranscriptionJob, n: nat)
    requires q.Valid() && Owned(q, job) && job.handler.Spooling?
    modifies q`cleanupTasks, q`scheduled, q.known.Values
    ensures q.Valid() && q.known == old(q.known)
    ensures Has(old(q.Abs()), job.jobId)
    ensures var total := old(job.handler).total + n;
      q.Abs() == if total > q.cfg.maxAudioBytes then Machine.Cancel(old(q.Abs()), job.jobId, Leaving)
                 else Touch(old(q.Abs()), job.jobId, old(job.Value()).(handler := Spooling(total)))
  {
    hide TranscriptionQueue.Valid, TranscriptionQueue.Table, TranscriptionQueue.Abs, TranscriptionJob.Value;
    hide Machine.Cancel;
    q.KnownAt(job.jobId);
    var total := job.handler.total + n;
    if total > q.cfg.maxAudioBytes {
      Leave(q, job, Leaving);
    } else {
      MoveTo(q, job, Spooling(total));
    }
  }

  /** The job with the spooled file handed over. */
  ghost function WithFile(j: Job): Job
    requires j.handler.Spooling?
  {
    j.(audio := Some(j.handler.total), handler := Armed)
  }

  /** The end of the upload: an empty or unacceptable file cancels the job, any other is handed
      over and submitted; a job that `submit` refuses is cancelled after all. */
  method FinishUpload(q: TranscriptionQueue, job: TranscriptionJob, file: seq<Wav.Byte>)
    requires q.Valid() && Owned(q, job) && job.handler.Spooling?
    modifies q`pending, q`submitted, q`cleanupTasks, q`scheduled, q.known.Values
    ensures q.Valid() && q.known == old(q.known)
    ensures Has(old(q.Abs()), job.jobId)
    ensures q.Abs() ==
      if !UploadAccepted(old(job.Value()), file) then Machine.Cancel(old(q.Abs()), job.jobId, Leaving)
      else if job.jobId in old(q.jobs) && old(job.status) == Uploading then
        Submit(old(q.Abs()), job.jobId, AcceptUpload(old(job.Value())))
      else
        Machine.Cancel(Touch(old(q.Abs()), job.jobId, WithFile(old(job.Value()))), job.jobId, Leaving)
  {
    hide TranscriptionQueue.Valid, TranscriptionQueue.Table, Machine.Cancel, Wav.ReadInfo;
    q.KnownAt(job.jobId);
    q.Find(job.jobId);
    var read := Wav.ReadInfo(file);
    if job.handler.total == 0 || read.Rejected? {
      Leave(q, job, Leaving);
    } else {
      HandOver(q, job);
      var submitted := q.SubmitJob(job.jobId);
      if submitted.Submitted? {
        TouchTwice(old(q.Abs()), job.jobId, WithFile(old(job.Value())), AcceptUpload(old(job.Value())));
      } else {
        Leave(q, job, Leaving);
      }
    }
  }

  /** `job.audio_path` is set to the spooled file. */
  method HandOver(q: TranscriptionQueue, job: TranscriptionJob)
    requires q.Valid() && Owned(q, job) && job.handler.Spooling?
    modifies job
    ensures q.Valid() && job.status == old(job.status)
    ensures q.Abs() == Touch(old(q.Abs()), job.jobId, WithFile(old(job.Value())))
  {
    hide TranscriptionQueue.Valid, TranscriptionQueue.Table;
    job.audioPath := Some(job.handler.total);
    job.handler := Armed;
    q.AbsAfter(job.jobId);
  }

  /** The stream opens with the job's place in the line, or with a comment if it has none. */
  method OpenEvents(q: TranscriptionQueue, job: TranscriptionJob) returns (item: Item)
    requires q.Valid() && Owned(q, job)
    modifies job
    ensures q.Valid() && item == OpeningItem(old(job.Value()), PositionAndEta(old(q.Abs()), job.jobId))
    ensures q.Abs() == Touch(old(q.Abs()), job.jobId,
      OpenStream(old(job.Value()), PositionAndEta(old(q.Abs()), job.jobId)))
  {
    hide TranscriptionQueue.Valid, TranscriptionQueue.Table, PositionAndEta;
    var place := q.GetPositionAndEta(job.jobId);
    match place {
      case Some((position, eta)) => item := SentPosition(job.jobId, position, eta);
      case None => item := SentAccepted;
    }
    job.handler := Sending;
    job.emitted := job.emitted + [item];
    q.AbsAfter(job.jobId);
  }

  /** The stream takes what is next in the chunk queue. */
  method TakeEvent(q: TranscriptionQueue, job: TranscriptionJob) returns (items: seq<Item>)
    requires q.Valid() && Owned(q, job) && job.chunkQueue != []
    modifies job
    ensures q.Valid() && q.Abs() == Touch(old(q.Abs()), job.jobId, TakeChunk(old(job.Value())))
    ensures job.emitted == old(job.emitted) + items
  {
    hide TranscriptionQueue.Valid, TranscriptionQueue.Table, TakeChunk;
    items := NextEvents(job);
    q.AbsAfter(job.jobId);
  }

  /** A text becomes a data event; the end-of-stream mark becomes the job's outcome and ends the
      stream. */
  method NextEvents(job: TranscriptionJob) returns (items: seq<Item>)
    requires job.chunkQueue != []
    modifies job
    ensures job.Value() == TakeChunk(old(job.Value()))
    ensures job.emitted == old(job.emitted) + items
  {
    var chunk := job.chunkQueue[0];
    job.chunkQueue := job.chunkQueue[1..];
    job.taken := job.taken + [chunk];
    match chunk {
      case Some(text) => items := [SentData(text)];
      case None =>
        items := LastEvents(job);
        job.handler := Closed;
    }
    job.emitted := job.emitted + items;
  }

  method LastEvents(job: TranscriptionJob) returns (items: seq<Item>)
    ensures items == FinalItems(job.Value())
  {
    if job.status == Cancelled {
      return [];
    }
    if job.status == Failed || job.errorMessage.Some? {
      var message := match job.errorMessage case Some(m) => m case None => "";
      return [SentError(if message != "" then message else FALLBACK_ERROR)];
    }
    return [SentDone(job.jobId)];
  }

  /** Nothing came for long enough. */
  method KeepAliveEvent(q: TranscriptionQueue, job: TranscriptionJob) returns (item: Item)
    requires q.Valid() && Owned(q, job)
    modifies job
    ensures q.Valid() && q.Abs() == Touch(old(q.Abs()), job.jobId, KeepAlive(old(job.Value())))
    ensures item == SentKeepalive
  {
    hide TranscriptionQueue.Valid, TranscriptionQueue.Table;
    item := SentKeepalive;
    job.emitted := job.emitted + [item];
    q.AbsAfter(job.jobId);
  }
}
