/** server/transcribe.py: the steps of the coroutine that processes one job. A step runs only while
    the task is live and nobody has asked for its cancellation. */
module ProcessJob {
  import opened Basics
  import opened Jobs
  import opened TranscriptionQueue
  import Transcript
  import VllmStream

  /** Down to the first request: Groq jobs are STREAMING at once, and both kinds need the audio. */
  method Begin(cfg: Config, job: TranscriptionJob)
    requires Running(job.Value())
    modifies job`status, job`processTask
    ensures job.Value() == BeginTask(cfg, old(job.Value()))
  {
    if cfg.backend.Groq? {
      job.status := Streaming;
    }
    if job.audioPath.None? {
      job.processTask := Done(Raised(NO_AUDIO, "RuntimeError"));
    } else {
      job.processTask := job.processTask.(begun := true);
    }
  }

  /** One line of vLLM's reply: a delta goes into the accumulator and the chunk queue. */
  method ReadReplyLine(job: TranscriptionJob, line: string)
    requires Running(job.Value())
    modifies job
    ensures job.Value() == ReadLine(old(job.Value()), line)
  {
    job.lines := job.lines + [line];
    match VllmStream.DeltaOfLine(line) {
      case Skip =>
      case Finished => job.processTask := job.processTask.(drained := true);
      case Chunk(text) =>
        if job.processTask.accumulated == [] {
          job.status := Streaming;
        }
        job.processTask := job.processTask.(accumulated := job.processTask.accumulated + [text]);
        job.chunkQueue := job.chunkQueue + [Some(text)];
      case Crash => job.processTask := Done(Raised("", "TypeError"));
    }
  }

  /** The reply is over: the joined text is checked, and a complaint fails the job. */
  method Finish(job: TranscriptionJob)
    requires Running(job.Value())
    modifies job`errorMessage, job`processTask
    ensures job.Value() == EndReply(old(job.Value()))
  {
    hide Transcript.Describe, Transcript.Diagnose;
    var complaint := Transcript.Validate(Concat(job.processTask.accumulated));
    match complaint {
      case None => job.processTask := Done(Returned);
      case Some(d) =>
        job.errorMessage := Some(Transcript.Describe(d));
        job.processTask := Done(Raised(Transcript.Describe(d), "RuntimeError"));
    }
  }

  /** Groq's one answer, if it has any text. */
  method FinishGroq(job: TranscriptionJob, text: string, duration: string)
    requires Running(job.Value())
    modifies job`chunkQueue, job`processTask, job`answer
    ensures job.Value() == GroqReply(old(job.Value()), text, duration)
  {
    hide GroqSegment;
    job.answer := Some(text);
    if text != "" {
      job.chunkQueue := job.chunkQueue + [Some(GroqSegment(text, duration))];
    }
    job.processTask := Done(Returned);
  }

  /** The coroutine ends by an exception, `CancelledError` included. */
  method Abort(job: TranscriptionJob, outcome: Outcome)
    modifies job`processTask
    ensures job.Value() == EndTask(old(job.Value()), outcome)
  {
    job.processTask := Done(outcome);
  }
}
