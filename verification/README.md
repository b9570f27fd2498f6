# Verified model of the transcription service

A client uploads a WAV file to the proxy, the backend reserves a slot, spools the file, queues a
job, a single worker has it transcribed, and the client reads the transcript from a stream of
server-sent events. This project models that path as the code takes it and proves what the
repository relies on.

The heart is the job protocol. `server/queue.py`, `server/transcribe.py` and
`server/routes/transcribe.py` share one asyncio loop, so every stretch of code between two
`await`s is atomic. `Machine.dfy` makes each such stretch one event of a state machine, and a run
is any finite schedule of events: request handlers, the worker, the task of the job in hand, the
clean-up timers, event streams, a stop at any time, and the passage of time, interleaved in any
order. All theorems about runs quantify over every schedule.

The objects of `server/queue.py` are also there as the source has them: `TranscriptionQueue.dfy`,
`ProcessJob.dfy` and `TranscribeRoute.dfy` hold classes and methods that change fields in place,
each proved to take exactly the machine's step, and `Server.Run` drives them through any schedule
and ends in the machine's state.

| files | content |
|---|---|
| Basics | options, sequences of identifiers |
| JsonText, JsonRoundTrip, JsonPrefix | `json.loads` on characters, the printers of the events, round trip, cut texts |
| JsonGrammar, JsonReading | the grammar of JSON texts; `json.loads` reads exactly that |
| VllmStream, DeltaLines, Transcript | vLLM's reply line by line, and what each kind of line means; the check of a finished transcript |
| Jobs, JobInvariant | one job, what each atomic step does to it, what is always true of it |
| Machine, Safety | the whole protocol and its invariant |
| StepEffects | what single steps do, told by what is seen before and after |
| Lifecycle, Cancellation, Fifo, PendingLength, Positions, Progress, Guarantees, QueueInfo, Ownership, Cleanup, Delivery | the theorems about runs |
| Witnesses, HappyPath | concrete runs: where the code falls short of what one may expect, and where all goes well |
| TranscriptionQueue, ProcessJob, TranscribeRoute, Server | the classes and methods, proved to refine the machine |
| Sse, Truncation, EndToEnd | the event printer against the client's parser; broken connections; transcript conservation |
| Upload, Wav, Identity, ProxyHeaders, CertRenewal | upload loops, the WAV recogniser, client identity, the proxy's headers and certificate |

## Where the code falls short

Each of these has a concrete run and an exact condition.

* A CANCELLED job becomes FAILED when the worker resumes from a task of it that did not end by
  cancellation, because it had ended before `cancel` or because it raised another exception
  afterwards (`Lifecycle.StepAdvances`; runs in `Witnesses.CancelledTurnsFailed` and
  `Witnesses.RaisingOnTheWayOut`). Whether that can happen is settled when `cancel` is called:
  `Cancellation.CancelIsFinal`.
* `stop` cancels the worker, and the worker takes the cancellation for a client's if the job it
  waits for has been cancelled meanwhile, or never sees it if the task ends by another exception;
  then it goes on, and `stop` keeps waiting. `Cancellation.StopIsObeyed` says exactly when the
  worker ends, `Witnesses.StopIsLost` is a run in which it does not. No theorem says that `stop`
  returns.
* Cancelled ids stay in `_pending` until they are popped, so its length has no bound
  (`Witnesses.PendingIsUnbounded`). Nothing in it is ever stale, and then it never outgrows
  `max_size`, exactly in the runs that cancel no QUEUED job (`PendingLength.NeverStale`).
* Positions count in reservation order while the worker serves in submission order. They agree
  along a run exactly as long as nobody submits while a later reservation is QUEUED
  (`Positions.AgreementIsInOrder`, with a run in `Witnesses.PositionIsNotRank`);
  `Positions.PositionAfter` is the exact law of a position in the general case.
* `Path::exists` also says no when it cannot tell. A renewal that is told so replaces the server's
  key (`CertRenewal.UnseenKeyIsReplaced`); `CertRenewal.IdentityIsKept` shows that nothing else
  ever does.
* A pin file whose write was cut short is not repaired by later ticks while the renewed certificate
  is valid (`CertRenewal.CutPinStays`). It is whole after a run exactly when every cut write is
  followed by one that is not (`CertRenewal.PinIsWhole`).

## Model

| member | source | states |
|---|---|---|
| Safety.Always | server/queue.py:90-263 | after every schedule the whole invariant holds: placement of every job, queue, starts, timers, history, capacity, worker, and the invariant of each job |
| Safety.StepKeeps | server/queue.py:90-263 | each atomic step of any coroutine keeps the invariant |
| Guarantees.QueueDiscipline | server/queue.py:90-126 | the active count never exceeds `max_size`; each QUEUED id is pending exactly once, any other pending id is CANCELLED; whatever is PROCESSING or STREAMING is the worker's current job; active jobs are in the table |
| Guarantees.EndMarkDiscipline | server/queue.py:244-257 | a chunk log is strings and at most one `None`, last; it is there exactly when the status is terminal, and exactly then one clean-up has been scheduled, whoever got there first |
| Guarantees.NoLeakedSlot | server/routes/transcribe.py:191-246 | a handler either still works on the upload, or is leaving, or has submitted its job; a finished handler's job holds no slot |
| Guarantees.LeavingFreesSlot | server/routes/transcribe.py:206-210 | leaving is always possible and makes the job CANCELLED and the active set smaller by exactly that job |
| Guarantees.DiskOfJob | server/queue.py:44-56 | spooled audio belongs to active jobs only, at most `max_audio_bytes` each, and every active job past its upload has its file |
| Guarantees.DiskBound | server/routes/transcribe.py:49-72 | in every reachable state the spooled audio totals at most `max_queue_size * max_audio_bytes` |
| Guarantees.SetupBudgetSuffices | setup.sh:14-20 | with the deployed limits that is less than half the storage setup asks for |
| Guarantees.EtaWindow | server/queue.py:232-237 | the history is the last min(20, n) elapsed times of jobs that completed or failed, none negative |
| Guarantees.EtaBounds | server/queue.py:169-173 | the ETA lies between position times the least and position times the greatest time of the window |
| Guarantees.EtaGrows | server/queue.py:169-173 | the ETA grows with the position |
| Guarantees.StreamGrammar | server/routes/transcribe.py:248-300 | an event stream is one opening item, data and keepalives, then at most one verdict and nothing more; its data are a prefix of the chunks and all of them with a verdict; done only for COMPLETED without error, error only for FAILED with the job's message |
| Guarantees.VerdictIsFinal | server/routes/transcribe.py:290-297 | after a verdict was sent, the job's status and error never change again |
| StepEffects.VerdictTable | server/queue.py:204-242 | the worker's verdict as a table: a task that raises makes FAILED with the text of the exception, or its class name; one that returns makes COMPLETED, or FAILED if a message was left; `CancelledError` makes CANCELLED with "Job cancelled" or "Queue stopped" by `cancel_requested` |
| StepEffects.ElapsedIsRecorded | server/queue.py:232-237 | the history of times grows by the time since the worker took the job exactly when that verdict is COMPLETED or FAILED |
| StepEffects.ClockIsTime | server/queue.py:201-237 | over any run the clock shows exactly the time that has passed, so a recorded time is that between start and resumption |
| StepEffects.EstimateIsMean | server/queue.py:169-173 | an estimate times the length of the history is the position times its sum; without history, 30 seconds each |
| StepEffects.PopStarts | server/queue.py:190-207 | a popped id whose job is QUEUED and in the table becomes PROCESSING with a fresh task, any other id changes no job |
| StepEffects.TaskBeginsRunning | server/transcribe.py:19-21 | in every reachable state the task finds its audio file when it begins; a Groq job is then STREAMING |
| StepEffects.GroqAnswers | server/transcribe.py:98-116 | Groq's answer adds exactly one chunk, which loads as one segment from 0 to the duration with that text as Content, or none for an empty text |
| StepEffects.SegmentText | server/transcribe.py:112-116 | that chunk character by character |
| StepEffects.ReplyEndIsChecked | server/transcribe.py:39-42 | at the end of vLLM's reply the task returns if the text is a list of segments, and else raises the message it leaves in the job |
| StepEffects.RoomIsExact | server/queue.py:90-95 | a reservation gets a slot exactly while fewer than `max_size` jobs of the table are active |
| StepEffects.ReserveAdds | server/queue.py:90-95 | it then files an UPLOADING job under the client that asked, last in the table, and touches no other |
| StepEffects.ChunkIsCounted | server/routes/transcribe.py:57-63 | a chunk of the upload is counted, or cancels the job when it passes the limit |
| StepEffects.UploadEnds | server/routes/transcribe.py:230-246 | an upload that is a canonical WAV file makes the job QUEUED, last in line, with that file's size; any other file makes it CANCELLED |
| StepEffects.StreamOpensWith | server/routes/transcribe.py:252-265 | the stream of a QUEUED job opens with its place in the line and the estimate for it, any other with a comment |
| StepEffects.ExpiryForgets | server/queue.py:259-263 | an expired job leaves the table and loses its file, and no other job changes |
| StepEffects.StoppedTimersAreStill | server/queue.py:84-88 | once the timers are stopped no clean-up takes place |
| Lifecycle.StepAdvances | server/queue.py:97-126 | one step never lowers the rank of a status, COMPLETED and FAILED are final, and CANCELLED turns FAILED exactly when the worker resumes from a task that did not end by cancellation, not having been cancelled itself |
| Lifecycle.RunEvolves | server/queue.py:191-231 | the same over any run, with no way back |
| Lifecycle.CancelledNeverCompletes | server/queue.py:109-126 | a job for which `cancel` returned True is CANCELLED, notified and without audio at once, frees its slot, and never becomes COMPLETED |
| Cancellation.CancelIsFinal | server/queue.py:109-126 | a job for which `cancel` returns True stays CANCELLED whatever comes later if and only if, at that moment, the worker does not wait for a begun task of it that has not ended by cancellation; a job not started yet always does |
| Cancellation.WaitingStays | server/queue.py:198-201 | until it resumes, the worker waits for the same job, remembers that it was cancelled, and a task asked to end can only end, and not normally |
| Cancellation.StopIsObeyed | server/queue.py:78-83 | a stopped idle worker ends; a busy one, whatever comes before it resumes, then ends if and only if the client did not cancel the job and the worker sees `CancelledError`, and else waits for the next job |
| Witnesses.CancelledTurnsFailed | server/queue.py:204-231 | a concrete run in which a CANCELLED job is FAILED one step later, its task having raised before the cancellation |
| Witnesses.RaisingOnTheWayOut | server/queue.py:228-231 | the same with a task that raises after the cancellation |
| Witnesses.StopIsLost | server/queue.py:208-211 | a concrete run in which the worker goes on after `stop` |
| Fifo.StepRefinesFifo | server/queue.py:188-195 | seen through the job table, `_pending` is a plain queue: each step is a push at the back, a service of the front, a removal by cancel, or nothing, and pops of stale ids are nothing |
| Fifo.RunRefinesFifo | server/queue.py:97-126 | every schedule is a run of the plain queue from empty; submissions are its pushes, starts its services |
| Fifo.StartsFollowSubmissions | server/queue.py:188-195 | jobs start in submission order and at most once, nobody is submitted twice |
| Fifo.QueuedAfter | server/queue.py:97-126 | a job is QUEUED after a step exactly when it was pushed by it or was QUEUED and neither served nor dropped |
| PendingLength.PendingIsLine | server/queue.py:191-193 | `_pending` is the line of QUEUED jobs exactly when no id in it is of a cancelled job |
| PendingLength.LineIsBounded | server/queue.py:90-95 | at most `max_size` jobs are in line, and ids in `_pending` while none is stale |
| PendingLength.StaleAfter | server/queue.py:109-126 | a step leaves a stale id where there was none exactly when it cancels a job in line |
| PendingLength.NeverStale | server/queue.py:188-195 | nothing is ever stale along a run if and only if it cancels no QUEUED job; then `_pending` stays within `max_size` |
| Witnesses.PendingIsUnbounded | server/queue.py:109-126 | for every n and every capacity, a run after which `_pending` holds n ids and no job is active |
| Positions.PositionsAreExact | server/queue.py:160-167 | positions of QUEUED jobs are exactly 1 to the number queued, one each, and other jobs have none |
| Positions.PositionIsRank | server/queue.py:160-167 | every position is the true worker rank plus one if and only if the two orders agree |
| Positions.AgreementAfter | server/queue.py:97-102 | a step keeps the orders in agreement if and only if it does not submit a job with a later reservation already QUEUED |
| Positions.AgreementIsInOrder | server/queue.py:104-107 | the orders agree all along a run if and only if uploads finish in reservation order |
| Positions.InOrderRunsAgree | server/queue.py:104-107 | in a run whose uploads finish in reservation order, positions are true ranks |
| Positions.PositionAfter | server/queue.py:160-167 | the exact change of a position by one step, in any run: pushed back by an earlier reservation submitted, pulled forward by a job served or cancelled ahead, else unchanged |
| Positions.PositionNeverGrows | server/queue.py:104-107 | when uploads finish in order, a waiting job's position never grows |
| Positions.ShownAfter | server/queue.py:131-167 | how the displayed line changes with a step |
| Witnesses.PositionIsNotRank | server/queue.py:160-167 | a concrete run in which the job shown first is served second |
| Progress.RankAfter | server/queue.py:188-195 | a waiting job's rank drops by one per service, and per cancellation ahead of it, and never rises |
| Progress.WaitingIsBounded | server/queue.py:188-242 | while a job of rank r is QUEUED, at most r jobs have started, and the jobs the worker has resumed from or is busy with are at most r and the one it had at first |
| Progress.WorkAfter | server/queue.py:188-242 | each step of the worker or its task uses up work, and only submissions add any |
| Progress.NeverStuck | server/queue.py:188-242 | while there is work and the worker is on, one of those steps is possible |
| Progress.EveryScheduleDrains | server/queue.py:188-242 | without submissions no schedule holds more worker steps than the work there was, and one that holds that many leaves `_pending` empty |
| Progress.Drains | server/queue.py:188-242 | without a stop there is a run of worker steps after which nothing is pending and every submitted job is terminal |
| QueueInfo.ListsPartitionTheTable | server/queue.py:131-153 | the lists of all clients partition the job table: each job is in its own client's list, once, in reservation order, and in no other |
| Ownership.EveryJobWasReserved | server/queue.py:90-95 | every job of a run was reserved in it, by the client it is filed under |
| Ownership.ReservedIsKept | server/routes/transcribe.py:191-191 | from its reservation on, in every run, a job is filed under the client that reserved it |
| Ownership.ListIsOwn | server/queue.py:131-153 | a client is told about exactly those jobs of the table that it reserved itself |
| Ownership.ClientsAreIsolated | server/queue.py:141-151 | what the key with one digest reserves is in that key's list while it is in the table, and never in the list of another digest |
| Ownership.TableIsInReservationOrder | server/queue.py:90-95 | the table is what is left of the reservations, in their order |
| Cleanup.FinishedJobsHaveTimers | server/queue.py:250-263 | until the timers are stopped, the jobs of the table with a timer are exactly those that are over |
| QueueInfo.PositionsToldAreExact | server/queue.py:131-153 | a listed job is told its own status, has a position if and only if it is QUEUED, and with it the estimate for that position; the positions of all clients together are 1 to `total_queued`, each once |
| JobInvariant.AcceptUploadKeeps | server/routes/transcribe.py:230-243 | handing over the file and submitting keeps the job's invariant |
| JobInvariant.HandlerCancelKeeps | server/queue.py:118-125 | so does `cancel` at any moment the handler may call it |
| JobInvariant.StartKeeps | server/queue.py:195-201 | so does the start by the worker |
| JobInvariant.BeginTaskKeeps | server/transcribe.py:19-21 | so does the first step of the task, with or without an audio file |
| JobInvariant.ReadLineKeeps | server/transcribe.py:22-37 | so does every line of vLLM's reply, and the chunk log stays equal to the reply's deltas |
| JobInvariant.EndReplyKeeps | server/transcribe.py:39-42 | so does the end of the reply; a normal return means the transcript passed the check |
| JobInvariant.GroqReplyKeeps | server/transcribe.py:104-116 | so does Groq's answer, which is at most one chunk and well formed |
| JobInvariant.EndTaskKeeps | server/queue.py:208-231 | so does an exception or a cancellation of the task |
| JobInvariant.SettleKeeps | server/queue.py:204-242 | so does the resumed worker with its `finally`, even after a cancel has already notified |
| JobInvariant.TakeChunkKeeps | server/routes/transcribe.py:283-297 | so does taking a chunk or the end mark |
| JobInvariant.OpenStreamKeeps | server/routes/transcribe.py:252-265 | so does the opening item |
| VllmStream.StreamTranscription | server/vllm_client.py:62-79 | the loop over lines computes the reply: deltas yielded and how it ended |
| VllmStream.YieldsContentsUpToDone | server/vllm_client.py:62-79 | the chunks are the non-empty delta contents of the lines before the first that stops the generator, in order; it ends by `[DONE]` exactly when that line is one |
| VllmStream.ReplyIsDeltas | server/vllm_client.py:62-79 | the same with the place of the first stop computed |
| DeltaLines.OneMoreLine | server/vllm_client.py:62-79 | what a line does, told by the line and its JSON value: without prefix, not JSON, or an event without a piece of text, nothing; with a piece, exactly that piece; `[DONE]` ends the generator; it raises exactly on JSON of an unexpected shape; after the end nothing matters |
| DeltaLines.ToldIsYielded | server/vllm_client.py:62-79 | the generator yields just the pieces the lines carry, whatever quiet lines stand between |
| DeltaLines.DoneEndsIt | server/vllm_client.py:65-67 | and `[DONE]` ends it there, whatever lines follow |
| Transcript.Validate | server/transcribe.py:45-95 | the check returns the diagnosis |
| Transcript.DiagnosisIsExact | server/transcribe.py:45-95 | there is no complaint if and only if the text is a JSON list of objects that all have "Content" |
| Transcript.FaultIsFirst | server/transcribe.py:82-95 | the segment complained about is the first bad one |
| Transcript.SegmentsPass | server/transcribe.py:45-95 | every JSON text of a list of objects with Content passes, however it is spaced, escaped and its numbers are spelled |
| Transcript.OnlySegmentsPass | server/transcribe.py:45-95 | and nothing else passes |
| Transcript.FractionsPass | server/transcribe.py:45-95 | in particular segments with fractional times, compact or spaced, whatever the Content |
| Transcript.MessagesTellApart | server/transcribe.py:45-95 | different complaints have different messages: the head of a message tells the fault, the segment and the type found in its place |
| TranscriptionQueue.TranscriptionQueue.ActiveCount | server/queue.py:175-186 | counts exactly the active jobs of the table |
| TranscriptionQueue.TranscriptionQueue.GetPosition | server/queue.py:160-167 | the loop over the table finds the rank among QUEUED jobs, or none |
| TranscriptionQueue.TranscriptionQueue.EstimateWaitFor | server/queue.py:169-173 | position times the mean of the history, or 30 seconds each |
| TranscriptionQueue.TranscriptionQueue.GetPositionAndEta | server/queue.py:155-158 | both, or neither |
| TranscriptionQueue.TranscriptionQueue.GetQueueInfo | server/queue.py:131-153 | the client's jobs in table order with status and place, and how many are QUEUED |
| TranscriptionQueue.TranscriptionQueue.Reserve | server/queue.py:90-95 | succeeds exactly when there is room, adds the job at the end of the table, else changes nothing |
| TranscriptionQueue.TranscriptionQueue.SubmitJob | server/queue.py:97-102 | an UPLOADING job becomes QUEUED and goes to the back of `_pending`; an unknown id or another status changes nothing |
| TranscriptionQueue.TranscriptionQueue.Cancel | server/queue.py:109-126 | returns True exactly for an active job of the table, whose whole new state is that of the machine's cancel, and else changes nothing |
| TranscriptionQueue.TranscriptionQueue.WorkerPops | server/queue.py:190-207 | one pop: stale ids are skipped, any other job starts |
| TranscriptionQueue.TranscriptionQueue.WorkerResumes | server/queue.py:204-242 | verdict, history, task, audio, end mark and clean-up after the awaited task |
| TranscriptionQueue.TranscriptionQueue.Settle | server/queue.py:208-242 | the `except` clauses and the `finally`, for every outcome |
| TranscriptionQueue.TranscriptionQueue.ScheduleCleanup | server/queue.py:250-257 | one timer for a job of the table, at most once |
| TranscriptionQueue.TranscriptionQueue.CleanupJob | server/queue.py:259-263 | the job leaves the table and loses its audio |
| TranscriptionQueue.TranscriptionQueue.Stop | server/queue.py:78-83 | cancels an idle worker, the live task of a busy one, or strikes when it resumes |
| TranscriptionQueue.TranscriptionQueue.StopTimers | server/queue.py:84-88 | no timer is left |
| TranscriptionQueue.TranscriptionJob.DiscardAudio | server/queue.py:44-56 | the path is gone, nothing else changes, and a second call does nothing |
| TranscriptionQueue.TranscriptionJob.NotifyTerminal | server/queue.py:244-248 | one end mark, never two |
| ProcessJob.Begin | server/transcribe.py:19-21 | Groq jobs stream at once; a missing file ends the task with its error |
| ProcessJob.ReadReplyLine | server/transcribe.py:22-37 | a delta makes the job STREAMING if it is the first, is accumulated, and is put in the chunk queue |
| ProcessJob.Finish | server/transcribe.py:39-60 | the joined text is checked; a complaint becomes the error message and the exception |
| ProcessJob.FinishGroq | server/transcribe.py:104-116 | one chunk, the segment list around the text, if there is any text, then a normal return |
| JobInvariant.GroqSegmentAnswers | server/transcribe.py:112-116 | the wrapped text, whatever it is, passes the check of VibeVoice transcripts, and its one Content is that text |
| TranscribeRoute.SpoolChunk | server/routes/transcribe.py:57-63 | the running total grows, or, over the limit, the job is cancelled |
| TranscribeRoute.FinishUpload | server/routes/transcribe.py:230-246 | an empty or refused file cancels the job, any other is handed over and submitted; a job that `submit` refuses is cancelled after all |
| TranscribeRoute.Leave | server/routes/transcribe.py:206-210 | the handler's exit calls `cancel`, whatever the job's state |
| TranscribeRoute.OpenEvents | server/routes/transcribe.py:252-265 | the opening item is the queue position, or a comment when there is none |
| TranscribeRoute.TakeEvent | server/routes/transcribe.py:273-297 | a chunk becomes a data event; the end mark becomes done, error or silence according to status and message, and closes the stream |
| Server.Resume | server/queue.py:90-263 | resuming any coroutine of the objects takes the machine's step |
| Server.Run | server/queue.py:188-242 | over any schedule the objects end in the machine's state, so the invariant holds of them |
| JsonText.DecimalRoundTrip | client/client.py:103-103 | the decimal print of a natural number reads back as it |
| JsonRoundTrip.EscapedTextReads | server/routes/transcribe.py:286-287 | an escaped string, whatever it contains, reads back unchanged and stops at its quote |
| JsonRoundTrip.EscapeHasNoControls | server/routes/transcribe.py:286-287 | an escaped string holds no control character, so no line break |
| JsonRoundTrip.LoadsInvertsPrint | client/client.py:95-95 | `json.loads` of a printed value is that value, for every value, both for the compact form and for that of `json.dumps`, which writes ASCII only |
| JsonReading.LoadsIsExact | server/transcribe.py:63-63 | `json.loads` gives a value if and only if the text spells that value by the grammar of JSON: spaces between tokens, escapes, surrogate pairs, any spelling of numbers |
| JsonRoundTrip.NumbersAreGrammar | server/transcribe.py:63-63 | the reader's numbers are those of the grammar: optional minus, digits without a leading zero, optional fraction and exponent, and `NaN` and the infinities |
| JsonRoundTrip.DumpsIsAscii | server/transcribe.py:112-116 | a string written by `json.dumps` is printable ASCII |
| JsonRoundTrip.PlainStays | server/routes/transcribe.py:286-287 | characters that need no escape are written as they are |
| JsonText.LookupIsLast | server/transcribe.py:88-93 | of equal keys the last one counts |
| JsonText.StripIsExact | server/transcribe.py:47-47 | `strip` takes the spaces off both ends and nothing else |
| JsonText.OccursIsExact | server/vllm_client.py:69-69 | `in` on a string finds exactly the substrings |
| JsonPrefix.CutObjectIsNoObject | client/client.py:95-97 | no proper beginning of a printed object loads as an object |
| JsonPrefix.ObjectEnds | client/client.py:95-97 | a text that loads as an object ends in a closing brace |
| Sse.Transcribe | client/client.py:83-122 | the client's loop computes the reading of the whole body |
| Sse.RoundTrip | client/client.py:83-122 | for any items with any text in them, parsing the printed events gives exactly the events that are not comments, in order, without an exception |
| Sse.WireFormat | server/routes/transcribe.py:248-300 | each event character by character |
| Sse.QuietLineIsSkipped | client/client.py:93-97 | a line that is neither an event type nor data with an object in it makes no difference to the client |
| Sse.UnknownEventIsSkipped | client/client.py:90-122 | nor does an event of an unknown type, whatever object it holds |
| Sse.RStripIsExact | client/client.py:89-89 | the client takes line breaks off the end of a line and nothing else |
| Sse.ItemReads | server/routes/transcribe.py:261-297 | each printed item reads as its event and leaves the client's event type at `data` |
| Truncation.CutIsPrefix | client/client.py:83-122 | a response broken anywhere, inside a line or inside a character of several bytes, reads as a prefix of its events, without an exception |
| EndToEnd.Conservation | server/transcribe.py:13-42 | for every run, every VibeVoice job and its response broken anywhere: the client's data texts are a prefix of the deltas vLLM sent before `[DONE]`; once DONE is read they are all of them, DONE comes once and last and names the job, the text passed the segment check, and the job is COMPLETED |
| EndToEnd.GroqConservation | server/transcribe.py:98-116 | the same for Groq, restated over its answer: the client reads at most one data text, and with DONE exactly the segment with Groq's answer as Content, or nothing if that was empty |
| Delivery.Delivers | server/routes/transcribe.py:268-297 | the stream of a terminal job closes after exactly as many steps as its chunk queue has entries, and sends the outcome last |
| Delivery.VerdictIsDelivered | server/routes/transcribe.py:290-297 | so a COMPLETED job ends with done and a FAILED one with its error message |
| Delivery.TranscriptArrives | client/client.py:83-122 | the client of a COMPLETED VibeVoice job that reads on has every delta and DONE |
| Delivery.AnswerArrives | client/client.py:83-122 | the client of a COMPLETED Groq job that reads on has Groq's answer and DONE |
| Delivery.RaiseIsReported | server/routes/transcribe.py:290-297 | a task that raises makes a client that reads on yield ERROR, last, with the text of the exception or its class name |
| HappyPath.EveryTranscriptCanArrive | server/transcribe.py:13-42 | for every transcript that passes the check, in any non-empty pieces, there is a run after which the client has read exactly those pieces and DONE; the reply has a role delta, blank lines, comments, a usage event and `[DONE]` around them |
| HappyPath.EveryReplyCanArrive | server/vllm_client.py:62-79 | the same for every reply that carries such a transcript among any quiet lines and ends by `[DONE]`, with anything after it |
| HappyPath.EveryAnswerCanArrive | server/transcribe.py:98-116 | for every answer of Groq there is a run after which the client has read that answer and DONE |
| Upload.LimitedRequestStream | server/routes/transcribe.py:75-98 | passes chunks on in order up to the first stall or the first that would exceed the limit, never more than the limit, with the exact reason for its end |
| Upload.SpoolUpload | server/routes/transcribe.py:49-72 | writes exactly the upload; refuses exactly the empty and the too large; the file never exceeds the limit |
| Upload.ExtractForm | server/routes/transcribe.py:155-179 | reports the first faulty item and its fault; accepts a form without faults exactly when it has an audio file, and returns that file and the hotwords |
| Upload.FaultlessForm | server/routes/transcribe.py:155-179 | the forms without faults are those of `audio` and `hotwords` only, neither twice, a file and a text without control tokens |
| Upload.FaultIsTold | server/routes/transcribe.py:155-179 | when each of the six refusals is given |
| Upload.ControlTokenIsExact | server/routes/transcribe.py:31-31 | a control token is 1 to 128 characters other than `>` and line breaks between `<` with a bar and a bar with `>` |
| Upload.FieldsOccurOnce | server/routes/transcribe.py:161-175 | in a form without faults no field occurs twice |
| Wav.AcceptsExactlyCanonical | server/audio.py:75-136 | a file is accepted if and only if it is the canonical 44-byte header for the n bytes that follow, n positive, even and n+36 below 2^32; it reports n and n/32000 |
| Wav.HeaderBytes | server/audio.py:75-136 | that header byte by byte |
| Wav.BuildThenRead | server/audio.py:133-136 | writing samples behind their header and reading them gives their size and duration |
| Wav.DecodeEncode | server/audio.py:86-100 | a little-endian field reads back as the number written |
| Wav.EncodeDecode | server/audio.py:86-100 | and the bytes of a field are those of the number read |
| Identity.HexLower | rust_proxy/src/main.rs:691-699 | the loop prints two lower-case digits per byte |
| Identity.UnhexInvertsHex | rust_proxy/src/main.rs:691-699 | the digits decode to the bytes, twice as many, all lower case |
| Identity.DigitsAreUsual | rust_proxy/src/main.rs:691-699 | each byte is printed by its high and its low half, each as the usual lower-case digit |
| Identity.IdentitiesAreDigests | server/client_identity.py:8-18 | the backend accepts exactly the strings printed for 32-byte digests, and different digests print differently |
| Identity.OneIdentityOnly | server/client_identity.py:11-18 | a request is let in exactly when it has one identity header and its value is the print of a 32-byte digest |
| Identity.BackendSeesTheProvenKey | rust_proxy/src/main.rs:947-974 | whatever headers a client sends, the backend's identity check yields the digest of the key proved to the proxy |
| ProxyHeaders.ConnectionTokens | rust_proxy/src/main.rs:116-133 | the set is exactly the names nominated by the readable `Connection` values |
| ProxyHeaders.SplitIsExact | rust_proxy/src/main.rs:122-122 | the comma-separated pieces join to the value and hold no comma |
| ProxyHeaders.NominationIsExact | rust_proxy/src/main.rs:116-133 | a value nominates exactly the names, in lower case, that stand between its commas with spaces or tabs around them |
| ProxyHeaders.AlwaysHopByHop | rust_proxy/src/main.rs:103-114 | the ten names that are always of one connection |
| ProxyHeaders.RewriteRequest | rust_proxy/src/main.rs:945-979 | the values sent under every name: the proxy's own for the names it sets, none for names of one connection and Content-Length, all of the client's in order for the rest; refused exactly when the identity is no header text |
| ProxyHeaders.OwnHeaders | rust_proxy/src/main.rs:945-979 | the names the proxy sets itself and their values, whatever the client sent under them |
| ProxyHeaders.RewriteResponse | rust_proxy/src/main.rs:1060-1081 | the values returned under every name: the proxy's security headers, none for names of one connection, Content-Length and Server, all of the backend's in order for the rest |
| ProxyHeaders.SecurityPolicy | rust_proxy/src/main.rs:209-236 | the four security headers and their values, as every client sees them |
| ProxyHeaders.ForwardingIsClean | rust_proxy/src/main.rs:945-979 | no header of the client's connection survives but those the proxy sets; rewriting again changes nothing |
| ProxyHeaders.ReturningIsClean | rust_proxy/src/main.rs:1060-1081 | the same for answers |
| CertRenewal.Renewal.Generate | rust_proxy/src/main.rs:385-485 | key and certificate files after a generation that may fail at any step |
| CertRenewal.Renewal.WritePin | rust_proxy/src/main.rs:508-524 | the pin file after a write that may fail or be cut short |
| CertRenewal.Renewal.Check | rust_proxy/src/main.rs:644-675 | one turn of the renewal loop |
| CertRenewal.Renewal.Work | rust_proxy/src/main.rs:634-676 | any number of turns |
| CertRenewal.IdentityIsKept | rust_proxy/src/main.rs:425-485 | over any ticks and failures, key, certificate, pin and every installed configuration belong to the original key if and only if no renewing tick is told that the key file is absent and writes a new one |
| CertRenewal.RenewalInstalls | rust_proxy/src/main.rs:644-675 | a tick installs a configuration if and only if the certificate is not valid and every stage of the renewal succeeds, and then it is the renewed one; a valid certificate is left alone |
| CertRenewal.InstalledIsAnnounced | rust_proxy/src/main.rs:656-674 | an installed configuration serves a certificate with its own key, and the pin file announces it |
| CertRenewal.PinIsWhole | rust_proxy/src/main.rs:508-524 | while the key is kept, a pin file that was whole is whole after any ticks if and only if every pin write cut short is followed by one that is not |
| CertRenewal.CutPinStays | rust_proxy/src/main.rs:647-662 | one concrete tick that cuts the pin file short, and no tick repairs it while the new certificate is valid |
| CertRenewal.UnseenKeyIsReplaced | rust_proxy/src/main.rs:425-469 | one concrete tick that changes the server's identity |

## Left out

- TLS, X.509, signatures, SHA-256: library code; the pin of a key is an arbitrary function of it.
- Starlette's multipart parser, FastAPI, httpx and hyper: their outputs are arbitrary chunks, fields, lines and headers. Multipart spill files are not counted as spooled audio.
- ffmpeg, the Groq request and base64: Groq's answer is an arbitrary text.
- Time: timeouts and keepalives may happen at any moment, and the monotonic clock advances by arbitrary amounts. Elapsed times and ETAs are real numbers.
- Float printing: floats are printed by an arbitrary function that yields a numeral.
- Limits of Python's parser: nesting depth and the length of integers are unbounded here. A lone surrogate in a JSON text counts as malformed.
- Sse.Transcribe: `str()`, `int()` and `float()` of a payload field of another type than the server sends count as an exception. The server never sends one.
- Transcript.Validate: the position, audio length, keys and preview behind the head of an error message are not modelled, nor are the texts of exceptions raised by malformed delta objects.
- VllmStream.StreamTranscription: a truthy delta content that is not a string counts as a failure at that line; in the code the failure comes when the chunks are joined.
- TranscriptionQueue.TranscriptionJob.DiscardAudio: removing the file and its directory is one with clearing the path.
- TranscriptionQueue.TranscriptionQueue.Settle: the branch of `server/queue.py:213-224` that awaits a task still running after the worker was cancelled is left out, because a cancelled `await` of a task ends only when the task has ended.
- TranscriptionQueue.TranscriptionQueue.Stop: says what cancelling the worker does; the return of `stop` is not claimed.
- TranscriptionQueue.TranscriptionQueue.Reserve: job ids are fresh, as `uuid4` makes them. Every job object ever reserved stays reachable, which stands for the references held by handlers and by the worker.
- Server.Run: the schedule names only events that are possible when they come; in the machine an impossible event changes nothing.
- Form closing: `form.close()` is assumed not to fail.
- A response whose generator is never started keeps its job, as in the code: the job then runs to its end without a reader.
- StripTrailers, connection permits, public routes and the body limit of the proxy: single-branch checks that would add only easy members.
- The client's request side: its multipart writer, file checks and certificate pinning.
- Shell scripts other than the storage arithmetic, service units, the HTML page, configuration validators, certificate bundles and the command line.
