/** Concrete runs in which the code falls short of what its design suggests. The exact conditions
    are in Lifecycle, Positions and CertRenewal. */
module Witnesses {
  import opened Basics
  import opened Jobs
  import opened Machine
  import Fifo
  import Wav

  lemma ReserveStep(cfg: Config, s: State, id: JobId)
    requires id !in s.jobs && (|s.order| < cfg.maxSize || HasRoom(cfg, s))
    ensures Step(cfg, s, Event.Reserve(id, "x")) == ReserveJob(s, id, "x")
  {
    FewActive(s.jobs, s.order);
  }

  lemma {:induction false} FewActive(jobs: map<JobId, Job>, order: seq<JobId>)
    ensures |ActiveIds(jobs, order)| <= |order|
  {
    if order == [] {
      assert ActiveIds(jobs, order) == {};
    } else {
      var rest := order[1..];
      FewActive(jobs, rest);
      assert ActiveIds(jobs, order) <= ActiveIds(jobs, rest) + {order[0]};
      SubsetSize(ActiveIds(jobs, order), ActiveIds(jobs, rest) + {order[0]});
    }
  }

  /** The smallest upload: one sample of silence. */
  function OneSample(): (file: seq<Wav.Byte>)
    ensures |file| == 46
  {
    Wav.Header(2) + [0, 0]
  }

  lemma OneSampleIsAccepted()
    ensures Wav.ReadInfo(OneSample()).Accepted?
  {
    hide Wav.ReadInfo, Wav.Header;
    Wav.BuildThenRead([0, 0]);
  }

  /** The job once that has been accepted. */
  function Uploaded(id: JobId): Job {
    NewJob(id, "x").(status := Queued, audio := Some(46), handler := Armed)
  }

  function Upload(id: JobId): seq<Event> {
    [FormAccepted(id), SpoolMore(id, 46), SpoolEnd(id, OneSample())]
  }

  lemma UploadSteps(cfg: Config, s: State, id: JobId)
    requires id in s.jobs && s.jobs[id] == NewJob(id, "x") && cfg.maxAudioBytes >= 46
    ensures Exec(cfg, s, Upload(id)) == Submit(s, id, Uploaded(id))
  {
    hide Wav.ReadInfo, Wav.Header, OneSample;
    OneSampleIsAccepted();
    var s1 := Touch(s, id, s.jobs[id].(handler := Spooling(0)));
    assert Step(cfg, s, FormAccepted(id)) == s1;
    var s2 := Touch(s1, id, s.jobs[id].(handler := Spooling(46)));
    assert Step(cfg, s1, SpoolMore(id, 46)) == s2;
    var s3 := Submit(s2, id, Uploaded(id));
    assert Step(cfg, s2, SpoolEnd(id, OneSample())) == s3;
    assert s3.jobs == s.jobs[id := Uploaded(id)];
    ThreeSteps(cfg, s, FormAccepted(id), SpoolMore(id, 46), SpoolEnd(id, OneSample()));
  }

  lemma ThreeSteps(cfg: Config, s: State, a: Event, b: Event, c: Event)
    ensures Exec(cfg, s, [a, b, c]) == Step(cfg, Step(cfg, Step(cfg, s, a), b), c)
  {
    hide Step;
    assert [] + [a] == [a] && [a] + [b] == [a, b] && [a, b] + [c] == [a, b, c];
    ExecAppend(cfg, s, [], a);
    ExecAppend(cfg, s, [a], b);
    ExecAppend(cfg, s, [a, b], c);
  }

  /** Job "b" is reserved after "a" but finishes its upload first. */
  function Overtaking(): seq<Event> {
    [Event.Reserve("a", "x"), Event.Reserve("b", "x")] + Upload("b") + Upload("a")
  }

  /** The job shown at position 1 is the second that the worker will start. */
  lemma PositionIsNotRank(cfg: Config)
    requires cfg.maxSize >= 2 && cfg.maxAudioBytes >= 46
    ensures var s := Exec(cfg, Init(), Overtaking());
      Position(s, "a") == Some(1) && Fifo.Line(s) == ["b", "a"]
  {
    hide Step, Upload;
    var reserves := [Event.Reserve("a", "x"), Event.Reserve("b", "x")];
    var s1 := ReserveJob(Init(), "a", "x");
    var s2 := ReserveJob(s1, "b", "x");
    ReserveStep(cfg, Init(), "a");
    ReserveStep(cfg, s1, "b");
    TwoSteps(cfg, Init(), reserves[0], reserves[1]);
    var s3 := Submit(s2, "b", Uploaded("b"));
    UploadSteps(cfg, s2, "b");
    UploadSteps(cfg, s3, "a");
    ExecConcat(cfg, Init(), reserves, Upload("b"));
    ExecConcat(cfg, Init(), reserves + Upload("b"), Upload("a"));
    TwoQueued(Submit(s3, "a", Uploaded("a")));
  }

  lemma TwoSteps(cfg: Config, s: State, a: Event, b: Event)
    ensures Exec(cfg, s, [a, b]) == Step(cfg, Step(cfg, s, a), b)
  {
    hide Step;
    assert [] + [a] == [a] && [a] + [b] == [a, b];
    ExecAppend(cfg, s, [], a);
    ExecAppend(cfg, s, [a], b);
  }

  lemma TwoQueued(s: State)
    requires s.order == ["a", "b"] && s.pending == ["b", "a"]
    requires QueuedJob(s.jobs, "a") && QueuedJob(s.jobs, "b")
    ensures Position(s, "a") == Some(1) && Fifo.Line(s) == ["b", "a"]
  {
    assert s.order[1..] == ["b"] && s.order[1..][1..] == [];
    assert s.pending[1..] == ["a"] && s.pending[1..][1..] == [];
    assert QueuedIn(s.jobs, ["b"]) == ["b"] && QueuedIn(s.jobs, ["a"]) == ["a"];
    assert QueuedIn(s.jobs, s.order) == ["a", "b"] && QueuedIn(s.jobs, s.pending) == ["b", "a"];
  }

  /** A job is uploaded, its client connects and goes away. */
  function Visit(id: JobId): seq<Event> {
    [Event.Reserve(id, "x")] + Upload(id) + [StreamOpens(id), StreamDropped(id)]
  }

  lemma VisitLeavesId(cfg: Config, s: State, id: JobId)
    requires cfg.maxSize >= 1 && cfg.maxAudioBytes >= 46 && id !in s.jobs && ActiveIds(s.jobs, s.order) == {}
    ensures var s' := Exec(cfg, s, Visit(id));
      s'.pending == s.pending + [id] && s'.jobs.Keys == s.jobs.Keys + {id} && ActiveIds(s'.jobs, s'.order) == {}
  {
    hide Step, Upload, ActiveIds;
    var s1 := ReserveJob(s, id, "x");
    ReserveStep(cfg, s, id);
    OneStep(cfg, s, Event.Reserve(id, "x"));
    UploadSteps(cfg, s1, id);
    ExecConcat(cfg, s, [Event.Reserve(id, "x")], Upload(id));
    ExecConcat(cfg, s, [Event.Reserve(id, "x")] + Upload(id), [StreamOpens(id), StreamDropped(id)]);
    var s2 := Submit(s1, id, Uploaded(id));
    TwoSteps(cfg, s2, StreamOpens(id), StreamDropped(id));
    OpenWaiting(cfg, s2, id);
    DropWaiting(cfg, Step(cfg, s2, StreamOpens(id)), id);
    NoneIsActive(s, Exec(cfg, s, Visit(id)), id);
  }

  lemma OpenWaiting(cfg: Config, s: State, id: JobId)
    requires id in s.jobs && s.jobs[id].handler.Armed?
    ensures var s' := Step(cfg, s, StreamOpens(id));
      && s' == s.(jobs := s.jobs[id := s'.jobs[id]])
      && s'.jobs[id].status == s.jobs[id].status && s'.jobs[id].handler.Sending?
  {
    hide PositionAndEta;
  }

  lemma DropWaiting(cfg: Config, s: State, id: JobId)
    requires id in s.jobs && id in s.order && s.jobs[id].status == Queued && s.jobs[id].handler.Sending?
    ensures var s' := Step(cfg, s, StreamDropped(id));
      && s'.pending == s.pending && s'.order == s.order && s'.jobs == s.jobs[id := s'.jobs[id]]
      && s'.jobs[id].status == Cancelled
  {
  }

  lemma NoneIsActive(s: State, s': State, id: JobId)
    requires ActiveIds(s.jobs, s.order) == {} && s'.order == s.order + [id]
    requires id in s'.jobs && s'.jobs == s.jobs[id := s'.jobs[id]] && s'.jobs[id].status == Cancelled
    ensures ActiveIds(s'.jobs, s'.order) == {}
  {
    forall k | k in s'.order && k in s'.jobs
      ensures !Active(s'.jobs[k].status)
    {
      assert k != id && Active(s'.jobs[k].status) ==> k in ActiveIds(s.jobs, s.order);
    }
  }

  /** `_pending` may grow beyond any bound, whatever the capacity. */
  lemma {:induction false} PendingIsUnbounded(cfg: Config, n: nat) returns (schedule: seq<Event>)
    requires cfg.maxSize >= 1 && cfg.maxAudioBytes >= 46
    ensures var s := Exec(cfg, Init(), schedule);
      |s.pending| == n && ActiveIds(s.jobs, s.order) == {} && forall id | id in s.jobs :: |id| < n
  {
    if n == 0 {
      schedule := [];
    } else {
      var before := PendingIsUnbounded(cfg, n - 1);
      var id := seq(n - 1, _ => 'a');
      VisitLeavesId(cfg, Exec(cfg, Init(), before), id);
      ExecConcat(cfg, Init(), before, Visit(id));
      schedule := before + Visit(id);
    }
  }

  /** Job "a" is uploaded, popped, and its task begins. */
  function Started(): seq<Event> {
    [Event.Reserve("a", "x")] + Upload("a") + [StartWorker, WorkerPops, TaskBegins]
  }

  const RAISE := TaskRaises("boom", "RuntimeError")

  ghost predicate Runs(s: State) {
    && "a" in s.jobs && "a" in s.order && s.jobs["a"].status == Processing && s.jobs["a"].handler.Armed?
    && s.jobs["a"].task == Live(true, false, false, []) && BusyWithA(s)
    && s.jobs["a"].error == None && s.jobs["a"].lines == []
  }

  predicate BusyWithA(s: State) {
    s.worker.Busy? && s.worker.id == "a" && !s.worker.interrupted
  }

  lemma StartedRuns(cfg: Config)
    requires cfg.maxSize >= 1 && cfg.maxAudioBytes >= 46 && cfg.backend.Vibevoice?
    ensures Runs(Exec(cfg, Init(), Started()))
  {
    hide Step, Started, Runs;
    var s := StartedSteps(cfg);
    BeginStep(cfg, s);
  }

  /** The state before the last of these steps. */
  lemma StartedSteps(cfg: Config) returns (s: State)
    requires cfg.maxSize >= 1 && cfg.maxAudioBytes >= 46 && !cfg.backend.Unset?
    ensures Exec(cfg, Init(), Started()) == Step(cfg, s, TaskBegins)
    ensures BusyWithA(s) && s.order == ["a"] && "a" in s.jobs && s.jobs["a"] == StartJob(cfg, Uploaded("a"))
  {
    hide Step, Upload;
    var s1 := ReserveJob(Init(), "a", "x");
    ReserveStep(cfg, Init(), "a");
    OneStep(cfg, Init(), Event.Reserve("a", "x"));
    UploadSteps(cfg, s1, "a");
    ExecConcat(cfg, Init(), [Event.Reserve("a", "x")], Upload("a"));
    var s2 := Submit(s1, "a", Uploaded("a"));
    ExecConcat(cfg, Init(), [Event.Reserve("a", "x")] + Upload("a"), [StartWorker, WorkerPops, TaskBegins]);
    ThreeSteps(cfg, s2, StartWorker, WorkerPops, TaskBegins);
    IdleStep(cfg, s2);
    PopStep(cfg, s2.(worker := Idle));
    s := Step(cfg, s2.(worker := Idle), WorkerPops);
  }

  lemma OneStep(cfg: Config, s: State, a: Event)
    ensures Exec(cfg, s, [a]) == Step(cfg, s, a)
  {
    hide Step;
    assert [] + [a] == [a];
    ExecAppend(cfg, s, [], a);
  }

  lemma IdleStep(cfg: Config, s: State)
    requires s.worker.Off?
    ensures Step(cfg, s, StartWorker) == s.(worker := Idle)
  {
  }

  lemma PopStep(cfg: Config, s: State)
    requires !cfg.backend.Unset? && s.worker.Idle? && s.pending == ["a"] && s.order == ["a"]
    requires "a" in s.jobs && s.jobs["a"] == Uploaded("a")
    ensures var s' := Step(cfg, s, WorkerPops);
      BusyWithA(s') && s'.order == ["a"] && "a" in s'.jobs && s'.jobs["a"] == StartJob(cfg, Uploaded("a"))
  {
  }

  lemma BeginStep(cfg: Config, s: State)
    requires cfg.backend.Vibevoice? && BusyWithA(s) && "a" in s.order
    requires "a" in s.jobs && s.jobs["a"] == StartJob(cfg, Uploaded("a"))
    ensures Runs(Step(cfg, s, TaskBegins))
  {
  }

  // What single steps do to job "a" while the worker waits for it.

  ghost predicate InHand(s: State, handler: Handler, task: Task) {
    && "a" in s.jobs && "a" in s.order && s.jobs["a"].status == Processing && s.jobs["a"].handler == handler
    && s.jobs["a"].task == task && BusyWithA(s)
  }

  ghost predicate Dropped(s: State, task: Task) {
    && "a" in s.jobs && s.jobs["a"].status == Cancelled && s.jobs["a"].cancelRequested
    && s.jobs["a"].task == task && BusyWithA(s)
  }

  lemma OpenStep(cfg: Config, s: State, task: Task)
    requires InHand(s, Armed, task)
    ensures InHand(Step(cfg, s, StreamOpens("a")), Sending, task)
  {
    hide PositionAndEta;
  }

  lemma RaiseStep(cfg: Config, s: State, handler: Handler, task: Task)
    requires InHand(s, handler, task) && task.Live? && task.begun
    ensures InHand(Step(cfg, s, RAISE), handler, Done(Raised("boom", "RuntimeError")))
  {
  }

  lemma StopStep(cfg: Config, s: State, task: Task)
    requires InHand(s, Sending, task) && task.Live?
    ensures InHand(Step(cfg, s, StopWorker), Sending, CancelTask(task))
  {
  }

  lemma DropStep(cfg: Config, s: State, task: Task)
    requires InHand(s, Sending, task)
    ensures Dropped(Step(cfg, s, StreamDropped("a")), CancelTask(task))
  {
  }

  lemma EndStep(cfg: Config, s: State, task: Task)
    requires Dropped(s, task) && task.Live? && task.begun && task.cancelling
    ensures Dropped(Step(cfg, s, RAISE), Done(Raised("boom", "RuntimeError")))
    ensures Dropped(Step(cfg, s, TaskStops), Done(TaskCancelled))
  {
  }

  lemma FailStep(cfg: Config, s: State)
    requires Dropped(s, Done(Raised("boom", "RuntimeError")))
    ensures var s' := Step(cfg, s, WorkerResumes);
      "a" in s'.jobs && s'.jobs["a"].status == Failed && s'.jobs["a"].error == Some("boom")
  {
  }

  lemma GoOnStep(cfg: Config, s: State)
    requires Dropped(s, Done(TaskCancelled))
    ensures Step(cfg, s, WorkerResumes).worker.Idle?
  {
  }

  /** A job that `cancel` has just made CANCELLED is FAILED one step later: its task had raised an
      exception that the worker had not noticed yet. */
  lemma CancelledTurnsFailed(cfg: Config)
    requires cfg.maxSize >= 1 && cfg.maxAudioBytes >= 46 && cfg.backend.Vibevoice?
    ensures var s := Exec(cfg, Init(), Started() + [RAISE, StreamOpens("a"), StreamDropped("a")]);
      var s' := Step(cfg, s, WorkerResumes);
      && "a" in s.jobs && s.jobs["a"].status == Cancelled
      && "a" in s'.jobs && s'.jobs["a"].status == Failed && s'.jobs["a"].error == Some("boom")
  {
    hide Step, Started;
    var s := Exec(cfg, Init(), Started());
    var live, done := Live(true, false, false, []), Done(Raised("boom", "RuntimeError"));
    StartedRuns(cfg);
    ExecConcat(cfg, Init(), Started(), [RAISE, StreamOpens("a"), StreamDropped("a")]);
    ThreeSteps(cfg, s, RAISE, StreamOpens("a"), StreamDropped("a"));
    RaiseStep(cfg, s, Armed, live);
    OpenStep(cfg, Step(cfg, s, RAISE), done);
    DropStep(cfg, Step(cfg, Step(cfg, s, RAISE), StreamOpens("a")), done);
    FailStep(cfg, Exec(cfg, Init(), Started() + [RAISE, StreamOpens("a"), StreamDropped("a")]));
  }

  /** The other way to the same end: the task was running when the job was cancelled, and raised an
      exception of its own on its way out. */
  lemma RaisingOnTheWayOut(cfg: Config)
    requires cfg.maxSize >= 1 && cfg.maxAudioBytes >= 46 && cfg.backend.Vibevoice?
    ensures var s := Exec(cfg, Init(), Started() + [StreamOpens("a"), StreamDropped("a"), RAISE]);
      var s' := Step(cfg, s, WorkerResumes);
      && "a" in s.jobs && s.jobs["a"].status == Cancelled
      && "a" in s'.jobs && s'.jobs["a"].status == Failed && s'.jobs["a"].error == Some("boom")
  {
    hide Step, Started;
    var s := Exec(cfg, Init(), Started());
    var live := Live(true, false, false, []);
    StartedRuns(cfg);
    ExecConcat(cfg, Init(), Started(), [StreamOpens("a"), StreamDropped("a"), RAISE]);
    ThreeSteps(cfg, s, StreamOpens("a"), StreamDropped("a"), RAISE);
    OpenStep(cfg, s, live);
    DropStep(cfg, Step(cfg, s, StreamOpens("a")), live);
    EndStep(cfg, Step(cfg, Step(cfg, s, StreamOpens("a")), StreamDropped("a")), CancelTask(live));
    FailStep(cfg, Exec(cfg, Init(), Started() + [StreamOpens("a"), StreamDropped("a"), RAISE]));
  }

  /** A stop that is lost: the client goes away while the task is being cancelled for `stop`, and
      the worker takes the cancellation for the client's and waits for the next job. */
  lemma StopIsLost(cfg: Config)
    requires cfg.maxSize >= 1 && cfg.maxAudioBytes >= 46 && cfg.backend.Vibevoice?
    ensures var s := Exec(cfg, Init(), Started() + [StreamOpens("a"), StopWorker, StreamDropped("a")] + [TaskStops]);
      s.worker.Busy? && Step(cfg, s, WorkerResumes).worker.Idle?
  {
    hide Step, Started;
    var s := Exec(cfg, Init(), Started());
    var live := Live(true, false, false, []);
    var mid := [StreamOpens("a"), StopWorker, StreamDropped("a")];
    StartedRuns(cfg);
    ExecConcat(cfg, Init(), Started(), mid);
    ExecAppend(cfg, Init(), Started() + mid, TaskStops);
    ThreeSteps(cfg, s, StreamOpens("a"), StopWorker, StreamDropped("a"));
    OpenStep(cfg, s, live);
    StopStep(cfg, Step(cfg, s, StreamOpens("a")), live);
    DropStep(cfg, Step(cfg, Step(cfg, s, StreamOpens("a")), StopWorker), CancelTask(live));
    EndStep(cfg, Exec(cfg, Init(), Started() + mid), CancelTask(live));
    GoOnStep(cfg, Exec(cfg, Init(), Started() + mid + [TaskStops]));
  }
}
