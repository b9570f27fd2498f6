/** How long `_pending` gets: the jobs in line are bounded by the capacity, the ids are not. */
module PendingLength {
  import opened Basics
  import opened Jobs
  import opened Machine
  import opened Safety
  import opened Fifo

  /** No id in `_pending` stands for a job cancelled in the meantime. */
  ghost predicate NothingStale(s: State) {
    forall id | id in s.pending :: id in s.jobs && s.jobs[id].status != Cancelled
  }

  lemma {:induction false} AllQueued(jobs: map<JobId, Job>, ids: seq<JobId>)
    ensures |QueuedIn(jobs, ids)| <= |ids|
    ensures QueuedIn(jobs, ids) == ids <==> forall id | id in ids :: QueuedJob(jobs, id)
  {
    if ids != [] {
      AllQueued(jobs, ids[1..]);
      assert ids == [ids[0]] + ids[1..];
    }
  }

  /** `_pending` is the line itself exactly when it holds no cancelled id. */
  lemma PendingIsLine(cfg: Config, s: State)
    requires Inv(cfg, s)
    ensures s.pending == Line(s) <==> NothingStale(s)
    ensures NothingStale(s) <==> forall id | id in s.pending :: QueuedJob(s.jobs, id)
  {
    hide EveryJob, Placed, Starts, Timers, History;
    AllQueued(s.jobs, s.pending);
  }

  /** The line is never longer than the capacity; `_pending` is not either while nothing in it is
      stale. */
  lemma LineIsBounded(cfg: Config, s: State)
    requires Inv(cfg, s)
    ensures |Line(s)| <= cfg.maxSize
    ensures NothingStale(s) ==> |s.pending| <= cfg.maxSize
  {
    hide EveryJob, Starts, Timers, History, QueuedIn, NothingStale;
    KnownLine(cfg, s);
    PendingIsLine(cfg, s);
    QueuedInMembers(s.jobs, s.pending);
    QueuedInNoDup(s.jobs, s.pending);
    assert Members(Line(s)) <= ActiveIds(s.jobs, s.order);
    SubsetSize(Members(Line(s)), ActiveIds(s.jobs, s.order));
    MembersSize(Line(s));
  }

  lemma {:induction false} MembersSize(ids: seq<JobId>)
    requires NoDup(ids)
    ensures |Members(ids)| == |ids|
  {
    if ids != [] {
      assert ids == [ids[0]] + ids[1..] && ids[0] !in ids[1..];
      MembersSize(ids[1..]);
      assert Members(ids) == {ids[0]} + Members(ids[1..]);
    }
  }

  /** A step leaves nothing stale behind, where nothing was, exactly when it does not cancel a job
      in line. */
  lemma StaleAfter(cfg: Config, s: State, e: Event)
    requires Inv(cfg, s) && NothingStale(s)
    ensures NothingStale(Step(cfg, s, e)) <==> !Observe(cfg, s, e).Drop?
  {
    hide Inv, Step, Observe, NothingStale, QueuedJob;
    var s', op := Step(cfg, s, e), Observe(cfg, s, e);
    KnownLine(cfg, s);
    StepKeeps(cfg, s, e);
    PendingIsLine(cfg, s);
    PendingIsLine(cfg, s');
    QueuesAfter(cfg, s, e);
    forall id | id in s.pending
      ensures QueuedJob(s'.jobs, id) <==> op != Drop(id) && op != Serve(id)
    {
      QueuedAfter(cfg, s, e, id);
    }
    match op {
      case Drop(id) => DropIsPending(cfg, s, e);
      case Push(id) => PushFacts(cfg, s, e);
        QueuedAfter(cfg, s, e, id);
      case Serve(id) => ServedIsHead(cfg, s, e);
      case Stutter => StutterPops(cfg, s, e);
    }
  }

  lemma DropIsPending(cfg: Config, s: State, e: Event)
    requires Inv(cfg, s) && Observe(cfg, s, e).Drop?
    ensures Observe(cfg, s, e).id in s.pending && Step(cfg, s, e).pending == s.pending
  {
    hide Inv, Step;
    DropIsQueued(cfg, s, e);
    KnownLine(cfg, s);
    DropKeepsPending(cfg, s, e);
  }

  lemma ServedIsHead(cfg: Config, s: State, e: Event)
    requires Inv(cfg, s) && Observe(cfg, s, e).Serve?
    ensures s.pending != [] && Observe(cfg, s, e).id == s.pending[0] && s.pending[0] !in s.pending[1..]
    ensures Step(cfg, s, e).pending == s.pending[1..]
  {
    hide Inv, Step;
    KnownLine(cfg, s);
    QueuesAfter(cfg, s, e);
  }

  lemma StutterPops(cfg: Config, s: State, e: Event)
    requires Observe(cfg, s, e).Stutter?
    ensures forall id | id in Step(cfg, s, e).pending :: id in s.pending
  {
    hide Step, Observe;
    QueuesAfter(cfg, s, e);
  }

  ghost predicate DropsNothing(cfg: Config, schedule: seq<Event>) {
    forall n | 0 <= n < |schedule| :: !Observe(cfg, Exec(cfg, Init(), schedule[..n]), schedule[n]).Drop?
  }

  /** Nothing in `_pending` is ever stale along a run if and only if no job in line is cancelled in
      it. Then `_pending` never outgrows the capacity. */
  lemma {:induction false} NeverStale(cfg: Config, schedule: seq<Event>)
    ensures (forall n | 0 <= n <= |schedule| :: NothingStale(Exec(cfg, Init(), schedule[..n])))
      <==> DropsNothing(cfg, schedule)
    ensures DropsNothing(cfg, schedule) ==> |Exec(cfg, Init(), schedule).pending| <= cfg.maxSize
  {
    hide Inv, Step, Observe, NothingStale;
    var s := Exec(cfg, Init(), schedule);
    Always(cfg, schedule);
    LineIsBounded(cfg, s);
    assert schedule[..|schedule|] == schedule;
    if schedule == [] {
      NoneAtFirst();
      assert schedule[..0] == [];
    } else {
      var n := |schedule| - 1;
      var before := schedule[..n];
      forall m | 0 <= m <= n
        ensures before[..m] == schedule[..m]
      {
      }
      NeverStale(cfg, before);
      Always(cfg, before);
      if NothingStale(Exec(cfg, Init(), before)) {
        StaleAfter(cfg, Exec(cfg, Init(), before), schedule[n]);
      }
      DropsGrow(cfg, schedule);
    }
  }

  lemma NoneAtFirst()
    ensures NothingStale(Init())
  {
  }

  lemma DropsGrow(cfg: Config, schedule: seq<Event>)
    requires schedule != []
    ensures var n := |schedule| - 1;
      DropsNothing(cfg, schedule) <==>
        DropsNothing(cfg, schedule[..n]) && !Observe(cfg, Exec(cfg, Init(), schedule[..n]), schedule[n]).Drop?
  {
    hide Exec, Observe;
    var n := |schedule| - 1;
    forall m | 0 <= m < n
      ensures schedule[..n][..m] == schedule[..m]
    {
    }
  }
}
