/** Queue positions. A client is told its place among the QUEUED jobs in reservation order; the
    worker serves in submission order. Here is when the two agree. */
module Positions {
  import opened Basics
  import opened Jobs
  import opened Machine
  import opened Safety
  import opened Fifo

  /** The line the clients see. */
  function Shown(s: State): seq<JobId> { QueuedIn(s.jobs, s.order) }

  /** In every reachable state the positions of the QUEUED jobs are exactly 1..total_queued, one
      each; every other job has none. */
  lemma PositionsAreExact(cfg: Config, s: State)
    requires Inv(cfg, s)
    ensures forall id :: Position(s, id).Some? <==> QueuedJob(s.jobs, id)
    ensures forall k | 0 <= k < |Shown(s)| :: Position(s, Shown(s)[k]) == Some(k + 1)
    ensures forall id | QueuedJob(s.jobs, id) :: 1 <= Position(s, id).value <= |Shown(s)|
    ensures |Shown(s)| == |Line(s)|
  {
    hide Inv;
    KnownLine(cfg, s);
    QueuedInMembers(s.jobs, s.order);
    QueuedInNoDup(s.jobs, s.order);
    SameMembers(cfg, s);
  }

  /** Both lines hold the same jobs. */
  lemma SameMembers(cfg: Config, s: State)
    requires Inv(cfg, s)
    ensures |Shown(s)| == |Line(s)| && NoDup(Shown(s)) && NoDup(Line(s))
    ensures forall id :: id in Shown(s) <==> id in Line(s)
  {
    hide Inv;
    KnownLine(cfg, s);
    QueuedInMembers(s.jobs, s.order);
    QueuedInMembers(s.jobs, s.pending);
    QueuedInNoDup(s.jobs, s.order);
    QueuedInNoDup(s.jobs, s.pending);
    SizeOfNoDup(Shown(s));
    SizeOfNoDup(Line(s));
    assert Members(Shown(s)) == Members(Line(s));
  }

  lemma {:induction false} SizeOfNoDup(ids: seq<JobId>)
    requires NoDup(ids)
    ensures |Members(ids)| == |ids|
  {
    if ids != [] {
      var n := |ids| - 1;
      assert NoDup(ids[..n]) && ids[n] !in ids[..n];
      SizeOfNoDup(ids[..n]);
      assert ids == ids[..n] + [ids[n]];
      assert Members(ids) == Members(ids[..n]) + {ids[n]};
    }
  }

  // --------------------------------------------------- agreement with the worker

  /** The two lines are the same list. */
  ghost predicate Agree(s: State) { Shown(s) == Line(s) }

  /** How many jobs the worker will serve before this one. */
  function WaitRank(s: State, id: JobId): nat
    requires id in Line(s)
  {
    IndexOf(Line(s), id)
  }

  lemma {:induction false} IndexOfNth(ids: seq<JobId>, k: nat)
    requires NoDup(ids) && k < |ids|
    ensures IndexOf(ids, ids[k]) == k
  {
    if k > 0 {
      assert ids[0] != ids[k] && NoDup(ids[1..]) && ids[1..][k - 1] == ids[k];
      IndexOfNth(ids[1..], k - 1);
    }
  }

  lemma PlaceInLine(s: State)
    ensures forall id :: Position(s, id) == if id in Shown(s) then Some(IndexOf(Shown(s), id) + 1) else None
  {
    hide QueuedIn;
  }

  /** Every QUEUED job's position is one more than its true rank exactly when the lines agree. */
  lemma PositionIsRank(cfg: Config, s: State)
    requires Inv(cfg, s)
    ensures Agree(s) <==> forall id | id in Line(s) :: Position(s, id) == Some(WaitRank(s, id) + 1)
  {
    hide Inv, Position, QueuedIn, NoDup, Shown, Line, IndexOf;
    SameMembers(cfg, s);
    PlaceInLine(s);
    if forall id | id in Line(s) :: Position(s, id) == Some(WaitRank(s, id) + 1) {
      forall k | 0 <= k < |Line(s)|
        ensures Line(s)[k] == Shown(s)[k]
      {
        var id := Line(s)[k];
        IndexOfNth(Line(s), k);
        assert Position(s, id) == Some(k + 1);
      }
    }
  }

  // ----------------------------------------------------------- the line over time

  lemma OrderAfter(cfg: Config, s: State, e: Event)
    ensures var order' := Step(cfg, s, e).order;
      || order' == s.order
      || (e.Reserve? && e.id !in s.jobs && order' == s.order + [e.id])
      || (e.CleanupExpires? && e.id in s.timers && order' == Without(s.order, e.id))
  {
    hide Pop, Settle, Cancel, PositionAndEta;
    if Enabled(cfg, s, e) {
      if e.WorkerPops? {
        PopOrder(cfg, s);
      } else if e.WorkerResumes? {
        SettleOrder(s, s.worker.id, s.worker.start, Current(s).task.outcome, s.worker.interrupted);
      } else if (IsUploadEvent(e) && !e.Reserve?) || IsStreamEvent(e) {
        CancelOrder(s, e.id, Leaving);
        CancelOrder(s, e.id, Closed);
      }
    }
  }

  lemma CancelOrder(s: State, id: JobId, handler: Handler)
    requires id in s.jobs
    ensures Cancel(s, id, handler).order == s.order
  {
    hide Conclude, CancelJob;
    ConcludeJobs(s, id, CancelJob(s.jobs[id].(handler := handler)));
  }

  lemma SettleOrder(s: State, id: JobId, start: real, outcome: Outcome, interrupted: bool)
    requires id in s.jobs
    ensures Settle(s, id, start, outcome, interrupted).order == s.order
  {
    hide Conclude, SettleJob, NextWorker;
    ConcludeJobs(s, id, SettleJob(s.jobs[id], outcome, interrupted));
  }

  lemma PopOrder(cfg: Config, s: State)
    requires s.pending != []
    ensures Pop(cfg, s).order == s.order
  {
    hide Settle, StartJob;
    if !StalePop(s) {
      var id := s.pending[0];
      var s2 := Touch(s.(pending := s.pending[1..], popped := s.popped + [id]), id, StartJob(cfg, s.jobs[id]))
                  .(worker := Busy(id, s.clock, false), started := s.started + [id]);
      SettleOrder(s2, id, s.clock, Returned, false);
    }
  }

  lemma QueuedInWithout(jobs: map<JobId, Job>, ids: seq<JobId>, gone: JobId)
    requires !QueuedJob(jobs, gone)
    ensures QueuedIn(jobs, Without(ids, gone)) == QueuedIn(jobs, ids)
  {
    if ids != [] {
      QueuedInWithout(jobs, ids[1..], gone);
      assert ids == [ids[0]] + ids[1..];
      QueuedInConcat(jobs, [ids[0]], Without(ids[1..], gone));
    }
  }

  /** A new key is not QUEUED, a removed one was not: the order itself never changes the line. */
  lemma OrderChangeIsSilent(cfg: Config, s: State, e: Event)
    requires Inv(cfg, s)
    ensures var s' := Step(cfg, s, e); Shown(s') == QueuedIn(s'.jobs, s.order)
  {
    hide Inv, Step, QueuedJob;
    var s' := Step(cfg, s, e);
    OrderAfter(cfg, s, e);
    if e.Reserve? && e.id !in s.jobs && s'.order == s.order + [e.id] {
      NewIsNotQueued(cfg, s, e);
      QueuedInConcat(s'.jobs, s.order, [e.id]);
      assert QueuedIn(s'.jobs, [e.id]) == [];
    } else if e.CleanupExpires? && e.id in s.timers {
      ExpiredIsNotQueued(cfg, s, e.id);
      QueuedInWithout(s'.jobs, s.order, e.id);
    }
  }

  lemma NewIsNotQueued(cfg: Config, s: State, e: Event)
    requires e.Reserve? && e.id !in s.jobs
    ensures !QueuedJob(Step(cfg, s, e).jobs, e.id)
  {
  }

  lemma ExpiredIsNotQueued(cfg: Config, s: State, id: JobId)
    requires Inv(cfg, s) && id in s.timers
    ensures !QueuedJob(Step(cfg, s, CleanupExpires(id)).jobs, id)
  {
    hide Inv;
    TimerFindsJob(cfg, s, id);
  }

  /** What an event does to the line the clients see: a submitted job is inserted at the place of
      its reservation, a served or cancelled one disappears, nothing else moves. */
  lemma ShownAfter(cfg: Config, s: State, e: Event, before: seq<JobId>, after: seq<JobId>)
    requires Inv(cfg, s)
    requires Observe(cfg, s, e).Push? ==> s.order == before + [Observe(cfg, s, e).id] + after
    ensures var s' := Step(cfg, s, e); var op := Observe(cfg, s, e);
      match op
      case Push(id) =>
        && Shown(s) == QueuedIn(s.jobs, before) + QueuedIn(s.jobs, after)
        && Shown(s') == QueuedIn(s.jobs, before) + [id] + QueuedIn(s.jobs, after)
      case Stutter => Shown(s') == Shown(s)
      case _ => Shown(s') == Without(Shown(s), op.id)
  {
    hide Inv, Step, Observe, QueuedJob;
    var s' := Step(cfg, s, e);
    var op := Observe(cfg, s, e);
    OrderChangeIsSilent(cfg, s, e);
    KnownLine(cfg, s);
    forall k | k in s.order
      ensures QueuedJob(s'.jobs, k) <==> op == Push(k) || (QueuedJob(s.jobs, k) && op != Drop(k) && op != Serve(k))
    {
      QueuedAfter(cfg, s, e, k);
    }
    match op {
      case Stutter => QueuedInSame(s.jobs, s'.jobs, s.order);
      case Push(id) => PushShown(cfg, s, e, before, after);
      case Serve(id) =>
        LeaverIsKnown(cfg, s, e);
        QueuedAfter(cfg, s, e, id);
        QueuedInLoses(s.jobs, s'.jobs, s.order, id);
      case Drop(id) =>
        LeaverIsKnown(cfg, s, e);
        QueuedAfter(cfg, s, e, id);
        QueuedInLoses(s.jobs, s'.jobs, s.order, id);
    }
  }

  lemma LeaverIsKnown(cfg: Config, s: State, e: Event)
    requires Inv(cfg, s) && (Observe(cfg, s, e).Serve? || Observe(cfg, s, e).Drop?)
    ensures Observe(cfg, s, e).id in s.jobs
  {
    hide Inv;
  }

  lemma QueuedInThree(jobs: map<JobId, Job>, before: seq<JobId>, id: JobId, after: seq<JobId>)
    ensures QueuedIn(jobs, before + [id] + after)
         == QueuedIn(jobs, before) + (if QueuedJob(jobs, id) then [id] else []) + QueuedIn(jobs, after)
  {
    hide QueuedIn, QueuedJob;
    QueuedInConcat(jobs, before + [id], after);
    QueuedInConcat(jobs, before, [id]);
    QueuedInOne(jobs, id);
  }

  lemma QueuedInOne(jobs: map<JobId, Job>, id: JobId)
    ensures QueuedIn(jobs, [id]) == if QueuedJob(jobs, id) then [id] else []
  {
    assert QueuedIn(jobs, []) == [];
  }

  /** A job becomes QUEUED: it is inserted where it stands in the list. */
  lemma InsertQueued(jobs: map<JobId, Job>, jobs': map<JobId, Job>, before: seq<JobId>, id: JobId, after: seq<JobId>)
    requires !QueuedJob(jobs, id) && QueuedJob(jobs', id)
    requires forall k | k in before || k in after :: QueuedJob(jobs', k) <==> QueuedJob(jobs, k)
    ensures QueuedIn(jobs, before + [id] + after) == QueuedIn(jobs, before) + QueuedIn(jobs, after)
    ensures QueuedIn(jobs', before + [id] + after) == QueuedIn(jobs, before) + [id] + QueuedIn(jobs, after)
  {
    hide QueuedIn, QueuedJob;
    QueuedInThree(jobs, before, id, after);
    QueuedInThree(jobs', before, id, after);
    QueuedInSame(jobs, jobs', before);
    QueuedInSame(jobs, jobs', after);
  }

  lemma PushShown(cfg: Config, s: State, e: Event, before: seq<JobId>, after: seq<JobId>)
    requires Inv(cfg, s) && Observe(cfg, s, e).Push?
    requires s.order == before + [Observe(cfg, s, e).id] + after
    ensures var s' := Step(cfg, s, e); var id := Observe(cfg, s, e).id;
      && Shown(s) == QueuedIn(s.jobs, before) + QueuedIn(s.jobs, after)
      && QueuedIn(s'.jobs, s.order) == QueuedIn(s.jobs, before) + [id] + QueuedIn(s.jobs, after)
      && id !in after && id in s.order
  {
    hide Inv, Step, Observe, QueuedJob, QueuedIn;
    var s' := Step(cfg, s, e);
    var id := Observe(cfg, s, e).id;
    PushFacts(cfg, s, e);
    KnownLine(cfg, s);
    SplitNoDup(before, id, after);
    forall k | k in before || k in after
      ensures QueuedJob(s'.jobs, k) <==> QueuedJob(s.jobs, k)
    {
      assert k in s.order;
      QueuedAfter(cfg, s, e, k);
    }
    QueuedAfter(cfg, s, e, id);
    InsertQueued(s.jobs, s'.jobs, before, id, after);
  }

  lemma SplitNoDup(before: seq<JobId>, id: JobId, after: seq<JobId>)
    requires NoDup(before + [id] + after)
    ensures id !in before && id !in after
  {
    var all := before + [id] + after;
    forall i | 0 <= i < |before|
      ensures before[i] != id
    {
      assert all[i] == before[i] && all[|before|] == id;
    }
    forall i | 0 <= i < |after|
      ensures after[i] != id
    {
      assert all[|before| + 1 + i] == after[i] && all[|before|] == id;
    }
  }

  /** No QUEUED job was reserved after `id`. */
  ghost predicate LastInLine(s: State, id: JobId) {
    id in s.order && QueuedIn(s.jobs, s.order[IndexOf(s.order, id) + 1..]) == []
  }

  /** An event keeps agreeing lines in agreement exactly when it does not submit a job behind
      which, in reservation order, another is already QUEUED. */
  lemma AgreementAfter(cfg: Config, s: State, e: Event)
    requires Inv(cfg, s) && Agree(s)
    ensures var op := Observe(cfg, s, e);
      Agree(Step(cfg, s, e)) <==> (op.Push? ==> LastInLine(s, op.id))
  {
    hide Inv, Step, Observe, QueuedJob, QueuedIn;
    var op := Observe(cfg, s, e);
    StepRefinesFifo(cfg, s, e);
    if op.Push? {
      PushFacts(cfg, s, e);
      var i := IndexOf(s.order, op.id);
      var before, after := s.order[..i], s.order[i + 1..];
      assert s.order == before + [op.id] + after;
      ShownAfter(cfg, s, e, before, after);
      PushShown(cfg, s, e, before, after);
      QueuedInMembers(s.jobs, after);
      InsertedAtEnd(QueuedIn(s.jobs, before), QueuedIn(s.jobs, after), op.id, Shown(s));
    } else {
      ShownAfter(cfg, s, e, [], []);
      if op.Serve? {
        SameMembers(cfg, s);
        WithoutHead(Shown(s));
      }
    }
  }

  lemma WithoutHead(ids: seq<JobId>)
    requires ids != [] && NoDup(ids)
    ensures Without(ids, ids[0]) == ids[1..]
  {
    assert ids[0] !in ids[1..];
  }

  lemma InsertedAtEnd(a: seq<JobId>, b: seq<JobId>, id: JobId, all: seq<JobId>)
    requires all == a + b && id !in b
    ensures a + [id] + b == all + [id] <==> b == []
  {
    if b != [] {
      assert b[0] in b && (a + [id] + b)[|a|] == id && (all + [id])[|a|] == b[0];
    }
  }

  /** Every upload of the schedule is submitted while no later reservation is QUEUED. */
  ghost predicate UploadsInOrder(cfg: Config, s: State, schedule: seq<Event>) {
    forall n | 0 <= n < |schedule| ::
      var op := Observe(cfg, Exec(cfg, s, schedule[..n]), schedule[n]);
      op.Push? ==> LastInLine(Exec(cfg, s, schedule[..n]), op.id)
  }

  /** The lines agree all along a run if and only if uploads finish in reservation order. */
  lemma {:induction false} AgreementIsInOrder(cfg: Config, schedule: seq<Event>)
    ensures (forall n | 0 <= n <= |schedule| :: Agree(Exec(cfg, Init(), schedule[..n])))
      <==> UploadsInOrder(cfg, Init(), schedule)
  {
    hide Inv, Step, Observe, Agree, LastInLine;
    if schedule == [] {
      EmptyAgrees();
      assert schedule[..0] == [];
    } else {
      var n := |schedule| - 1;
      var before := schedule[..n];
      forall m | 0 <= m <= n
        ensures before[..m] == schedule[..m]
      {
      }
      AgreementIsInOrder(cfg, before);
      Always(cfg, before);
      assert schedule[..n + 1] == schedule;
      if Agree(Exec(cfg, Init(), before)) {
        AgreementAfter(cfg, Exec(cfg, Init(), before), schedule[n]);
      }
      InOrderGrows(cfg, schedule);
    }
  }

  lemma InOrderGrows(cfg: Config, schedule: seq<Event>)
    requires schedule != []
    ensures var n := |schedule| - 1; var s := Exec(cfg, Init(), schedule[..n]);
      var op := Observe(cfg, s, schedule[n]);
      UploadsInOrder(cfg, Init(), schedule) <==>
        UploadsInOrder(cfg, Init(), schedule[..n]) && (op.Push? ==> LastInLine(s, op.id))
  {
    hide Exec, Observe, LastInLine;
    var n := |schedule| - 1;
    forall m | 0 <= m < n
      ensures schedule[..n][..m] == schedule[..m]
    {
    }
  }

  /** A server whose uploads finish in reservation order tells every client its true rank. */
  lemma InOrderRunsAgree(cfg: Config, schedule: seq<Event>)
    requires UploadsInOrder(cfg, Init(), schedule)
    ensures var s := Exec(cfg, Init(), schedule);
      Agree(s) && forall id | id in Line(s) :: Position(s, id) == Some(WaitRank(s, id) + 1)
  {
    hide Inv, Exec, UploadsInOrder, Agree, Line, Position;
    AgreementIsInOrder(cfg, schedule);
    assert schedule[..|schedule|] == schedule;
    Always(cfg, schedule);
    PositionIsRank(cfg, Exec(cfg, Init(), schedule));
  }

  lemma EmptyAgrees()
    ensures Agree(Init())
  {
  }

  // --------------------------------------------------------- one job's position

  lemma {:induction false} FirstAt(a: seq<JobId>, id: JobId, b: seq<JobId>)
    requires id !in a
    ensures IndexOf(a + [id] + b, id) == |a|
  {
    if a != [] {
      assert (a + [id] + b)[1..] == a[1..] + [id] + b;
      FirstAt(a[1..], id, b);
    } else {
      assert a + [id] + b == [id] + b;
    }
  }

  lemma {:induction false} IndexInConcat(a: seq<JobId>, b: seq<JobId>, k: JobId)
    requires k in a + b
    ensures IndexOf(a + b, k) == if k in a then IndexOf(a, k) else |a| + IndexOf(b, k)
  {
    if a == [] {
      assert a + b == b;
    } else {
      assert (a + b)[1..] == a[1..] + b && (a + b)[0] == a[0];
      assert a == [a[0]] + a[1..];
      if a[0] != k {
        IndexInConcat(a[1..], b, k);
      }
    }
  }

  /** Inserting `id` pushes back by one exactly those behind it. */
  lemma IndexAfterInsert(a: seq<JobId>, id: JobId, b: seq<JobId>, k: JobId)
    requires k in a + b && k != id && NoDup(a + b)
    ensures IndexOf(a + [id] + b, k) == IndexOf(a + b, k) + (if k in b then 1 else 0)
  {
    hide IndexOf;
    IndexInConcat(a, b, k);
    IndexInConcat(a + [id], b, k);
    if k in a {
      NoDupSplit(a, b, k);
      IndexInConcat(a, [id], k);
    }
  }

  /** Removing `id` pulls forward by one exactly those behind it. */
  lemma {:induction false} IndexAfterRemoval(ids: seq<JobId>, id: JobId, k: JobId)
    requires NoDup(ids) && id in ids && k in ids && k != id
    ensures IndexOf(Without(ids, id), k) == IndexOf(ids, k) - (if IndexOf(ids, id) < IndexOf(ids, k) then 1 else 0)
  {
    assert ids == [ids[0]] + ids[1..];
    if ids[0] == id {
      assert id !in ids[1..];
    } else if ids[0] != k {
      IndexAfterRemoval(ids[1..], id, k);
    }
  }

  lemma IndexInHalf(before: seq<JobId>, id: JobId, after: seq<JobId>, k: JobId)
    requires NoDup(before + [id] + after) && k in before + [id] + after && k != id
    ensures k in after <==> IndexOf(before + [id] + after, id) < IndexOf(before + [id] + after, k)
    ensures k in before || k in after
    ensures !(k in before && k in after)
  {
    SplitNoDup(before, id, after);
    IndexInConcat(before + [id], after, k);
    IndexInConcat(before + [id], after, id);
    IndexInConcat(before, [id], id);
    if k in before {
      IndexInConcat(before, [id], k);
      NoDupSplit(before + [id], after, k);
    }
  }

  /** Exactly how one event moves the position of a job that stays QUEUED: a submission of an
      earlier reservation pushes it back by one, a job served or cancelled ahead of it pulls it
      forward by one, and nothing else matters. */
  lemma PositionAfter(cfg: Config, s: State, e: Event, k: JobId)
    requires Inv(cfg, s) && QueuedJob(s.jobs, k)
    requires Observe(cfg, s, e) != Serve(k) && Observe(cfg, s, e) != Drop(k)
    ensures var op := Observe(cfg, s, e); var p, p' := Position(s, k), Position(Step(cfg, s, e), k);
      && p.Some? && p'.Some?
      && (match op
          case Push(id) =>
            && id in s.order && k in s.order
            && p'.value == p.value + (if IndexOf(s.order, id) < IndexOf(s.order, k) then 1 else 0)
          case Stutter => p' == p
          case _ =>
            && Position(s, op.id).Some?
            && p'.value == p.value - (if Position(s, op.id).value < p.value then 1 else 0))
  {
    hide Inv, Step, Observe, QueuedJob, QueuedIn, Line;
    var op := Observe(cfg, s, e);
    KnownLine(cfg, s);
    SameMembers(cfg, s);
    QueuedInMembers(s.jobs, s.order);
    match op {
      case Push(id) => PositionAfterPush(cfg, s, e, k);
      case Stutter => ShownAfter(cfg, s, e, [], []);
      case Serve(id) =>
        ShownAfter(cfg, s, e, [], []);
        LeaverInLine(cfg, s, e);
        IndexAfterRemoval(Shown(s), id, k);
      case Drop(id) =>
        ShownAfter(cfg, s, e, [], []);
        LeaverInLine(cfg, s, e);
        IndexAfterRemoval(Shown(s), id, k);
    }
  }

  /** When uploads finish in reservation order, a position never grows while the job waits. */
  lemma PositionNeverGrows(cfg: Config, s: State, e: Event, k: JobId)
    requires Inv(cfg, s) && QueuedJob(s.jobs, k) && QueuedJob(Step(cfg, s, e).jobs, k)
    requires var op := Observe(cfg, s, e); op.Push? ==> LastInLine(s, op.id)
    ensures var p, p' := Position(s, k), Position(Step(cfg, s, e), k);
      p.Some? && p'.Some? && p'.value <= p.value
  {
    hide Inv, Step, Observe, QueuedIn, Line, Position;
    StaysQueued(cfg, s, e, k);
    PositionAfter(cfg, s, e, k);
    var op := Observe(cfg, s, e);
    if op.Push? {
      LaterIsQueued(s, k, IndexOf(s.order, op.id));
    }
  }

  /** A QUEUED key behind place `i` of the dictionary is in the line from there on. */
  lemma LaterIsQueued(s: State, k: JobId, i: nat)
    requires k in s.order && QueuedJob(s.jobs, k) && i < |s.order|
    ensures i < IndexOf(s.order, k) ==> QueuedIn(s.jobs, s.order[i + 1..]) != []
  {
    var after := s.order[i + 1..];
    QueuedInMembers(s.jobs, after);
    if i < IndexOf(s.order, k) {
      assert after[IndexOf(s.order, k) - i - 1] == k;
      assert k in QueuedIn(s.jobs, after);
    }
  }

  lemma StaysQueued(cfg: Config, s: State, e: Event, k: JobId)
    requires Inv(cfg, s) && QueuedJob(s.jobs, k) && QueuedJob(Step(cfg, s, e).jobs, k)
    ensures Observe(cfg, s, e) != Serve(k) && Observe(cfg, s, e) != Drop(k)
  {
    hide Inv, Step, Observe, QueuedIn, Line;
    QueuedAfter(cfg, s, e, k);
  }

  lemma LeaverInLine(cfg: Config, s: State, e: Event)
    requires Inv(cfg, s) && (Observe(cfg, s, e).Serve? || Observe(cfg, s, e).Drop?)
    ensures Observe(cfg, s, e).id in Shown(s)
  {
    hide Inv, Step, QueuedJob, QueuedIn, Shown, Line;
    StepRefinesFifo(cfg, s, e);
    SameMembers(cfg, s);
  }

  lemma PositionAfterPush(cfg: Config, s: State, e: Event, k: JobId)
    requires Inv(cfg, s) && QueuedJob(s.jobs, k) && Observe(cfg, s, e).Push?
    ensures var id := Observe(cfg, s, e).id; var p, p' := Position(s, k), Position(Step(cfg, s, e), k);
      && p.Some? && p'.Some? && id in s.order && k in s.order
      && p'.value == p.value + (if IndexOf(s.order, id) < IndexOf(s.order, k) then 1 else 0)
  {
    hide Inv, Step, Observe, QueuedJob, QueuedIn, Line;
    var id := Observe(cfg, s, e).id;
    PushFacts(cfg, s, e);
    KnownLine(cfg, s);
    SameMembers(cfg, s);
    QueuedInMembers(s.jobs, s.order);
    var i := IndexOf(s.order, id);
    var before, after := s.order[..i], s.order[i + 1..];
    assert s.order == before + [id] + after;
    ShownAfter(cfg, s, e, before, after);
    IndexInHalf(before, id, after, k);
    QueuedInMembers(s.jobs, after);
    IndexAfterInsert(QueuedIn(s.jobs, before), id, QueuedIn(s.jobs, after), k);
  }
}
