/** Finished jobs do leave the table: each has its timer until it is gone. */
module Cleanup {
  import opened Basics
  import opened Jobs
  import opened Machine
  import opened Safety
  import Positions
  import JobInvariant
  import StepEffects

  /** At most one clean-up is scheduled, and then its timer runs. */
  ghost predicate Scheduled(s: State, s': State) {
    || (s'.timers == s.timers && s'.scheduled == s.scheduled)
    || exists id :: s'.timers == s.timers + multiset{id} && s'.scheduled == s.scheduled + [id]
  }

  lemma ConcludeSchedules(s: State, id: JobId, j: Job)
    ensures Scheduled(s, Conclude(s, id, j))
  {
  }

  lemma CancelSchedules(s: State, id: JobId, handler: Handler)
    requires id in s.jobs
    ensures Scheduled(s, Cancel(s, id, handler))
  {
    hide Conclude, CancelJob, Scheduled;
    ConcludeSchedules(s, id, CancelJob(s.jobs[id].(handler := handler)));
    SameSchedules(s, Touch(s, id, s.jobs[id].(handler := handler)));
  }

  lemma SameSchedules(s: State, s': State)
    requires s'.timers == s.timers && s'.scheduled == s.scheduled
    ensures Scheduled(s, s')
  {
  }

  lemma SettleSchedules(s: State, id: JobId, start: real, outcome: Outcome, interrupted: bool)
    requires id in s.jobs
    ensures Scheduled(s, Settle(s, id, start, outcome, interrupted))
  {
    hide Conclude, SettleJob, NextWorker;
    ConcludeSchedules(s, id, SettleJob(s.jobs[id], outcome, interrupted));
  }

  lemma PopSchedules(cfg: Config, s: State)
    requires s.pending != []
    ensures Scheduled(s, Pop(cfg, s))
  {
    hide Settle, StartJob;
    var id := s.pending[0];
    if !StalePop(s) {
      var s2 := Touch(s.(pending := s.pending[1..], popped := s.popped + [id]), id, StartJob(cfg, s.jobs[id]))
                  .(worker := Busy(id, s.clock, false), started := s.started + [id]);
      SettleSchedules(s2, id, s.clock, Returned, false);
    }
  }

  lemma HandlerSchedules(cfg: Config, s: State, e: Event)
    requires Enabled(cfg, s, e) && (IsUploadEvent(e) || IsStreamEvent(e))
    ensures Scheduled(s, Effect(cfg, s, e))
  {
    hide Cancel, PositionAndEta, Scheduled;
    if !e.Reserve? {
      CancelSchedules(s, e.id, Leaving);
      CancelSchedules(s, e.id, Closed);
    }
    if s.timers == Effect(cfg, s, e).timers && s.scheduled == Effect(cfg, s, e).scheduled {
      SameSchedules(s, Effect(cfg, s, e));
    }
  }

  lemma WorkerSchedules(cfg: Config, s: State, e: Event)
    requires Enabled(cfg, s, e) && !IsUploadEvent(e) && !IsStreamEvent(e) && !e.CleanupExpires? && !e.StopTimers?
    ensures Scheduled(s, Effect(cfg, s, e))
  {
    hide Pop, Settle, Scheduled, BeginTask, ReadLine, EndReply, GroqReply, EndTask;
    if e.WorkerPops? {
      PopSchedules(cfg, s);
    } else if e.WorkerResumes? {
      SettleSchedules(s, s.worker.id, s.worker.start, Current(s).task.outcome, s.worker.interrupted);
    } else {
      SameSchedules(s, Effect(cfg, s, e));
    }
  }

  lemma TimersAfter(cfg: Config, s: State, e: Event)
    requires !e.StopTimers?
    ensures var s' := Step(cfg, s, e);
      || Scheduled(s, s')
      || (e.CleanupExpires? && s'.timers == s.timers - multiset{e.id} && s'.scheduled == s.scheduled)
  {
    hide Scheduled;
    if !Enabled(cfg, s, e) {
      hide Effect;
      SameSchedules(s, s);
    } else if IsUploadEvent(e) || IsStreamEvent(e) {
      hide Effect;
      HandlerSchedules(cfg, s, e);
    } else if !e.CleanupExpires? {
      hide Effect;
      WorkerSchedules(cfg, s, e);
    }
  }

  /** A clean-up that was scheduled and is not running any more has been done. */
  ghost predicate Accounted(s: State) {
    forall id | id in s.scheduled && id in s.order :: id in s.timers
  }

  lemma AccountedAfter(cfg: Config, s: State, e: Event)
    requires Inv(cfg, s) && Accounted(s) && !e.StopTimers?
    ensures Accounted(Step(cfg, s, e))
  {
    hide Inv, Step, Enabled;
    var s' := Step(cfg, s, e);
    ScheduledIsKnown(cfg, s);
    if e.CleanupExpires? {
      ExpiryTimers(cfg, s, e.id);
    } else {
      TimersAfter(cfg, s, e);
      Positions.OrderAfter(cfg, s, e);
    }
  }

  lemma ExpiryTimers(cfg: Config, s: State, id: JobId)
    requires Inv(cfg, s)
    ensures var s' := Step(cfg, s, CleanupExpires(id));
      && s'.scheduled == s.scheduled
      && (s' == s || (id !in s'.order && s'.timers == s.timers - multiset{id}
                      && forall k | k in s'.order :: k in s.order && k != id))
  {
    hide Inv, Expire;
    if id in s.timers {
      StepEffects.ExpiryForgets(cfg, s, id);
      ExpiryKeepsLog(s, id);
    }
  }

  lemma ExpiryKeepsLog(s: State, id: JobId)
    ensures Expire(s, id).scheduled == s.scheduled
  {
  }

  lemma ScheduledIsKnown(cfg: Config, s: State)
    requires Inv(cfg, s)
    ensures forall id | id in s.scheduled :: id in s.jobs
    ensures forall id :: s.timers[id] <= 1
  {
    hide EveryJob, Placed, Queue, Starts, History, WorkerInv;
  }

  lemma {:induction false} AlwaysAccounted(cfg: Config, schedule: seq<Event>)
    requires forall e | e in schedule :: !e.StopTimers?
    ensures Accounted(Exec(cfg, Init(), schedule))
  {
    hide Step, Accounted, Inv;
    if schedule == [] {
      NothingScheduled();
    } else {
      var n := |schedule| - 1;
      AlwaysAccounted(cfg, schedule[..n]);
      Always(cfg, schedule[..n]);
      AccountedAfter(cfg, Exec(cfg, Init(), schedule[..n]), schedule[n]);
    }
  }

  lemma NothingScheduled()
    ensures Accounted(Init())
  {
  }

  /** Until the timers are stopped, the jobs of the table that have a timer are exactly those that are
      over, so that each of them will leave the table when its timer expires. */
  lemma FinishedJobsHaveTimers(cfg: Config, schedule: seq<Event>)
    requires forall e | e in schedule :: !e.StopTimers?
    ensures var s := Exec(cfg, Init(), schedule);
      forall id | id in s.order :: id in s.jobs && (id in s.timers <==> Terminal(s.jobs[id].status))
  {
    hide Exec, Inv;
    var s := Exec(cfg, Init(), schedule);
    Always(cfg, schedule);
    AlwaysAccounted(cfg, schedule);
    forall id | id in s.order
      ensures id in s.jobs && (id in s.timers <==> Terminal(s.jobs[id].status))
    {
      TimerMeansOver(cfg, s, id);
    }
  }

  lemma TimerMeansOver(cfg: Config, s: State, id: JobId)
    requires Inv(cfg, s) && id in s.order
    ensures id in s.jobs && (id in s.scheduled <==> Terminal(s.jobs[id].status))
      && (id in s.timers ==> id in s.scheduled)
  {
    hide EveryJob, Queue, Starts, History, WorkerInv;
    assert id in s.jobs;
    assert PlacedJob(s, id, s.jobs[id]);
  }
}
