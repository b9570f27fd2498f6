/** Whose job is whose: a job belongs to the client that reserved it, and that client alone is told
    about it. */
module Ownership {
  import opened Basics
  import opened Jobs
  import opened Machine
  import opened Safety
  import Lifecycle
  import Positions
  import QueueInfo
  import StepEffects
  import Identity
  import Wav

  /** Event `k` of the run is a request of `client`, and it gets the slot. */
  ghost predicate Reserves(cfg: Config, schedule: seq<Event>, k: nat, id: JobId, client: string)
    requires k < |schedule|
  {
    schedule[k] == Event.Reserve(id, client) && Enabled(cfg, Exec(cfg, Init(), schedule[..k]), schedule[k])
  }

  // ------------------------------------------------------------ where jobs come from

  lemma CancelTable(s: State, id: JobId, handler: Handler)
    requires id in s.jobs
    ensures Cancel(s, id, handler).jobs.Keys == s.jobs.Keys
  {
    hide Conclude;
    ConcludeJobs(s, id, CancelJob(s.jobs[id].(handler := handler)));
  }

  lemma SettleTable(s: State, id: JobId, start: real, outcome: Outcome, interrupted: bool)
    requires id in s.jobs
    ensures Settle(s, id, start, outcome, interrupted).jobs.Keys == s.jobs.Keys
  {
    hide Conclude, SettleJob, NextWorker;
    ConcludeJobs(s, id, SettleJob(s.jobs[id], outcome, interrupted));
  }

  lemma PopTable(cfg: Config, s: State)
    requires s.pending != []
    ensures Pop(cfg, s).jobs.Keys == s.jobs.Keys
  {
    hide Settle, StartJob;
    var id := s.pending[0];
    if !StalePop(s) {
      var s2 := Touch(s.(pending := s.pending[1..], popped := s.popped + [id]), id, StartJob(cfg, s.jobs[id]))
                  .(worker := Busy(id, s.clock, false), started := s.started + [id]);
      SettleTable(s2, id, s.clock, Returned, false);
    }
  }

  lemma HandlerTable(cfg: Config, s: State, e: Event)
    requires Enabled(cfg, s, e) && (IsUploadEvent(e) || IsStreamEvent(e)) && !e.Reserve?
    ensures Effect(cfg, s, e).jobs.Keys == s.jobs.Keys
  {
    hide Cancel, PositionAndEta;
    CancelTable(s, e.id, Leaving);
    CancelTable(s, e.id, Closed);
  }

  lemma WorkerTable(cfg: Config, s: State, e: Event)
    requires Enabled(cfg, s, e) && !IsUploadEvent(e) && !IsStreamEvent(e)
    ensures Effect(cfg, s, e).jobs.Keys == s.jobs.Keys
  {
    hide Pop, Settle, BeginTask, ReadLine, EndReply, GroqReply, EndTask;
    if e.WorkerPops? {
      PopTable(cfg, s);
    } else if e.WorkerResumes? {
      SettleTable(s, s.worker.id, s.worker.start, Current(s).task.outcome, s.worker.interrupted);
    }
  }

  /** Only a reservation makes a job. */
  lemma TableAfter(cfg: Config, s: State, e: Event)
    ensures Step(cfg, s, e).jobs.Keys
         == s.jobs.Keys + (if e.Reserve? && Enabled(cfg, s, e) then {e.id} else {})
  {
    hide Effect, Enabled;
    if Enabled(cfg, s, e) {
      if e.Reserve? {
        StepEffects.ReserveAdds(cfg, s, e.id, e.client);
      } else if IsUploadEvent(e) || IsStreamEvent(e) {
        HandlerTable(cfg, s, e);
      } else {
        WorkerTable(cfg, s, e);
      }
    }
  }

  /** Every job of the run was reserved in it by the client it is filed under. */
  lemma {:induction false} EveryJobWasReserved(cfg: Config, schedule: seq<Event>, id: JobId)
    requires id in Exec(cfg, Init(), schedule).jobs
    ensures exists k: nat | k < |schedule| ::
      Reserves(cfg, schedule, k, id, Exec(cfg, Init(), schedule).jobs[id].client)
  {
    hide Step, Enabled, Inv;
    if schedule != [] {
      var n := |schedule| - 1;
      var before, e := schedule[..n], schedule[n];
      var s := Exec(cfg, Init(), before);
      var client := Exec(cfg, Init(), schedule).jobs[id].client;
      TableAfter(cfg, s, e);
      if id in s.jobs {
        EveryJobWasReserved(cfg, before, id);
        var k: nat :| k < n && Reserves(cfg, before, k, id, s.jobs[id].client);
        Always(cfg, before);
        Lifecycle.StepAdvances(cfg, s, e, id);
        assert before[..k] == schedule[..k];
        assert Reserves(cfg, schedule, k, id, client);
      } else {
        StepEffects.ReserveAdds(cfg, s, e.id, e.client);
        assert Reserves(cfg, schedule, n, id, client);
      }
    }
  }

  /** From its reservation on, a job is filed under the client that reserved it. */
  lemma ReservedIsKept(cfg: Config, schedule: seq<Event>, k: nat, id: JobId, client: string)
    requires k < |schedule| && Reserves(cfg, schedule, k, id, client)
    ensures var s := Exec(cfg, Init(), schedule); id in s.jobs && s.jobs[id].client == client
  {
    hide Step, Enabled, Inv, Exec;
    var s := Exec(cfg, Init(), schedule[..k]);
    StepEffects.ReserveAdds(cfg, s, id, client);
    Always(cfg, schedule[..k]);
    StepKeeps(cfg, s, schedule[k]);
    Lifecycle.RunEvolves(cfg, Step(cfg, s, schedule[k]), schedule[k + 1..], id);
    SplitAt(cfg, schedule, k);
  }

  lemma SplitAt(cfg: Config, schedule: seq<Event>, k: nat)
    requires k < |schedule|
    ensures Exec(cfg, Init(), schedule)
         == Exec(cfg, Step(cfg, Exec(cfg, Init(), schedule[..k]), schedule[k]), schedule[k + 1..])
  {
    hide Step, Exec;
    ExecAppend(cfg, Init(), schedule[..k], schedule[k]);
    ExecConcat(cfg, Init(), schedule[..k] + [schedule[k]], schedule[k + 1..]);
    assert schedule == schedule[..k] + [schedule[k]] + schedule[k + 1..];
  }

  /** `your_jobs`: a client is told about exactly those jobs of the table that it reserved itself. */
  lemma ListIsOwn(cfg: Config, schedule: seq<Event>, client: string, id: JobId)
    ensures var s := Exec(cfg, Init(), schedule);
      id in QueueInfo.Ids(QueueInfo.YourJobs(s, client, s.order)) <==>
        id in s.order && exists k: nat | k < |schedule| :: Reserves(cfg, schedule, k, id, client)
  {
    hide Exec, Reserves, Inv, QueueInfo.YourJobs, QueueInfo.Ids;
    var s := Exec(cfg, Init(), schedule);
    Always(cfg, schedule);
    QueueInfo.TableFacts(cfg, s);
    QueueInfo.ListsAreOwned(s);
    if id in s.order {
      EveryJobWasReserved(cfg, schedule, id);
      forall k: nat, c | k < |schedule| && Reserves(cfg, schedule, k, id, c)
        ensures s.jobs[id].client == c
      {
        ReservedIsKept(cfg, schedule, k, id, c);
      }
      assert QueueInfo.Owns(s, client, id) <==> s.jobs[id].client == client;
    }
  }

  /** Keys with different digests never see each other's jobs: what one of them reserves is in its own
      list as long as it is in the table, and in no list of another. */
  lemma ClientsAreIsolated(cfg: Config, schedule: seq<Event>, k: nat, id: JobId, d: seq<Wav.Byte>, e: seq<Wav.Byte>)
    requires k < |schedule| && Reserves(cfg, schedule, k, id, Identity.HexDigits(d)) && d != e
    ensures var s := Exec(cfg, Init(), schedule);
      && (id in s.order ==> id in QueueInfo.Ids(QueueInfo.YourJobs(s, Identity.HexDigits(d), s.order)))
      && id !in QueueInfo.Ids(QueueInfo.YourJobs(s, Identity.HexDigits(e), s.order))
  {
    hide Exec, Reserves, Identity.HexDigits, QueueInfo.YourJobs, QueueInfo.Ids;
    Identity.IdentitiesAreDigests("");
    assert Identity.HexDigits(d) != Identity.HexDigits(e);
    ListIsOwn(cfg, schedule, Identity.HexDigits(d), id);
    ListIsOwn(cfg, schedule, Identity.HexDigits(e), id);
    ReservedIsKept(cfg, schedule, k, id, Identity.HexDigits(d));
    forall m: nat | m < |schedule| && Reserves(cfg, schedule, m, id, Identity.HexDigits(e))
      ensures false
    {
      ReservedIsKept(cfg, schedule, m, id, Identity.HexDigits(e));
    }
  }

  // ------------------------------------------------------------- reservation order

  /** The ids that got a slot, in order. */
  function Reservations(cfg: Config, schedule: seq<Event>): seq<JobId> {
    if schedule == [] then []
    else
      var n := |schedule| - 1;
      var e := schedule[n];
      Reservations(cfg, schedule[..n]) +
        (if e.Reserve? && Enabled(cfg, Exec(cfg, Init(), schedule[..n]), e) then [e.id] else [])
  }

  /** The table holds what is left of the reservations, in their order. */
  lemma {:induction false} TableIsInReservationOrder(cfg: Config, schedule: seq<Event>)
    ensures var s := Exec(cfg, Init(), schedule);
      && s.order == Restrict(Reservations(cfg, schedule), Members(s.order))
      && forall id :: id in Reservations(cfg, schedule) <==> id in s.jobs
  {
    hide Step, Enabled, Inv, Restrict, Members;
    if schedule == [] {
      NothingReserved(cfg);
    } else {
      var n := |schedule| - 1;
      var before, e := schedule[..n], schedule[n];
      var s := Exec(cfg, Init(), before);
      TableIsInReservationOrder(cfg, before);
      TableAfter(cfg, s, e);
      Positions.OrderAfter(cfg, s, e);
      OrderOnReserve(cfg, s, e);
      Always(cfg, before);
      QueueInfo.TableFacts(cfg, s);
      assert Reservations(cfg, before) + [] == Reservations(cfg, before);
      if e.Reserve? && Enabled(cfg, s, e) {
        StepEffects.ReserveAdds(cfg, s, e.id, e.client);
        OneMore(Reservations(cfg, before), s.order, e.id);
      } else if Step(cfg, s, e).order != s.order {
        OneLess(Reservations(cfg, before), s.order, e.id);
      }
    }
  }

  lemma OrderOnReserve(cfg: Config, s: State, e: Event)
    ensures e.Reserve? && !Enabled(cfg, s, e) ==> Step(cfg, s, e) == s
  {
    hide Enabled, Effect;
  }

  lemma NothingReserved(cfg: Config)
    ensures Exec(cfg, Init(), []) == Init() && Restrict(Reservations(cfg, []), Members([])) == []
  {
  }

  lemma OneMore(all: seq<JobId>, order: seq<JobId>, id: JobId)
    requires order == Restrict(all, Members(order)) && id !in all
    ensures order + [id] == Restrict(all + [id], Members(order + [id]))
  {
    hide Restrict;
    assert Members(order + [id]) == Members(order) + {id};
    RestrictWiden(all, Members(order), id);
    RestrictAppend(all, id, Members(order) + {id});
  }

  lemma OneLess(all: seq<JobId>, order: seq<JobId>, id: JobId)
    requires order == Restrict(all, Members(order))
    ensures Without(order, id) == Restrict(all, Members(Without(order, id)))
  {
    hide Restrict;
    assert Members(Without(order, id)) == Members(order) - {id};
    RestrictLess(all, Members(order), id);
  }

  lemma {:induction false} RestrictLess(xs: seq<JobId>, keep: set<JobId>, x: JobId)
    ensures Restrict(xs, keep - {x}) == Without(Restrict(xs, keep), x)
  {
    if xs != [] {
      var n := |xs| - 1;
      RestrictLess(xs[..n], keep, x);
      WithoutConcat(Restrict(xs[..n], keep), [xs[n]], x);
      assert Restrict(xs[..n], keep) + [] == Restrict(xs[..n], keep);
      assert Without([xs[n]], x) == if xs[n] == x then [] else [xs[n]];
    }
  }
}
