/** server/queue.py: what `get_queue_info` tells a client. */
module QueueInfo {
  import opened Basics
  import opened Jobs
  import opened Machine
  import Safety
  import Positions

  datatype JobInfo = JobInfo(id: JobId, status: Status, place: Option<(nat, real)>)

  function Describe(s: State, id: JobId): JobInfo
    requires id in s.jobs
  {
    JobInfo(id, s.jobs[id].status, PositionAndEta(s, id))
  }

  predicate Owns(s: State, client: string, id: JobId) { id in s.jobs && s.jobs[id].client == client }

  /** `your_jobs`, for the keys `ids` of the dictionary. */
  function YourJobs(s: State, client: string, ids: seq<JobId>): seq<JobInfo> {
    if ids == [] then []
    else
      var last := ids[|ids| - 1];
      YourJobs(s, client, ids[..|ids| - 1]) + (if Owns(s, client, last) then [Describe(s, last)] else [])
  }

  function Ids(infos: seq<JobInfo>): seq<JobId> {
    if infos == [] then [] else Ids(infos[..|infos| - 1]) + [infos[|infos| - 1].id]
  }

  ghost function OwnedBy(s: State, client: string): set<JobId> {
    set id | id in s.jobs && s.jobs[id].client == client
  }

  lemma YourJobsAppend(s: State, client: string, ids: seq<JobId>, id: JobId)
    ensures YourJobs(s, client, ids + [id])
         == YourJobs(s, client, ids) + (if Owns(s, client, id) then [Describe(s, id)] else [])
  {
    assert (ids + [id])[..|ids|] == ids;
  }

  lemma {:induction false} IdsAre(s: State, client: string, ids: seq<JobId>)
    ensures Ids(YourJobs(s, client, ids)) == Restrict(ids, OwnedBy(s, client))
    ensures forall info | info in YourJobs(s, client, ids) :: info.id in s.jobs && info == Describe(s, info.id)
  {
    if ids != [] {
      var n := |ids| - 1;
      IdsAre(s, client, ids[..n]);
      if Owns(s, client, ids[n]) {
        var mine := YourJobs(s, client, ids[..n]);
        assert (mine + [Describe(s, ids[n])])[..|mine|] == mine;
      } else {
        assert YourJobs(s, client, ids[..n]) + [] == YourJobs(s, client, ids[..n]);
      }
    }
  }

  /** In every reachable state the lists of all clients partition the job table: each job of the
      table is in the list of its own client, once, in reservation order, and in no other list. */
  lemma {:induction false} ListsPartitionTheTable(cfg: Config, schedule: seq<Event>, client: string)
    ensures var s := Exec(cfg, Init(), schedule);
      && Ids(YourJobs(s, client, s.order)) == Restrict(s.order, OwnedBy(s, client))
      && NoDup(Ids(YourJobs(s, client, s.order)))
      && (forall id | id in s.order :: id in s.jobs && id in Ids(YourJobs(s, s.jobs[id].client, s.order)))
      && (forall id | id in Ids(YourJobs(s, client, s.order)) :: id in s.order && Owns(s, client, id))
  {
    hide Safety.Inv, YourJobs, Ids, Restrict, NoDup, OwnedBy, Exec;
    var s := Exec(cfg, Init(), schedule);
    Safety.Always(cfg, schedule);
    TableFacts(cfg, s);
    RestrictNoDup(s.order, OwnedBy(s, client));
    ListsAreOwned(s);
    IdsAre(s, client, s.order);
  }

  lemma ListsAreOwned(s: State)
    ensures forall owner, id :: id in Ids(YourJobs(s, owner, s.order)) <==> id in s.order && Owns(s, owner, id)
  {
    hide YourJobs, Ids, Restrict;
    forall owner
      ensures forall id :: id in Ids(YourJobs(s, owner, s.order)) <==> id in s.order && Owns(s, owner, id)
    {
      IdsAre(s, owner, s.order);
      RestrictMembers(s.order, OwnedBy(s, owner));
    }
  }

  lemma TableFacts(cfg: Config, s: State)
    requires Safety.Inv(cfg, s)
    ensures NoDup(s.order) && forall id | id in s.order :: id in s.jobs
  {
    hide Safety.EveryJob, Safety.Queue, Safety.Starts, Safety.Timers, Safety.History, Safety.WorkerInv;
  }

  /** The positions told to all clients together are 1 to `total_queued`, each exactly once: a
      listed job has a position if and only if it is QUEUED, no two have the same, none is skipped. */
  lemma PositionsToldAreExact(cfg: Config, schedule: seq<Event>, client: string)
    ensures var s := Exec(cfg, Init(), schedule);
      var total := |QueuedIn(s.jobs, s.order)|;
      && (forall info | info in YourJobs(s, client, s.order) ::
            && info.id in s.jobs && info.status == s.jobs[info.id].status
            && (info.place.Some? <==> info.status == Queued)
            && (info.place.Some? ==>
                  && 1 <= info.place.value.0 <= total
                  && QueuedIn(s.jobs, s.order)[info.place.value.0 - 1] == info.id
                  && info.place.value.1 == EstimateWait(s.times, info.place.value.0)))
      && (forall k | 0 <= k < total :: Position(s, QueuedIn(s.jobs, s.order)[k]) == Some(k + 1))
      && (forall a, b | a != b && Position(s, a).Some? :: Position(s, a) != Position(s, b))
  {
    hide Safety.Inv, QueuedIn, YourJobs, Position, PositionAndEta, Exec;
    var s := Exec(cfg, Init(), schedule);
    Safety.Always(cfg, schedule);
    Positions.PositionsAreExact(cfg, s);
    IdsAre(s, client, s.order);
    PlaceIsPosition(s);
  }

  lemma PlaceIsPosition(s: State)
    ensures forall id :: PositionAndEta(s, id).Some? <==> Position(s, id).Some?
    ensures forall id :: Position(s, id).Some? ==> Position(s, id) == Some(PositionAndEta(s, id).value.0)
    ensures forall a, b | a != b && Position(s, a).Some? :: Position(s, a) != Position(s, b)
    ensures forall id :: Position(s, id).Some? ==>
      && PositionAndEta(s, id).value.1 == EstimateWait(s.times, Position(s, id).value)
      && 1 <= Position(s, id).value <= |QueuedIn(s.jobs, s.order)|
      && QueuedIn(s.jobs, s.order)[Position(s, id).value - 1] == id
  {
    hide QueuedIn;
  }
}
