/** The registry of drain jobs: `StartDrain`, `DrainStatus`, `update` and
    `pruneDrainJobs`, each under one lock and with one clock reading (in
    milliseconds). */
module DrainRegistry {
  import Names
  import E = EvictAll

  type JobId = string

  datatype Phase = Pending | Running | Succeeded | Failed

  datatype JobError = NoError | CordonFailed | ListFailed | Unmanaged(keys: seq<string>) | EvictionFailed(f: E.Failure)

  datatype Job = Job(id: JobId, nodeId: string, phase: Phase, evicted: seq<string>, skipped: seq<string>,
                     remaining: int, error: JobError, startedAt: int, updatedAt: int)

  datatype Lookup = Found(job: Job) | NotFound | BadRequest

  const JOB_RETENTION: int := 3600000

  predicate Finished(j: Job)
  {
    j.phase == Succeeded || j.phase == Failed
  }

  predicate Unfinished(jobs: map<JobId, Job>, nodeId: string, id: JobId)
  {
    id in jobs && jobs[id].nodeId == nodeId && !Finished(jobs[id])
  }

  /** A finished job last updated more than the retention before `now`. */
  predicate Stale(j: Job, now: int)
  {
    Finished(j) && j.updatedAt < now - JOB_RETENTION
  }

  function Pruned(jobs: map<JobId, Job>, now: int): map<JobId, Job>
  {
    map id | id in jobs && !Stale(jobs[id], now) :: jobs[id]
  }

  function NewJob(id: JobId, nodeId: string, now: int): Job
  {
    Job(id, nodeId, Pending, [], [], 0, NoError, now, now)
  }

  /** `update`: an unknown job is left alone. */
  function Updated(jobs: map<JobId, Job>, id: JobId, fn: Job -> Job, now: int): map<JobId, Job>
  {
    if id in jobs then jobs[id := fn(jobs[id]).(updatedAt := now)] else jobs
  }

  class Registry {
    var jobs: map<JobId, Job>
    const clusterId: string

    constructor (clusterId: string)
      ensures jobs == map[] && this.clusterId == clusterId
    {
      this.clusterId := clusterId;
      jobs := map[];
    }

    /** Join the node's unfinished job, or register a new one after pruning. The
        new job's worker starts when the caller sees `started`. */
    method StartDrain(cluster: string, nodeId: string, now: int, freshId: JobId) returns (r: Lookup, started: bool)
      requires freshId !in jobs
      modifies this
      ensures cluster != "" && cluster != clusterId ==> r == NotFound && !started && jobs == old(jobs)
      ensures (cluster == "" || cluster == clusterId) && !Names.ValidNodeId(nodeId) ==>
                r == BadRequest && !started && jobs == old(jobs)
      ensures (cluster == "" || cluster == clusterId) && Names.ValidNodeId(nodeId) ==>
                if exists id :: id in old(jobs) && old(jobs)[id].nodeId == nodeId && old(jobs)[id].phase in {Pending, Running}
                then !started && jobs == old(jobs) && r.Found? && r.job.nodeId == nodeId && r.job.phase in {Pending, Running}
                     && exists id :: id in jobs && r.job == jobs[id]
                else started && r == Found(Job(freshId, nodeId, Pending, [], [], 0, NoError, now, now)) &&
                     jobs == Pruned(old(jobs), now)[freshId := r.job]
    {
      if cluster != "" && cluster != clusterId {
        return NotFound, false;
      }
      if !Names.ValidNodeId(nodeId) {
        return BadRequest, false;
      }
      var todo := jobs.Keys;
      while todo != {}
        invariant todo <= jobs.Keys
        invariant forall id :: id in jobs && id !in todo ==> !Unfinished(jobs, nodeId, id)
        decreases todo
      {
        var id :| id in todo;
        if Unfinished(jobs, nodeId, id) {
          return Found(jobs[id]), false;
        }
        todo := todo - {id};
      }
      PruneDrainJobs(now);
      jobs := jobs[freshId := NewJob(freshId, nodeId, now)];
      return Found(jobs[freshId]), true;
    }

    method PruneDrainJobs(now: int)
      modifies this
      ensures forall id ::
                id in jobs <==>
                id in old(jobs) && !(old(jobs)[id].phase in {Succeeded, Failed} && old(jobs)[id].updatedAt + 3600000 < now)
      ensures forall id :: id in jobs ==> jobs[id] == old(jobs)[id]
      ensures jobs == Pruned(old(jobs), now)
    {
      var todo := jobs.Keys;
      ghost var before := jobs;
      while todo != {}
        invariant todo <= jobs.Keys <= before.Keys
        invariant forall id :: id in todo ==> jobs[id] == before[id]
        invariant forall id :: id in before && id !in todo ==>
                    (id in jobs <==> !Stale(before[id], now)) && (id in jobs ==> jobs[id] == before[id])
        decreases todo
      {
        var id :| id in todo;
        if Stale(jobs[id], now) {
          jobs := jobs - {id};
        }
        todo := todo - {id};
      }
    }

    /** A job is shown only under the node it was started for. */
    method DrainStatus(cluster: string, nodeId: string, id: JobId) returns (r: Lookup)
      ensures r == if (cluster == "" || cluster == clusterId) && id in jobs && jobs[id].nodeId == nodeId
                   then Found(jobs[id]) else NotFound
    {
      if cluster != "" && cluster != clusterId {
        return NotFound;
      }
      if id !in jobs || jobs[id].nodeId != nodeId {
        return NotFound;
      }
      return Found(jobs[id]);
    }

    method Update(id: JobId, fn: Job -> Job, now: int)
      modifies this
      ensures jobs == if id in old(jobs) then old(jobs)[id := fn(old(jobs)[id]).(updatedAt := now)] else old(jobs)
      ensures jobs == Updated(old(jobs), id, fn, now)
    {
      if id !in jobs {
        return;
      }
      jobs := jobs[id := fn(jobs[id]).(updatedAt := now)];
    }
  }
}
