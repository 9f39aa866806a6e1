/**
 app/jobstore.py: the job state in Redis, and the operations that are several commands long.
 Each statement that assigns `jobs` is one command; a key that does not exist reads as NO_JOB.
 */
module JobStore {
  import opened Collections
  import opened JobRecords

  /** record_tile_result, when no other process interferes. */
  function Recorded(job: Job, t: TileId, info: TileInfo, seconds: real): Job
  {
    if t in job.tiles then job.(tiles := job.tiles[t := info])
    else
      job.(tiles := job.tiles[t := info],
           latencies := job.latencies + [seconds],
           resultsCount := job.resultsCount + 1)
  }

  /** What is left of it when an exception comes after k of its writes. */
  function RecordedUpTo(job: Job, t: TileId, info: TileInfo, seconds: real, k: nat): Job
  {
    var j1 := if k >= 1 then HSetTile(job, t, info) else job;
    var j2 := if k >= 2 && IsNewTile(job, t) then RPushLatency(j1, seconds) else j1;
    if k >= 3 && IsNewTile(job, t) then HIncrResults(j2) else j2
  }

  /** What /reconstruct leaves of a job it has rendered. */
  function Cleared(job: Job): Job
  {
    job.(status := Completed, tiles := map[], latencies := [], abandoned := {}, attempts := map[])
  }

  /** The keys of job id; those that do not exist read as NO_JOB. */
  function JobAt(jobs: map<JobId, Job>, id: JobId): Job {
    if id in jobs then jobs[id] else NO_JOB
  }

  class JobStore {
    var jobs: map<JobId, Job>

    constructor ()
      ensures jobs == map[]
    {
      jobs := map[];
    }

    function At(id: JobId): Job
      reads this
    {
      JobAt(jobs, id)
    }

    method CreateJob(id: JobId, meta: Meta)
      modifies this
      ensures At(id).meta == Some(meta) && At(id).status == Processing
      ensures At(id).resultsCount == 0 && At(id).failedTasks == 0
      ensures At(id) == old(At(id)).(meta := Some(meta), status := Processing, resultsCount := 0, failedTasks := 0)
      ensures forall k :: k != id ==> At(k) == old(At(k))
    {
      jobs := jobs[id := HSetCreated(At(id), meta)];
    }

    /** Stores one tile's result; n is the number of distinct tiles held. */
    method RecordTileResult(id: JobId, t: TileId, info: TileInfo, seconds: real) returns (n: nat)
      modifies this
      ensures At(id) == Recorded(old(At(id)), t, info, seconds)
      ensures n == |At(id).tiles|
      ensures forall k :: k != id ==> At(k) == old(At(k))
    {
      var isNew := IsNewTile(At(id), t);
      jobs := jobs[id := HSetTile(At(id), t, info)];
      if isNew {
        jobs := jobs[id := RPushLatency(At(id), seconds)];
        jobs := jobs[id := HIncrResults(At(id))];
      }
      n := HLenTiles(At(id));
    }

    /** The same, ended by an exception after at most k writes. */
    method RecordUpTo(id: JobId, t: TileId, info: TileInfo, seconds: real, k: nat)
      modifies this
      ensures At(id) == RecordedUpTo(old(At(id)), t, info, seconds, k)
      ensures forall j :: j != id ==> At(j) == old(At(j))
    {
      if k == 0 {
        return;
      }
      var isNew := IsNewTile(At(id), t);
      jobs := jobs[id := HSetTile(At(id), t, info)];
      if isNew && k >= 2 {
        jobs := jobs[id := RPushLatency(At(id), seconds)];
        if k >= 3 {
          jobs := jobs[id := HIncrResults(At(id))];
        }
      }
    }

    method SetJobStatus(id: JobId, status: Status)
      modifies this
      ensures At(id) == old(At(id)).(status := status)
      ensures forall k :: k != id ==> At(k) == old(At(k))
    {
      jobs := jobs[id := HSetStatus(At(id), status)];
    }

    method IncrTileAttempts(id: JobId, t: TileId) returns (n: nat)
      modifies this
      ensures n == Attempts(old(At(id)), t) + 1 == Attempts(At(id), t)
      ensures At(id) == old(At(id)).(attempts := old(At(id)).attempts[t := n])
      ensures forall k :: k != id ==> At(k) == old(At(k))
    {
      jobs := jobs[id := IncrAttempts(At(id), t)];
      n := Attempts(At(id), t);
    }

    method AddAbandonedTile(id: JobId, t: TileId)
      modifies this
      ensures At(id) == old(At(id)).(abandoned := old(At(id)).abandoned + {t})
      ensures forall k :: k != id ==> At(k) == old(At(k))
    {
      jobs := jobs[id := SAddAbandoned(At(id), t)];
    }

    method SetLastReapTime(id: JobId, when: real)
      modifies this
      ensures At(id) == old(At(id)).(lastReap := when)
      ensures forall k :: k != id ==> At(k) == old(At(k))
    {
      jobs := jobs[id := HSetLastReap(At(id), when)];
    }

    method RecordPublishFailure(id: JobId)
      modifies this
      ensures At(id) == old(At(id)).(failedTasks := old(At(id)).failedTasks + 1)
      ensures forall k :: k != id ==> At(k) == old(At(k))
    {
      jobs := jobs[id := HIncrFailed(At(id))];
    }

    /** The metadata hash survives; everything that was kept per tile is gone. */
    method DeleteJobTileState(id: JobId)
      modifies this
      ensures At(id) == old(At(id)).(tiles := map[], latencies := [], abandoned := {}, attempts := map[])
      ensures forall k :: k != id ==> At(k) == old(At(k))
    {
      jobs := jobs[id := DelTileKeys(At(id))];
      var scanned := At(id).attempts.Keys;
      jobs := jobs[id := DelAttempts(At(id), scanned)];
    }
  }
}
