/**
 One job's Redis state and the single Redis commands that app/jobstore.py issues on it.

 The keys job:{id}, job:{id}:tiles, job:{id}:latencies, job:{id}:tile:{t}:attempts and
 job:{id}:abandoned are the components of one `Job`.  Each function below is one command,
 so each is atomic; the modules above compose them, either without interruption (JobStore)
 or interleaved with every other process (TileProtocol).
 */
module JobRecords {
  import opened Collections

  type JobId = string
  type TileId = int

  datatype Status = Unknown | Processing | Ready | Completed | Degraded

  /** The fields of job:{id} that create_job writes once and nothing changes afterwards. */
  datatype Meta = Meta(
    operation: string, width: int, height: int, tileSize: Option<int>,
    expected: int, timestamp: real)

  /** What a consumer stores per tile: the payload is result_blob_key or the detections. */
  datatype TileInfo = TileInfo(payload: string, x: int, y: int, width: int, height: int)

  datatype Job = Job(
    meta: Option<Meta>,
    status: Status,
    resultsCount: int,
    failedTasks: int,
    lastReap: real,
    tiles: map<TileId, TileInfo>,
    latencies: seq<real>,
    attempts: map<TileId, nat>,
    abandoned: set<TileId>)

  /** No key exists: get_job's defaults. */
  const NO_JOB := Job(None, Unknown, 0, 0, 0.0, map[], [], map[], {})

  function Expected(job: Job): int {
    if job.meta.Some? then job.meta.value.expected else 0
  }

  function Attempts(job: Job, t: TileId): nat {
    if t in job.attempts then job.attempts[t] else 0
  }

  /** HSET job:{id}:tiles; the reply is 1 exactly when the field was new. */
  function HSetTile(job: Job, t: TileId, info: TileInfo): Job {
    job.(tiles := job.tiles[t := info])
  }

  predicate IsNewTile(job: Job, t: TileId) {
    t !in job.tiles
  }

  /** RPUSH job:{id}:latencies. */
  function RPushLatency(job: Job, seconds: real): Job {
    job.(latencies := job.latencies + [seconds])
  }

  /** HINCRBY job:{id} results_count 1. */
  function HIncrResults(job: Job): Job {
    job.(resultsCount := job.resultsCount + 1)
  }

  /** HINCRBY job:{id} failed_tasks 1. */
  function HIncrFailed(job: Job): Job {
    job.(failedTasks := job.failedTasks + 1)
  }

  /** HLEN job:{id}:tiles. */
  function HLenTiles(job: Job): nat {
    |job.tiles|
  }

  /** HSET job:{id} status. */
  function HSetStatus(job: Job, status: Status): Job {
    job.(status := status)
  }

  /** HSET job:{id} last_reap_time. */
  function HSetLastReap(job: Job, when: real): Job {
    job.(lastReap := when)
  }

  /** INCR job:{id}:tile:{t}:attempts; the reply is the new value. */
  function IncrAttempts(job: Job, t: TileId): Job {
    job.(attempts := job.attempts[t := Attempts(job, t) + 1])
  }

  /** SADD job:{id}:abandoned. */
  function SAddAbandoned(job: Job, t: TileId): Job {
    job.(abandoned := job.abandoned + {t})
  }

  /** DEL job:{id}:tiles job:{id}:latencies job:{id}:abandoned. */
  function DelTileKeys(job: Job): Job {
    job.(tiles := map[], latencies := [], abandoned := {})
  }

  /** DEL of the attempt counters that the preceding SCAN reported. */
  function DelAttempts(job: Job, scanned: set<TileId>): Job {
    job.(attempts := job.attempts - scanned)
  }

  /** HSET job:{id} of create_job: the companions and last_reap_time are left as they are. */
  function HSetCreated(job: Job, meta: Meta): Job {
    job.(meta := Some(meta), status := Processing, resultsCount := 0, failedTasks := 0)
  }

  /**
   sorted(set(range(expected)) - received), minus the abandoned ids: the tiles a sweep retries,
   in ascending order.
   */
  function Outstanding(expected: int, received: set<TileId>, abandoned: set<TileId>): (r: seq<TileId>)
    ensures forall t :: t in r <==> 0 <= t < expected && t !in received && t !in abandoned
    ensures forall i, j :: 0 <= i < j < |r| ==> r[i] < r[j]
    decreases if expected < 0 then 0 else expected
  {
    if expected <= 0 then []
    else
      var below := Outstanding(expected - 1, received, abandoned);
      assert forall i :: 0 <= i < |below| ==> below[i] in below;
      if expected - 1 in received || expected - 1 in abandoned then below else below + [expected - 1]
  }
}
