/** master/reaper.py, reap_once: requeue what is missing, give up in a bounded way. */
module Reaper {
  import opened Collections
  import opened JobRecords
  import opened JobStore
  import opened Blobs
  import opened Tiling
  import opened Dispatch
  import Consumers

  /** MAX_TILE_ATTEMPTS, TILE_OUTSTANDING_TIMEOUT_SECONDS and the TILE_SIZE default. */
  datatype Settings = Settings(maxAttempts: int, timeout: real, tileSize: int)

  /**
   An exception in the loop over a job's tiles, from Redis, the blob store or Kafka: how many turns
   were through, and whether the attempt of the next tile was counted.  It ends the job's turn.
   */
  datatype Cut = Cut(turns: nat, counted: bool)

  /** What the visit of one job meets: the keys for which tile_exists answers True, and the exception, if any. */
  datatype Visit = Visit(present: set<string>, cut: Option<Cut>)

  /** What a sweep does to one job: its new state and the messages it produces. */
  datatype Swept = Swept(job: Job, sent: seq<Record>)

  function Max(a: real, b: real): real {
    if a > b then a else b
  }

  function LastActivity(job: Job): real {
    Max(if job.meta.Some? then job.meta.value.timestamp else 0.0, job.lastReap)
  }

  /** The job is processing and has had its grace period. */
  predicate Due(job: Job, now: real, settings: Settings) {
    job.meta.Some? && job.status == Processing && now - LastActivity(job) >= settings.timeout
  }

  function Missing(job: Job): seq<TileId> {
    Outstanding(Expected(job), job.tiles.Keys, {})
  }

  function Retryable(job: Job): seq<TileId> {
    Outstanding(Expected(job), job.tiles.Keys, job.abandoned)
  }

  /** The message for tile t, unless it has no geometry or its blob is gone. */
  function Message(id: JobId, meta: Meta, t: TileId, attempt: int, present: set<string>, settings: Settings): Option<Record>
  {
    var found := GeometryOf(Recomputed(meta, settings.tileSize), t);
    if found.Some? && RequeueKey(id, meta.operation, t) in present
    then Some(Requeued(id, meta.operation, found.value, attempt)) else None
  }

  type Messages = (TileId, int) -> Option<Record>

  function MessagesOf(id: JobId, meta: Meta, present: set<string>, settings: Settings): Messages {
    (t, attempt) => Message(id, meta, t, attempt, present, settings)
  }

  /** One turn of the loop: count the attempt, then requeue the tile or give it up. */
  function Retried(job: Job, t: TileId, messages: Messages, maxAttempts: int): Swept
  {
    var counted := IncrAttempts(job, t);
    var attempt := Attempts(counted, t) + 1;
    var message := messages(t, attempt);
    if attempt <= maxAttempts && message.Some? then Swept(counted, [message.value])
    else Swept(SAddAbandoned(counted, t), [])
  }

  /** The loop over the first n retryable tiles. */
  function RetryLoop(job: Job, tiles: seq<TileId>, n: nat, messages: Messages, maxAttempts: int): Swept
    requires n <= |tiles|
  {
    if n == 0 then Swept(job, [])
    else
      var before := RetryLoop(job, tiles, n - 1, messages, maxAttempts);
      var one := Retried(before.job, tiles[n - 1], messages, maxAttempts);
      Swept(one.job, before.sent + one.sent)
  }

  /** How many tiles get their whole turn. */
  function Through(tiles: seq<TileId>, cut: Option<Cut>): (n: nat)
    ensures n <= |tiles|
  {
    if cut.Some? && cut.value.turns < |tiles| then cut.value.turns else |tiles|
  }

  /** The tile whose attempt was counted when the exception came. */
  function CutOff(tiles: seq<TileId>, cut: Option<Cut>): Option<TileId> {
    if cut.Some? && cut.value.turns < |tiles| && cut.value.counted then Some(tiles[cut.value.turns]) else None
  }

  /** The loop up to the exception, if there is one; without it the reap clock is set in the end. */
  function LoopEnd(job: Job, tiles: seq<TileId>, messages: Messages, maxAttempts: int, cut: Option<Cut>, now: real): Swept
  {
    var looped := RetryLoop(job, tiles, Through(tiles, cut), messages, maxAttempts);
    var last := CutOff(tiles, cut);
    if cut.None? then Swept(HSetLastReap(looped.job, now), looped.sent)
    else if last.Some? then Swept(IncrAttempts(looped.job, last.value), looped.sent)
    else looped
  }

  /** One job in one sweep.  A zero tile size makes the layout raise, which ends the job's turn. */
  function SweptJob(id: JobId, job: Job, now: real, visit: Visit, settings: Settings): Swept
  {
    if !Due(job, now, settings) || Missing(job) == [] then Swept(job, [])
    else if Retryable(job) == [] then Swept(HSetStatus(job, Degraded), [])
    else if TileSizeOf(job.meta.value, settings.tileSize) == 0 then Swept(job, [])
    else
      LoopEnd(job, Retryable(job), MessagesOf(id, job.meta.value, visit.present, settings), settings.maxAttempts, visit.cut, now)
  }

  predicate TurnsDegraded(job: Job, now: real, settings: Settings) {
    Due(job, now, settings) && Missing(job) != [] && Retryable(job) == []
  }

  // ---------------------------------------------------------------- the code

  /** _republish_tile; `present` are the keys for which tile_exists answers True. */
  method RepublishTile(producer: Producer, id: JobId, operation: string, g: Geometry, attempt: int, present: set<string>)
    returns (ok: bool)
    modifies producer
    ensures ok == (RequeueKey(id, operation, g.id) in present)
    ensures producer.log == old(producer.log) + if ok then [Requeued(id, operation, g, attempt)] else []
  {
    if RequeueKey(id, operation, g.id) !in present {
      return false;
    }
    producer.log := producer.log + [Requeued(id, operation, g, attempt)];
    return true;
  }

  /** Requeues the tile if it is in the layout and its blob still exists. */
  method RequeueTile(producer: Producer, id: JobId, meta: Meta, t: TileId, attempt: int,
                     geometries: seq<Geometry>, present: set<string>, settings: Settings)
    returns (ok: bool)
    requires geometries == Recomputed(meta, settings.tileSize)
    modifies producer
    ensures var message := Message(id, meta, t, attempt, present, settings);
            && ok == message.Some?
            && producer.log == old(producer.log) + if ok then [message.value] else []
  {
    var geometry := GeometryOf(geometries, t);
    if geometry.None? {
      return false;
    }
    ok := RepublishTile(producer, id, meta.operation, geometry.value, attempt, present);
  }

  /** The body of the loop below. */
  method RetryTile(store: JobStore, producer: Producer, id: JobId, meta: Meta, t: TileId,
                   geometries: seq<Geometry>, present: set<string>, settings: Settings, ghost messages: Messages)
    returns (ok: bool)
    requires geometries == Recomputed(meta, settings.tileSize) && messages == MessagesOf(id, meta, present, settings)
    modifies store, producer
    ensures var r := Retried(old(store.At(id)), t, messages, settings.maxAttempts);
            && store.At(id) == r.job
            && producer.log == old(producer.log) + r.sent
            && (if ok then 1 else 0) == |r.sent|
    ensures forall k :: k != id ==> store.At(k) == old(store.At(k))
  {
    var n := store.IncrTileAttempts(id, t);
    var attempt := n + 1;
    assert messages(t, attempt) == Message(id, meta, t, attempt, present, settings);
    assert store.At(id) == IncrAttempts(old(store.At(id)), t) && attempt == Attempts(store.At(id), t) + 1;
    ok := false;
    if attempt <= settings.maxAttempts {
      ok := RequeueTile(producer, id, meta, t, attempt, geometries, present, settings);
    }
    if !ok {
      store.AddAbandonedTile(id, t);
    }
  }

  /** The loop `for tile_id in retryable`, up to the exception. */
  method RetryTiles(store: JobStore, producer: Producer, id: JobId, meta: Meta, tiles: seq<TileId>,
                    geometries: seq<Geometry>, visit: Visit, settings: Settings, ghost messages: Messages)
    returns (requeued: nat)
    requires geometries == Recomputed(meta, settings.tileSize) && messages == MessagesOf(id, meta, visit.present, settings)
    modifies store, producer
    ensures var r := RetryLoop(old(store.At(id)), tiles, Through(tiles, visit.cut), messages, settings.maxAttempts);
            && store.At(id) == r.job
            && producer.log == old(producer.log) + r.sent
            && requeued == |r.sent|
    ensures forall k :: k != id ==> store.At(k) == old(store.At(k))
  {
    ghost var job, log := store.At(id), producer.log;
    ghost var sent: seq<Record> := [];
    requeued := 0;
    var i := 0;
    while i < |tiles| && !(visit.cut.Some? && visit.cut.value.turns == i)
      invariant i <= Through(tiles, visit.cut)
      invariant Swept(store.At(id), sent) == RetryLoop(job, tiles, i, messages, settings.maxAttempts)
      invariant producer.log == log + sent
      invariant requeued == |sent|
      invariant forall k :: k != id ==> store.At(k) == old(store.At(k))
    {
      ghost var more;
      var ok;
      ok, more := RetryNext(store, producer, id, meta, tiles, i, geometries, visit.present, settings, messages, job, sent);
      Regroup(log, sent, more);
      sent := sent + more;
      if ok {
        requeued := requeued + 1;
      }
      i := i + 1;
    }
  }

  /** The loop and what follows it: the attempt that an exception leaves counted, or the reap clock. */
  method RetryJob(store: JobStore, producer: Producer, id: JobId, meta: Meta, tiles: seq<TileId>, now: real,
                  geometries: seq<Geometry>, visit: Visit, settings: Settings, ghost messages: Messages)
    returns (requeued: nat)
    requires geometries == Recomputed(meta, settings.tileSize) && messages == MessagesOf(id, meta, visit.present, settings)
    modifies store, producer
    ensures var r := LoopEnd(old(store.At(id)), tiles, messages, settings.maxAttempts, visit.cut, now);
            && store.At(id) == r.job
            && producer.log == old(producer.log) + r.sent
            && requeued == |r.sent|
    ensures forall k :: k != id ==> store.At(k) == old(store.At(k))
  {
    requeued := RetryTiles(store, producer, id, meta, tiles, geometries, visit, settings, messages);
    match visit.cut
    case None => store.SetLastReapTime(id, now);
    case Some(cut) =>
      if cut.turns < |tiles| && cut.counted {
        var _ := store.IncrTileAttempts(id, tiles[cut.turns]);
      }
  }

  /** The i-th turn of that loop; `sent` are the messages of the earlier ones. */
  method RetryNext(store: JobStore, producer: Producer, id: JobId, meta: Meta, tiles: seq<TileId>, i: nat,
                   geometries: seq<Geometry>, present: set<string>, settings: Settings, ghost messages: Messages,
                   ghost job: Job, ghost sent: seq<Record>)
    returns (ok: bool, ghost more: seq<Record>)
    requires geometries == Recomputed(meta, settings.tileSize) && messages == MessagesOf(id, meta, present, settings)
    requires i < |tiles| && Swept(store.At(id), sent) == RetryLoop(job, tiles, i, messages, settings.maxAttempts)
    modifies store, producer
    ensures Swept(store.At(id), sent + more) == RetryLoop(job, tiles, i + 1, messages, settings.maxAttempts)
    ensures producer.log == old(producer.log) + more && (if ok then 1 else 0) == |more|
    ensures forall k :: k != id ==> store.At(k) == old(store.At(k))
  {
    ghost var one := Retried(store.At(id), tiles[i], messages, settings.maxAttempts);
    ok := RetryTile(store, producer, id, meta, tiles[i], geometries, present, settings, messages);
    LoopNext(job, tiles, i, messages, settings.maxAttempts, one);
    more := one.sent;
  }

  lemma LoopNext(job: Job, tiles: seq<TileId>, n: nat, messages: Messages, maxAttempts: int, one: Swept)
    requires n < |tiles| && one == Retried(RetryLoop(job, tiles, n, messages, maxAttempts).job, tiles[n], messages, maxAttempts)
    ensures RetryLoop(job, tiles, n + 1, messages, maxAttempts) ==
              Swept(one.job, RetryLoop(job, tiles, n, messages, maxAttempts).sent + one.sent)
  {
  }

  /** The body of the loop over the jobs. */
  method SweepJob(store: JobStore, blobs: BlobStore, producer: Producer, metrics: Consumers.Metrics,
                  id: JobId, now: real, visit: Visit, stuck: set<string>, settings: Settings)
    returns (requeued: nat)
    modifies store, blobs, producer, metrics
    ensures var r := SweptJob(id, old(store.At(id)), now, visit, settings);
            && store.At(id) == r.job
            && producer.log == old(producer.log) + r.sent
            && requeued == |r.sent|
            && metrics.requeued == old(metrics.requeued) + |r.sent|
    ensures forall k :: k != id ==> store.At(k) == old(store.At(k))
    ensures var job := old(store.At(id));
            if TurnsDegraded(job, now, settings) then
              && metrics.finished == old(metrics.finished) +
                   multiset{(Pipeline(job), "degraded")}
              && forall k :: k in blobs.objects <==> k in old(blobs.objects) && (UnderJob(k, id) ==> k in stuck)
            else metrics.finished == old(metrics.finished) && blobs.objects == old(blobs.objects)
    ensures TurnsDegraded(old(store.At(id)), now, settings) ==>
              forall kind, t :: BlobKey(id, kind, t) in blobs.objects ==> BlobKey(id, kind, t) in stuck
    ensures forall k :: k in blobs.objects ==> k in old(blobs.objects) && blobs.objects[k] == old(blobs.objects)[k]
    ensures '/' !in id ==> forall j, kind, t :: '/' !in j && j != id && BlobKey(j, kind, t) in old(blobs.objects) ==>
              BlobKey(j, kind, t) in blobs.objects
  {
    requeued := 0;
    var job := store.At(id);
    if job.meta.None? || job.status != Processing {
      return;
    }
    if now - LastActivity(job) < settings.timeout {
      return;
    }
    var missing := Missing(job);
    if missing == [] {
      return;
    }
    var retryable := Retryable(job);
    if retryable == [] {
      store.SetJobStatus(id, Degraded);
      metrics.finished := metrics.finished + multiset{(Pipeline(job), "degraded")};
      var _ := blobs.DeleteJobTiles(id, stuck);
      return;
    }
    var meta := job.meta.value;
    var geometries: Option<seq<Geometry>> := Some([]);
    if meta.width >= 0 && meta.height >= 0 {
      geometries := TileGeometries(meta.width, meta.height, TileSizeOf(meta, settings.tileSize));
    } else if TileSizeOf(meta, settings.tileSize) == 0 {
      geometries := None;
    }
    if geometries.None? {
      return;
    }
    requeued := RetryJob(store, producer, id, meta, retryable, now, geometries.value, visit, settings,
                         MessagesOf(id, meta, visit.present, settings));
    metrics.requeued := metrics.requeued + requeued;
  }

  /** What the first n visits of one sweep do to job k; SCAN may report an id more than once. */
  function Visited(k: JobId, job: Job, ids: seq<JobId>, n: nat, now: real, visits: seq<Visit>, settings: Settings): Swept
    requires n <= |ids| == |visits|
  {
    if n == 0 then Swept(job, [])
    else
      var before := Visited(k, job, ids, n - 1, now, visits, settings);
      if ids[n - 1] != k then before
      else
        var one := SweptJob(k, before.job, now, visits[n - 1], settings);
        Swept(one.job, before.sent + one.sent)
  }

  /** Visit i of the sweep turns its job degraded. */
  predicate DegradesAt(jobs: map<JobId, Job>, ids: seq<JobId>, i: nat, now: real, visits: seq<Visit>, settings: Settings)
    requires i < |ids| == |visits|
  {
    TurnsDegraded(Visited(ids[i], JobAt(jobs, ids[i]), ids, i, now, visits, settings).job, now, settings)
  }

  function Pipeline(job: Job): string {
    if job.meta.Some? && job.meta.value.operation == OBJECT_DETECTION then "ml" else "opencv"
  }

  /** The pipeline label of the degraded metric: that of the route that created the job. */
  lemma DegradedLabel(job: Job, route: Route, width: nat, height: nat, tileSize: int, timestamp: real)
    requires ValidRoute(route) && job.meta == Some(MetaOf(route, width, height, tileSize, timestamp))
    ensures Pipeline(job) == match route case Upload(_) => "opencv" case Detect => "ml"
  {
    if route.Upload? {
      DetectionIsNoUpload(route.operation);
    }
  }

  /** What the first n visits add to jobs_finished_total. */
  function Finished(jobs: map<JobId, Job>, ids: seq<JobId>, n: nat, now: real, visits: seq<Visit>, settings: Settings):
    multiset<(string, string)>
    requires n <= |ids| == |visits|
  {
    if n == 0 then multiset{}
    else
      Finished(jobs, ids, n - 1, now, visits, settings) +
      if DegradesAt(jobs, ids, n - 1, now, visits, settings)
      then multiset{(Pipeline(Visited(ids[n - 1], JobAt(jobs, ids[n - 1]), ids, n - 1, now, visits, settings).job), "degraded")}
      else multiset{}
  }

  /** The first n visits leave blob `key`: no job whose blob it is turned degraded, or its removal failed. */
  predicate Survives(key: string, jobs: map<JobId, Job>, ids: seq<JobId>, n: nat, now: real, visits: seq<Visit>,
                     stuck: seq<set<string>>, settings: Settings)
    requires n <= |ids| == |visits| == |stuck|
  {
    n == 0 ||
    (&& Survives(key, jobs, ids, n - 1, now, visits, stuck, settings)
     && (DegradesAt(jobs, ids, n - 1, now, visits, settings) && UnderJob(key, ids[n - 1]) ==> key in stuck[n - 1]))
  }

  /** The messages of one job among all that were produced. */
  function OfTaskJob(log: seq<Record>, k: JobId): seq<Record>
  {
    if log == [] then []
    else OfTaskJob(log[..|log| - 1], k) + if log[|log| - 1].task.job == k then [log[|log| - 1]] else []
  }

  /**
   reap_once; leader[i] is is_leader()'s answer before the i-th job, visits[i] is
   what the visit of that job meets, and stuck[i] the blobs that cannot be removed during it.  No job is touched once leadership is lost.
   */
  method ReapOnce(store: JobStore, blobs: BlobStore, producer: Producer, metrics: Consumers.Metrics, now: real,
                  ids: seq<JobId>, leader: seq<bool>, visits: seq<Visit>, stuck: seq<set<string>>,
                  settings: Settings)
    returns (requeued: nat)
    requires |ids| == |leader| == |visits| == |stuck|
    modifies store, blobs, producer, metrics
    ensures forall k :: store.At(k) == Visited(k, old(store.At(k)), ids, TurnsLed(leader), now, visits, settings).job
    ensures forall k :: OfTaskJob(producer.log, k) == OfTaskJob(old(producer.log), k)
                          + Visited(k, old(store.At(k)), ids, TurnsLed(leader), now, visits, settings).sent
    ensures |producer.log| == |old(producer.log)| + requeued
    ensures metrics.requeued == old(metrics.requeued) + requeued
    ensures metrics.finished == old(metrics.finished) + Finished(old(store.jobs), ids, TurnsLed(leader), now, visits, settings)
    ensures forall key :: key in blobs.objects <==>
              key in old(blobs.objects) && Survives(key, old(store.jobs), ids, TurnsLed(leader), now, visits, stuck, settings)
    ensures forall key :: key in blobs.objects ==> blobs.objects[key] == old(blobs.objects)[key]
    ensures (forall id :: id in ids ==> '/' !in id) ==>
              forall j, kind, t :: '/' !in j && BlobKey(j, kind, t) in old(blobs.objects)
                                   && (old(store.At(j)).status == Degraded || store.At(j).status != Degraded) ==>
                BlobKey(j, kind, t) in blobs.objects
  {
    ghost var jobs, objects := store.jobs, blobs.objects;
    requeued := VisitJobs(store, blobs, producer, metrics, now, ids, leader, visits, stuck, settings);
    assert forall k :: JobAt(store.jobs, k) == store.At(k);
    assert forall k :: JobAt(old(store.jobs), k) == old(store.At(k));
    if forall id :: id in ids ==> '/' !in id {
      LiveJobsKeepTheirBlobs(jobs, store.jobs, objects.Keys, blobs.objects.Keys, ids, TurnsLed(leader), now, visits, stuck, settings);
    }
  }

  /** The blobs of a job that the sweep has not turned degraded are all there. */
  lemma LiveJobsKeepTheirBlobs(jobs: map<JobId, Job>, jobs': map<JobId, Job>, keys: set<string>, keys': set<string>,
                               ids: seq<JobId>, n: nat, now: real, visits: seq<Visit>, stuck: seq<set<string>>, settings: Settings)
    requires n <= |ids| == |visits| == |stuck| && forall id :: id in ids ==> '/' !in id
    requires forall k :: JobAt(jobs', k) == Visited(k, JobAt(jobs, k), ids, n, now, visits, settings).job
    requires forall key :: key in keys' <==> key in keys && Survives(key, jobs, ids, n, now, visits, stuck, settings)
    ensures forall j, kind, t :: '/' !in j && BlobKey(j, kind, t) in keys
                                 && (JobAt(jobs, j).status == Degraded || JobAt(jobs', j).status != Degraded) ==>
              BlobKey(j, kind, t) in keys'
  {
    forall j, kind, t | '/' !in j && BlobKey(j, kind, t) in keys
                        && (JobAt(jobs, j).status == Degraded || JobAt(jobs', j).status != Degraded)
      ensures BlobKey(j, kind, t) in keys'
    {
      BlobSurvives(j, kind, t, jobs, ids, n, now, visits, stuck, settings);
    }
  }

  lemma {:induction false} BlobSurvives(j: JobId, kind: string, t: TileId, jobs: map<JobId, Job>, ids: seq<JobId>, n: nat,
                                        now: real, visits: seq<Visit>, stuck: seq<set<string>>, settings: Settings)
    requires n <= |ids| == |visits| == |stuck| && '/' !in j && forall id :: id in ids ==> '/' !in id
    requires var job := JobAt(jobs, j);
             job.status == Degraded || Visited(j, job, ids, n, now, visits, settings).job.status != Degraded
    ensures Survives(BlobKey(j, kind, t), jobs, ids, n, now, visits, stuck, settings)
  {
    if n > 0 {
      var before := Visited(j, JobAt(jobs, j), ids, n - 1, now, visits, settings);
      VisitedOne(j, JobAt(jobs, j), ids, n - 1, now, visits, settings, before);
      UnderJobExactly(j, kind, t, ids[n - 1]);
      StaysDegraded(j, before.job, now, visits[n - 1], settings);
      StillDegraded(j, JobAt(jobs, j), ids, n - 1, now, visits, settings);
      BlobSurvives(j, kind, t, jobs, ids, n - 1, now, visits, stuck, settings);
    }
  }

  /** A visit leaves a degraded job alone, and one that turns a job degraded leaves it so. */
  lemma StaysDegraded(id: JobId, job: Job, now: real, visit: Visit, settings: Settings)
    ensures job.status == Degraded ==> SweptJob(id, job, now, visit, settings).job == job
    ensures TurnsDegraded(job, now, settings) ==>
              job.status == Processing && SweptJob(id, job, now, visit, settings).job.status == Degraded
  {
  }

  lemma {:induction false} StillDegraded(k: JobId, job: Job, ids: seq<JobId>, n: nat, now: real, visits: seq<Visit>, settings: Settings)
    requires n <= |ids| == |visits|
    ensures job.status == Degraded ==> Visited(k, job, ids, n, now, visits, settings).job == job
  {
    if n > 0 {
      StillDegraded(k, job, ids, n - 1, now, visits, settings);
      StaysDegraded(k, Visited(k, job, ids, n - 1, now, visits, settings).job, now, visits[n - 1], settings);
    }
  }

  /** The loop over the jobs. */
  method VisitJobs(store: JobStore, blobs: BlobStore, producer: Producer, metrics: Consumers.Metrics, now: real,
                   ids: seq<JobId>, leader: seq<bool>, visits: seq<Visit>, stuck: seq<set<string>>,
                   settings: Settings)
    returns (requeued: nat)
    requires |ids| == |leader| == |visits| == |stuck|
    modifies store, blobs, producer, metrics
    ensures AllVisited(old(store.jobs), store.jobs, old(producer.log), producer.log, ids, TurnsLed(leader), now, visits, settings)
    ensures SideEffects(old(store.jobs), old(metrics.finished), metrics.finished, old(blobs.objects.Keys), blobs.objects.Keys,
                        ids, TurnsLed(leader), now, visits, stuck, settings)
    ensures forall key :: key in blobs.objects ==> key in old(blobs.objects) && blobs.objects[key] == old(blobs.objects)[key]
    ensures |producer.log| == |old(producer.log)| + requeued
    ensures metrics.requeued == old(metrics.requeued) + requeued
  {
    ghost var jobs, log, finished, keys := store.jobs, producer.log, metrics.finished, blobs.objects.Keys;
    NothingVisited(jobs, log, finished, keys, ids, now, visits, stuck, settings);
    requeued := 0;
    var i := 0;
    while i < |ids|
      invariant i <= TurnsLed(leader)
      invariant AllVisited(jobs, store.jobs, log, producer.log, ids, i, now, visits, settings)
      invariant SideEffects(jobs, finished, metrics.finished, keys, blobs.objects.Keys, ids, i, now, visits, stuck, settings)
      invariant forall key :: key in blobs.objects ==> key in old(blobs.objects) && blobs.objects[key] == old(blobs.objects)[key]
      invariant |producer.log| == |log| + requeued
      invariant metrics.requeued == old(metrics.requeued) + requeued
    {
      if !leader[i] {
        break;
      }
      var n := VisitJob(store, blobs, producer, metrics, now, ids, i, visits, stuck, settings, jobs, log, finished, keys);
      requeued := requeued + n;
      i := i + 1;
    }
  }

  lemma NothingVisited(jobs: map<JobId, Job>, log: seq<Record>, finished: multiset<(string, string)>, keys: set<string>,
                       ids: seq<JobId>, now: real, visits: seq<Visit>, stuck: seq<set<string>>, settings: Settings)
    requires |ids| == |visits| == |stuck|
    ensures AllVisited(jobs, jobs, log, log, ids, 0, now, visits, settings)
    ensures SideEffects(jobs, finished, finished, keys, keys, ids, 0, now, visits, stuck, settings)
  {
  }

  /** The i-th visit; jobs, log, finished and keys are from before the sweep. */
  method VisitJob(store: JobStore, blobs: BlobStore, producer: Producer, metrics: Consumers.Metrics, now: real,
                  ids: seq<JobId>, i: nat, visits: seq<Visit>, stuck: seq<set<string>>, settings: Settings,
                  ghost jobs: map<JobId, Job>, ghost log: seq<Record>, ghost finished: multiset<(string, string)>,
                  ghost keys: set<string>)
    returns (requeued: nat)
    requires i < |ids| == |visits| == |stuck|
    requires AllVisited(jobs, store.jobs, log, producer.log, ids, i, now, visits, settings)
    requires SideEffects(jobs, finished, metrics.finished, keys, blobs.objects.Keys, ids, i, now, visits, stuck, settings)
    modifies store, blobs, producer, metrics
    ensures AllVisited(jobs, store.jobs, log, producer.log, ids, i + 1, now, visits, settings)
    ensures SideEffects(jobs, finished, metrics.finished, keys, blobs.objects.Keys, ids, i + 1, now, visits, stuck, settings)
    ensures forall key :: key in blobs.objects ==> key in old(blobs.objects) && blobs.objects[key] == old(blobs.objects)[key]
    ensures |producer.log| == |old(producer.log)| + requeued
    ensures metrics.requeued == old(metrics.requeued) + requeued
  {
    ghost var job, jobs', log' := store.At(ids[i]), store.jobs, producer.log;
    ghost var finished', objects' := metrics.finished, blobs.objects;
    requeued := SweepJob(store, blobs, producer, metrics, ids[i], now, visits[i], stuck[i], settings);
    forall k | k != ids[i]
      ensures JobAt(store.jobs, k) == JobAt(jobs', k)
    {
      assert store.At(k) == old(store.At(k));
    }
    AsVisited(jobs, jobs', log, log', ids, i, now, visits, settings);
    SideEffectsNext(jobs, job, finished, finished', metrics.finished, keys, objects'.Keys, blobs.objects.Keys,
                    ids, i, now, visits, stuck, settings);
    VisitedNext(jobs, jobs', store.jobs, log, log', producer.log, ids, i, now, visits, settings);
  }

  /** ... and the metric and the blob store are where the visits lead. */
  ghost predicate SideEffects(jobs: map<JobId, Job>, finished: multiset<(string, string)>, finished': multiset<(string, string)>,
                              keys: set<string>, keys': set<string>, ids: seq<JobId>, n: nat, now: real,
                              visits: seq<Visit>, stuck: seq<set<string>>, settings: Settings)
    requires n <= |ids| == |visits| == |stuck|
  {
    && finished' == finished + Finished(jobs, ids, n, now, visits, settings)
    && forall key :: key in keys' <==> key in keys && Survives(key, jobs, ids, n, now, visits, stuck, settings)
  }

  lemma AsVisited(jobs: map<JobId, Job>, jobs': map<JobId, Job>, log: seq<Record>, log': seq<Record>,
                  ids: seq<JobId>, n: nat, now: real, visits: seq<Visit>, settings: Settings)
    requires n < |ids| == |visits| && AllVisited(jobs, jobs', log, log', ids, n, now, visits, settings)
    ensures JobAt(jobs', ids[n]) == Visited(ids[n], JobAt(jobs, ids[n]), ids, n, now, visits, settings).job
  {
  }

  lemma SideEffectsNext(jobs: map<JobId, Job>, job: Job,
                        finished: multiset<(string, string)>, finished': multiset<(string, string)>, finished'': multiset<(string, string)>,
                        keys: set<string>, keys': set<string>, keys'': set<string>, ids: seq<JobId>, n: nat, now: real,
                        visits: seq<Visit>, stuck: seq<set<string>>, settings: Settings)
    requires n < |ids| == |visits| == |stuck|
    requires SideEffects(jobs, finished, finished', keys, keys', ids, n, now, visits, stuck, settings)
    requires job == Visited(ids[n], JobAt(jobs, ids[n]), ids, n, now, visits, settings).job
    requires finished'' == finished' + if TurnsDegraded(job, now, settings) then multiset{(Pipeline(job), "degraded")} else multiset{}
    requires forall key :: key in keys'' <==>
               key in keys' && (TurnsDegraded(job, now, settings) && UnderJob(key, ids[n]) ==> key in stuck[n])
    ensures SideEffects(jobs, finished, finished'', keys, keys'', ids, n + 1, now, visits, stuck, settings)
  {
  }

  /** The loop invariant of reap_once: every job is where its own visits lead, and so is the log. */
  ghost predicate AllVisited(jobs: map<JobId, Job>, jobs': map<JobId, Job>, log: seq<Record>, log': seq<Record>,
                             ids: seq<JobId>, n: nat, now: real, visits: seq<Visit>, settings: Settings)
    requires n <= |ids| == |visits|
  {
    forall k ::
      var r := Visited(k, JobAt(jobs, k), ids, n, now, visits, settings);
      JobAt(jobs', k) == r.job && OfTaskJob(log', k) == OfTaskJob(log, k) + r.sent
  }

  lemma VisitedNext(jobs: map<JobId, Job>, jobs': map<JobId, Job>, jobs'': map<JobId, Job>,
                    log: seq<Record>, log': seq<Record>, log'': seq<Record>,
                    ids: seq<JobId>, n: nat, now: real, visits: seq<Visit>, settings: Settings)
    requires n < |ids| == |visits| && AllVisited(jobs, jobs', log, log', ids, n, now, visits, settings)
    requires var one := SweptJob(ids[n], JobAt(jobs', ids[n]), now, visits[n], settings);
             JobAt(jobs'', ids[n]) == one.job && log'' == log' + one.sent
    requires forall k :: k != ids[n] ==> JobAt(jobs'', k) == JobAt(jobs', k)
    ensures AllVisited(jobs, jobs'', log, log'', ids, n + 1, now, visits, settings)
  {
    var one := SweptJob(ids[n], JobAt(jobs', ids[n]), now, visits[n], settings);
    SweptForItsJob(ids[n], JobAt(jobs', ids[n]), now, visits[n], settings);
    forall k
      ensures var r := Visited(k, JobAt(jobs, k), ids, n + 1, now, visits, settings);
              JobAt(jobs'', k) == r.job && OfTaskJob(log'', k) == OfTaskJob(log, k) + r.sent
    {
      var r := Visited(k, JobAt(jobs, k), ids, n, now, visits, settings);
      AppendOfJob(log', one.sent, ids[n], k);
      VisitedOne(k, JobAt(jobs, k), ids, n, now, visits, settings, r);
      Regroup(OfTaskJob(log, k), r.sent, one.sent);
    }
  }

  lemma VisitedOne(k: JobId, job: Job, ids: seq<JobId>, n: nat, now: real, visits: seq<Visit>,
                   settings: Settings, before: Swept)
    requires n < |ids| == |visits| && before == Visited(k, job, ids, n, now, visits, settings)
    ensures Visited(k, job, ids, n + 1, now, visits, settings) ==
              if ids[n] != k then before
              else var one := SweptJob(k, before.job, now, visits[n], settings); Swept(one.job, before.sent + one.sent)
  {
  }

  lemma Regroup<T>(a: seq<T>, b: seq<T>, c: seq<T>)
    ensures a + b + c == a + (b + c) && a + b == a + b + []
  {
  }

  lemma {:induction false} AppendOfJob(log: seq<Record>, sent: seq<Record>, id: JobId, k: JobId)
    requires forall r :: r in sent ==> r.task.job == id
    ensures OfTaskJob(log + sent, k) == OfTaskJob(log, k) + if k == id then sent else []
  {
    if sent == [] {
      assert log + sent == log;
    } else {
      var n := |sent| - 1;
      assert (log + sent)[..|log| + n] == log + sent[..n];
      AppendOfJob(log, sent[..n], id, k);
      assert sent[n] in sent;
      assert sent == sent[..n] + [sent[n]];
    }
  }

  lemma SweptForItsJob(id: JobId, job: Job, now: real, visit: Visit, settings: Settings)
    ensures forall r :: r in SweptJob(id, job, now, visit, settings).sent ==> r.task.job == id
  {
    if job.meta.Some? {
      var tiles := Retryable(job);
      LoopForItsJob(id, job.meta.value, job, tiles, Through(tiles, visit.cut), visit.present, settings);
    }
  }

  lemma {:induction false} LoopForItsJob(id: JobId, meta: Meta, job: Job, tiles: seq<TileId>, n: nat,
                                         present: set<string>, settings: Settings)
    requires n <= |tiles|
    ensures forall r :: r in RetryLoop(job, tiles, n, MessagesOf(id, meta, present, settings), settings.maxAttempts).sent
                        ==> r.task.job == id
  {
    if n > 0 {
      LoopForItsJob(id, meta, job, tiles, n - 1, present, settings);
      var messages := MessagesOf(id, meta, present, settings);
      var before := RetryLoop(job, tiles, n - 1, messages, settings.maxAttempts);
      var one := Retried(before.job, tiles[n - 1], messages, settings.maxAttempts);
      LoopNext(job, tiles, n - 1, messages, settings.maxAttempts, one);
      RetriedForItsJob(id, meta, before.job, tiles[n - 1], present, settings);
    }
  }

  lemma RetriedForItsJob(id: JobId, meta: Meta, job: Job, t: TileId, present: set<string>, settings: Settings)
    ensures forall r :: r in Retried(job, t, MessagesOf(id, meta, present, settings), settings.maxAttempts).sent ==> r.task.job == id
  {
  }

  // ---------------------------------------------------------------- what one sweep decides

  /** The attempt counter still allows a requeue of t, and there is a message for it. */
  predicate Requeues(job: Job, t: TileId, messages: Messages, maxAttempts: int) {
    Attempts(job, t) + 2 <= maxAttempts && messages(t, Attempts(job, t) + 2).Some?
  }

  /** What the loop made of tile t, where `done` are the tiles it has been through. */
  predicate TileDecided(job: Job, r: Swept, done: set<TileId>, t: TileId, messages: Messages, maxAttempts: int)
  {
    && Attempts(r.job, t) == Attempts(job, t) + (if t in done then 1 else 0)
    && (t in r.job.abandoned <==> t in job.abandoned || (t in done && !Requeues(job, t, messages, maxAttempts)))
    && (t in done && Requeues(job, t, messages, maxAttempts) ==> messages(t, Attempts(job, t) + 2).value in r.sent)
  }

  /** m is the message of one of the tiles. */
  ghost predicate MessageOfOne(job: Job, m: Record, done: set<TileId>, messages: Messages, maxAttempts: int)
  {
    exists t :: t in done && Requeues(job, t, messages, maxAttempts) && m == messages(t, Attempts(job, t) + 2).value
  }

  /** What the loop made of the tiles in `done`. */
  ghost predicate Decided(job: Job, r: Swept, done: set<TileId>, messages: Messages, maxAttempts: int)
  {
    && r.job == job.(attempts := r.job.attempts, abandoned := r.job.abandoned)
    && (forall t: TileId :: TileDecided(job, r, done, t, messages, maxAttempts))
    && (forall m :: m in r.sent ==> MessageOfOne(job, m, done, messages, maxAttempts))
    && |r.sent| + |r.job.abandoned| == |done| + |job.abandoned|
  }

  function Upto(tiles: seq<TileId>, n: nat): set<TileId>
    requires n <= |tiles|
  {
    if n == 0 then {} else Upto(tiles, n - 1) + {tiles[n - 1]}
  }

  lemma {:induction false} UptoBelow(tiles: seq<TileId>, n: nat, x: int)
    requires n <= |tiles| && forall i :: 0 <= i < n ==> tiles[i] < x
    ensures forall t :: t in Upto(tiles, n) ==> t < x
  {
    if n > 0 {
      UptoBelow(tiles, n - 1, x);
    }
  }

  lemma {:induction false} UptoMembers(tiles: seq<TileId>, n: nat)
    requires n <= |tiles|
    ensures forall t :: t in Upto(tiles, n) <==> t in tiles[..n]
  {
    if n > 0 {
      UptoMembers(tiles, n - 1);
      assert tiles[..n] == tiles[..n - 1] + [tiles[n - 1]];
    }
  }

  lemma {:induction false} LoopDecides(job: Job, tiles: seq<TileId>, n: nat, messages: Messages, maxAttempts: int)
    requires n <= |tiles|
    requires forall i, j :: 0 <= i < j < |tiles| ==> tiles[i] < tiles[j]
    requires forall i :: 0 <= i < |tiles| ==> tiles[i] !in job.abandoned
    ensures Decided(job, RetryLoop(job, tiles, n, messages, maxAttempts), Upto(tiles, n), messages, maxAttempts)
    ensures |Upto(tiles, n)| == n
  {
    if n == 0 {
      NoneDecided(job, messages, maxAttempts);
    } else {
      LoopDecides(job, tiles, n - 1, messages, maxAttempts);
      UptoBelow(tiles, n - 1, tiles[n - 1]);
      DecidedNext(job, tiles, n - 1, messages, maxAttempts);
    }
  }

  lemma DecidedNext(job: Job, tiles: seq<TileId>, n: nat, messages: Messages, maxAttempts: int)
    requires n < |tiles| && tiles[n] !in Upto(tiles, n) && tiles[n] !in job.abandoned
    requires Decided(job, RetryLoop(job, tiles, n, messages, maxAttempts), Upto(tiles, n), messages, maxAttempts)
    ensures Decided(job, RetryLoop(job, tiles, n + 1, messages, maxAttempts), Upto(tiles, n + 1), messages, maxAttempts)
  {
    var before := RetryLoop(job, tiles, n, messages, maxAttempts);
    var one := Retried(before.job, tiles[n], messages, maxAttempts);
    OneDecided(job, before, Upto(tiles, n), tiles[n], messages, maxAttempts);
    assert RetryLoop(job, tiles, n + 1, messages, maxAttempts) == Swept(one.job, before.sent + one.sent);
    assert Upto(tiles, n + 1) == Upto(tiles, n) + {tiles[n]};
  }

  lemma NoneDecided(job: Job, messages: Messages, maxAttempts: int)
    ensures Decided(job, Swept(job, []), {}, messages, maxAttempts)
  {
    forall t: TileId
      ensures TileDecided(job, Swept(job, []), {}, t, messages, maxAttempts)
    {
    }
  }

  lemma OneDecided(job: Job, before: Swept, done: set<TileId>, t: TileId, messages: Messages, maxAttempts: int)
    requires t !in done && t !in job.abandoned
    requires Decided(job, before, done, messages, maxAttempts)
    ensures var one := Retried(before.job, t, messages, maxAttempts);
            Decided(job, Swept(one.job, before.sent + one.sent), done + {t}, messages, maxAttempts)
  {
    var one := Retried(before.job, t, messages, maxAttempts);
    var r := Swept(one.job, before.sent + one.sent);
    assert TileDecided(job, before, done, t, messages, maxAttempts);
    assert t !in before.job.abandoned;
    assert one.sent == if Requeues(job, t, messages, maxAttempts) then [messages(t, Attempts(job, t) + 2).value] else [];
    forall u: TileId
      ensures TileDecided(job, r, done + {t}, u, messages, maxAttempts)
    {
      assert TileDecided(job, before, done, u, messages, maxAttempts);
    }
    forall m | m in r.sent
      ensures MessageOfOne(job, m, done + {t}, messages, maxAttempts)
    {
      if m in before.sent {
        assert MessageOfOne(job, m, done, messages, maxAttempts);
      } else {
        assert m in one.sent && t in done + {t};
      }
    }
  }

  /**
   Main result.  A due sweep of a job that one of the two routes created counts one attempt for
   every tile that gets its turn, all retryable ones if no exception comes, and then does exactly
   one of two things with it: within the attempt limit and with its blob still stored it produces
   the original dispatch with the attempt number added, otherwise it abandons the tile.  So messages
   and newly abandoned tiles add up to the turns.  An exception can cost one more tile an attempt
   and leaves the reap clock alone; no other tile is concerned, and the TILE_SIZE default plays no
   part.
   */
  lemma SweepDecidesEveryTile(id: JobId, job: Job, now: real, visit: Visit, settings: Settings,
                              route: Route, width: nat, height: nat, tileSize: int, timestamp: real)
    requires ValidRoute(route)
    requires job.meta == Some(MetaOf(route, width, height, tileSize, timestamp))
    requires Due(job, now, settings) && Retryable(job) != []
    ensures var r, done, last := SweptJob(id, job, now, visit, settings), TurnIds(job, visit.cut), CutOff(Retryable(job), visit.cut);
            && (forall t: TileId ::
                  TileSwept(id, job, r, t, done, last, visit.present, settings.maxAttempts, route, Layout(width, height, tileSize)))
            && (forall m :: m in r.sent ==> m.task.tile in done && OfRetried(id, job, m, visit.present, settings.maxAttempts))
            && |r.sent| + |r.job.abandoned - job.abandoned| == |done|
            && r.job == job.(attempts := r.job.attempts, abandoned := r.job.abandoned,
                             lastReap := if visit.cut.None? then now else job.lastReap)
  {
    var meta, done := job.meta.value, TurnIds(job, visit.cut);
    var messages := MessagesOf(id, meta, visit.present, settings);
    var r := SweptJob(id, job, now, visit, settings);
    var looped := RetryLoop(job, Retryable(job), Through(Retryable(job), visit.cut), messages, settings.maxAttempts);
    SweepLoops(id, job, now, visit, settings);
    forall t: TileId
      ensures TileSwept(id, job, r, t, done, CutOff(Retryable(job), visit.cut), visit.present, settings.maxAttempts,
                        route, Layout(width, height, tileSize))
    {
      DecidedBySweep(job, looped, r, visit.cut, t, now, messages, settings.maxAttempts);
      FromDecision(id, job, r, done, CutOff(Retryable(job), visit.cut), t, visit.present, settings, route, width, height, tileSize, timestamp);
    }
    forall m | m in r.sent
      ensures m.task.tile in done && OfRetried(id, job, m, visit.present, settings.maxAttempts)
    {
      assert MessageOfOne(job, m, done, messages, settings.maxAttempts);
      MessageOfRetried(id, job, m, done, messages, visit.present, settings);
    }
    DecidedGrows(job, looped, done, messages, settings.maxAttempts);
    GrowthSize(job.abandoned, r.job.abandoned);
  }

  lemma DecidedGrows(job: Job, r: Swept, done: set<TileId>, messages: Messages, maxAttempts: int)
    requires Decided(job, r, done, messages, maxAttempts)
    ensures job.abandoned <= r.job.abandoned
  {
    forall t | t in job.abandoned
      ensures t in r.job.abandoned
    {
      assert TileDecided(job, r, done, t, messages, maxAttempts);
    }
  }

  lemma FromDecision(id: JobId, job: Job, r: Swept, done: set<TileId>, last: Option<TileId>, t: TileId, present: set<string>,
                     settings: Settings, route: Route, width: nat, height: nat, tileSize: int, timestamp: real)
    requires ValidRoute(route)
    requires job.meta == Some(MetaOf(route, width, height, tileSize, timestamp))
    requires TileEnded(job, r, done, last, t, MessagesOf(id, job.meta.value, present, settings), settings.maxAttempts)
    requires forall u :: u in done ==> MayRetry(job, u)
    ensures TileSwept(id, job, r, t, done, last, present, settings.maxAttempts, route, Layout(width, height, tileSize))
  {
    var attempt := Attempts(job, t) + 2;
    if t in done {
      MessageIsOriginal(id, route, width, height, tileSize, timestamp, t, attempt, present, settings);
    }
  }

  /** With the blob still stored, the message for a tile is the original dispatch plus the attempt number. */
  lemma MessageIsOriginal(id: JobId, route: Route, width: nat, height: nat, tileSize: int, timestamp: real,
                          t: TileId, attempt: int, present: set<string>, settings: Settings)
    requires ValidRoute(route)
    requires 0 <= t < |Layout(width, height, tileSize)|
    ensures var original := Dispatched(id, route, Layout(width, height, tileSize)[t]);
            Message(id, MetaOf(route, width, height, tileSize, timestamp), t, attempt, present, settings)
            == if BlobKey(id, BlobKind(route), t) in present
               then Some(original.(task := original.task.(attempt := Some(attempt)))) else None
  {
    RequeueReproducesDispatch(id, route, width, height, tileSize, timestamp, settings.tileSize, t, attempt);
    if route.Upload? {
      DetectionIsNoUpload(route.operation);
    }
  }

  lemma MessageOfRetried(id: JobId, job: Job, m: Record, done: set<TileId>, messages: Messages,
                         present: set<string>, settings: Settings)
    requires job.meta.Some? && messages == MessagesOf(id, job.meta.value, present, settings)
    requires MessageOfOne(job, m, done, messages, settings.maxAttempts) && forall t :: t in done ==> MayRetry(job, t)
    ensures m.task.tile in done && OfRetried(id, job, m, present, settings.maxAttempts)
  {
    var t :| t in done && Requeues(job, t, messages, settings.maxAttempts)
             && m == messages(t, Attempts(job, t) + 2).value;
    MessageFor(id, job, t, m, messages, present, settings);
  }

  lemma MessageFor(id: JobId, job: Job, t: TileId, m: Record, messages: Messages, present: set<string>, settings: Settings)
    requires job.meta.Some? && messages == MessagesOf(id, job.meta.value, present, settings)
    requires MayRetry(job, t) && Requeues(job, t, messages, settings.maxAttempts)
    requires messages(t, Attempts(job, t) + 2) == Some(m)
    ensures m.task.tile == t && OfRetried(id, job, m, present, settings.maxAttempts)
  {
  }

  /** m is for a retryable tile within its attempt limit and with its blob stored. */
  predicate OfRetried(id: JobId, job: Job, m: Record, present: set<string>, maxAttempts: int)
    requires job.meta.Some?
  {
    var t := m.task.tile;
    && MayRetry(job, t) && Attempts(job, t) + 2 <= maxAttempts && RequeueKey(id, job.meta.value.operation, t) in present
  }

  /** What the visit made of tile t; `last` is the tile whose attempt was counted when an exception came. */
  predicate TileEnded(job: Job, r: Swept, done: set<TileId>, last: Option<TileId>, t: TileId, messages: Messages, maxAttempts: int)
  {
    && Attempts(r.job, t) == Attempts(job, t) + (if t in done || last == Some(t) then 1 else 0)
    && (t in r.job.abandoned <==> t in job.abandoned || (t in done && !Requeues(job, t, messages, maxAttempts)))
    && (t in done && Requeues(job, t, messages, maxAttempts) ==> messages(t, Attempts(job, t) + 2).value in r.sent)
  }

  lemma DecidedBySweep(job: Job, looped: Swept, r: Swept, cut: Option<Cut>, t: TileId, now: real,
                       messages: Messages, maxAttempts: int)
    requires Retryable(job) != [] && Decided(job, looped, TurnIds(job, cut), messages, maxAttempts)
    requires looped == RetryLoop(job, Retryable(job), Through(Retryable(job), cut), messages, maxAttempts)
    requires r == LoopEnd(job, Retryable(job), messages, maxAttempts, cut, now)
    ensures TileEnded(job, r, TurnIds(job, cut), CutOff(Retryable(job), cut), t, messages, maxAttempts)
  {
    var done, last := TurnIds(job, cut), CutOff(Retryable(job), cut);
    assert TileDecided(job, looped, done, t, messages, maxAttempts);
    if last.Some? {
      CutOffNotThrough(job, cut);
    }
    EndOf(job, looped, r, done, last, t, messages, maxAttempts);
  }

  lemma EndOf(job: Job, looped: Swept, r: Swept, done: set<TileId>, last: Option<TileId>, t: TileId,
              messages: Messages, maxAttempts: int)
    requires TileDecided(job, looped, done, t, messages, maxAttempts) && (last.Some? ==> last.value !in done)
    requires r.sent == looped.sent && r.job.abandoned == looped.job.abandoned
    requires r.job.attempts == if last.Some? then IncrAttempts(looped.job, last.value).attempts else looped.job.attempts
    ensures TileEnded(job, r, done, last, t, messages, maxAttempts)
  {
  }

  lemma CutOffNotThrough(job: Job, cut: Option<Cut>)
    requires CutOff(Retryable(job), cut).Some?
    ensures CutOff(Retryable(job), cut).value !in TurnIds(job, cut)
  {
  }

  /** The tiles a sweep must retry. */
  predicate MayRetry(job: Job, t: TileId) {
    0 <= t < Expected(job) && t !in job.tiles && t !in job.abandoned
  }

  /** The tiles that get their whole turn: the retryable ones, or the first of them if an exception comes. */
  function TurnIds(job: Job, cut: Option<Cut>): (r: set<TileId>)
    ensures forall t :: t in r <==> t in Retryable(job)[..Through(Retryable(job), cut)]
    ensures forall t: TileId :: t in r ==> MayRetry(job, t)
    ensures cut.None? ==> forall t: TileId :: t in r <==> MayRetry(job, t)
  {
    var tiles := Retryable(job);
    var n := Through(tiles, cut);
    assert forall t: TileId :: MayRetry(job, t) <==> t in tiles;
    assert n == |tiles| ==> tiles[..n] == tiles;
    UptoMembers(tiles, n);
    Upto(tiles, n)
  }

  lemma SweepIsLoop(id: JobId, job: Job, now: real, visit: Visit, settings: Settings)
    requires Due(job, now, settings) && Retryable(job) != []
    requires TileSizeOf(job.meta.value, settings.tileSize) != 0
    ensures var messages := MessagesOf(id, job.meta.value, visit.present, settings);
            SweptJob(id, job, now, visit, settings) == LoopEnd(job, Retryable(job), messages, settings.maxAttempts, visit.cut, now)
  {
    var tiles := Retryable(job);
    assert tiles[0] in Retryable(job);
    assert tiles[0] in Missing(job);
  }

  lemma TurnsDecide(job: Job, cut: Option<Cut>, messages: Messages, maxAttempts: int)
    ensures var n := Through(Retryable(job), cut);
            && Decided(job, RetryLoop(job, Retryable(job), n, messages, maxAttempts), TurnIds(job, cut), messages, maxAttempts)
            && |TurnIds(job, cut)| == n
  {
    var tiles := Retryable(job);
    forall i | 0 <= i < |tiles|
      ensures tiles[i] !in job.abandoned
    {
      assert tiles[i] in Retryable(job);
    }
    var n := Through(tiles, cut);
    LoopDecides(job, tiles, n, messages, maxAttempts);
    UptoMembers(tiles, n);
    assert TurnIds(job, cut) == Upto(tiles, n);
  }

  /** A due sweep with something to retry runs the loop over it. */
  lemma SweepLoops(id: JobId, job: Job, now: real, visit: Visit, settings: Settings)
    requires Due(job, now, settings) && Retryable(job) != []
    requires TileSizeOf(job.meta.value, settings.tileSize) != 0
    ensures var messages, n := MessagesOf(id, job.meta.value, visit.present, settings), Through(Retryable(job), visit.cut);
            var looped := RetryLoop(job, Retryable(job), n, messages, settings.maxAttempts);
            && SweptJob(id, job, now, visit, settings) == LoopEnd(job, Retryable(job), messages, settings.maxAttempts, visit.cut, now)
            && Decided(job, looped, TurnIds(job, visit.cut), messages, settings.maxAttempts)
            && |TurnIds(job, visit.cut)| == n
  {
    SweepIsLoop(id, job, now, visit, settings);
    TurnsDecide(job, visit.cut, MessagesOf(id, job.meta.value, visit.present, settings), settings.maxAttempts);
  }

  lemma GrowthSize<T>(a: set<T>, b: set<T>)
    requires a <= b
    ensures |b - a| == |b| - |a|
  {
    assert b == a + (b - a);
  }

  /** What a sweep does to one tile, told without the loop. */
  predicate TileSwept(id: JobId, job: Job, r: Swept, t: TileId, done: set<TileId>, last: Option<TileId>, present: set<string>,
                      maxAttempts: int, route: Route, layout: seq<Geometry>)
    requires job.meta.Some?
  {
    var attempt := Attempts(job, t) + 2;
    var alive := attempt <= maxAttempts && BlobKey(id, BlobKind(route), t) in present;
    && Attempts(r.job, t) == Attempts(job, t) + (if t in done || last == Some(t) then 1 else 0)
    && (t in r.job.abandoned <==> t in job.abandoned || (t in done && !alive))
    && (t in done && alive ==>
          && 0 <= t < |layout|
          && var original := Dispatched(id, route, layout[t]);
             original.(task := original.task.(attempt := Some(attempt))) in r.sent)
  }

  lemma {:induction false} LoopKeepsTheRest(job: Job, tiles: seq<TileId>, n: nat, messages: Messages, maxAttempts: int)
    requires n <= |tiles|
    ensures var j := RetryLoop(job, tiles, n, messages, maxAttempts).job;
            j == job.(attempts := j.attempts, abandoned := j.abandoned)
  {
    if n > 0 {
      LoopKeepsTheRest(job, tiles, n - 1, messages, maxAttempts);
    }
  }

  /** All that a visit can change in a job that is not degraded by it. */
  lemma SweepKeepsTheRest(id: JobId, job: Job, now: real, visit: Visit, settings: Settings)
    requires Due(job, now, settings) && Retryable(job) != []
    ensures var r := SweptJob(id, job, now, visit, settings);
            && r.job == job.(attempts := r.job.attempts, abandoned := r.job.abandoned, lastReap := r.job.lastReap)
            && (r.job.lastReap == job.lastReap || r.job.lastReap == now)
            && (r.sent != [] && visit.cut.None? ==> r.job.lastReap == now)
  {
    var tiles := Retryable(job);
    LoopKeepsTheRest(job, tiles, Through(tiles, visit.cut), MessagesOf(id, job.meta.value, visit.present, settings), settings.maxAttempts);
  }

  /** With a positive timeout an id that SCAN reports again changes nothing, if the first visit went through. */
  lemma {:induction false} RepeatedIdsAreHarmless(k: JobId, job: Job, ids: seq<JobId>, first: nat, n: nat, now: real,
                                                  visits: seq<Visit>, settings: Settings)
    requires first < n <= |ids| == |visits| && settings.timeout > 0.0
    requires ids[first] == k && k !in ids[..first] && visits[first].cut.None?
    ensures Visited(k, job, ids, n, now, visits, settings) == SweptJob(k, job, now, visits[first], settings)
  {
    if n - 1 == first {
      NotVisited(k, job, ids, first, now, visits, settings);
    } else {
      RepeatedIdsAreHarmless(k, job, ids, first, n - 1, now, visits, settings);
      SecondVisit(k, job, now, visits[first], visits[n - 1], settings);
    }
  }

  lemma {:induction false} NotVisited(k: JobId, job: Job, ids: seq<JobId>, n: nat, now: real,
                                      visits: seq<Visit>, settings: Settings)
    requires n <= |ids| == |visits| && k !in ids[..n]
    ensures Visited(k, job, ids, n, now, visits, settings) == Swept(job, [])
  {
    if n > 0 {
      assert ids[n - 1] in ids[..n];
      assert ids[..n - 1] <= ids[..n];
      NotVisited(k, job, ids, n - 1, now, visits, settings);
    }
  }

  lemma SecondVisit(k: JobId, job: Job, now: real, visit: Visit, visit': Visit, settings: Settings)
    requires settings.timeout > 0.0 && visit.cut.None?
    ensures var once := SweptJob(k, job, now, visit, settings).job;
            SweptJob(k, once, now, visit', settings) == Swept(once, [])
  {
    if Due(job, now, settings) && Retryable(job) != [] {
      SweepKeepsTheRest(k, job, now, visit, settings);
    }
  }
}
