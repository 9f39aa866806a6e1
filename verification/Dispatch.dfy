/**
 How a tile's task reaches Kafka: the original dispatch of master/publisher.py and
 master/ml_publisher.py, and the requeue of master/reaper.py, which must reproduce it from
 nothing but the job hash.
 */
module Dispatch {
  import opened Collections
  import opened JobRecords
  import opened JobStore
  import opened Blobs
  import opened Tiling

  const TASK_TOPIC := "tasks"
  const ML_TASK_TOPIC := "ml_tasks"

  const OBJECT_DETECTION := "object_detection"

  /** The keys that /upload accepts as `operation`. */
  const PROCESSING_OPERATIONS: set<string> := {
    "grayscale", "color_inversion", "blur_gaussian", "blur_median", "blur_bilateral",
    "edge_canny", "edge_sobel", "edge_laplacian", "sharpen", "histogram_equalization",
    "threshold_binary", "contour_detection", "morphological_opening"
  }

  /** Timestamps are left out; `attempt` is absent on the original dispatch. */
  datatype Task = Task(
    job: JobId, tile: TileId, operation: Option<string>, blobKey: string,
    x: int, y: int, width: int, height: int, attempt: Option<int>)

  datatype Record = Record(topic: string, key: string, task: Task)

  class Producer {
    var log: seq<Record>

    constructor ()
      ensures log == []
    {
      log := [];
    }
  }

  /** Which route created the job. */
  datatype Route = Upload(operation: string) | Detect

  /** The message key f"{job_id}:{tile_id}". */
  function MessageKey(id: JobId, t: TileId): string {
    id + ":" + Str(t)
  }

  // ---------------------------------------------------------------- original dispatch

  /** What publish_tile_tasks and publish_ml_tasks produce for one tile. */
  function Dispatched(id: JobId, route: Route, g: Geometry): Record
  {
    match route
    case Upload(operation) =>
      Record(TASK_TOPIC, MessageKey(id, g.id),
             Task(id, g.id, Some(operation), BlobKey(id, "task", g.id), g.x, g.y, g.width, g.height, None))
    case Detect =>
      Record(ML_TASK_TOPIC, MessageKey(id, g.id),
             Task(id, g.id, None, BlobKey(id, "ml_task", g.id), g.x, g.y, g.width, g.height, None))
  }

  /** The message key tells tiles of all jobs apart; ids are UUIDs, so they contain no ':'. */
  lemma MessageKeyInjective(id: JobId, t: TileId, j: JobId, u: TileId)
    requires ':' !in id && ':' !in j && MessageKey(id, t) == MessageKey(j, u)
    ensures id == j && t == u
  {
    var key := MessageKey(id, t);
    UpToColon(id, t);
    UpToColon(j, u);
    assert |id| == |j|;
    assert id == key[..|id|] && j == key[..|j|];
    assert Str(t) == key[|id| + 1..] && Str(u) == key[|j| + 1..];
    StrInjective(t, u);
  }

  lemma UpToColon(id: JobId, t: TileId)
    requires ':' !in id
    ensures |id| < |MessageKey(id, t)| && MessageKey(id, t)[|id|] == ':'
    ensures MessageKey(id, t)[..|id|] == id && MessageKey(id, t)[|id| + 1..] == Str(t)
    ensures forall k :: 0 <= k < |id| ==> MessageKey(id, t)[k] != ':'
  {
    var key := MessageKey(id, t);
    assert forall k :: 0 <= k < |id| ==> key[k] == id[k];
    assert key[|id|] == (id + ":")[|id|];
  }

  /** What becomes of a produced message; `reported` is whether the failure callback got to run. */
  datatype Transfer = Delivered | Lost(reported: bool)

  /**
   How publishing one tile goes: an exception before the blob is stored, in produce(), or neither.
   `polled` and `flushed` say whether poll() goes well after that, and flush() if a batch is full.
   */
  datatype Fate = StageFailed | QueueFull | ProduceFailed | Produced(transfer: Transfer, polled: bool, flushed: bool)

  /** The message gets to the topic. */
  predicate GetsThere(fate: Fate) {
    fate.Produced? && fate.transfer.Delivered?
  }

  /** An exception after produce(), when `published` tiles have been counted before; a batch size of 0 divides by 0. */
  predicate RaisesLate(fate: Fate, published: nat, batchSize: int) {
    fate.Produced? && (!fate.polled || batchSize == 0 || ((published + 1) % batchSize == 0 && !fate.flushed))
  }

  function PublishedCount(fates: seq<Fate>, n: nat): nat
    requires n <= |fates|
  {
    if n == 0 then 0 else PublishedCount(fates, n - 1) + if fates[n - 1].Produced? && fates[n - 1].polled then 1 else 0
  }

  /** How often failed_tasks is incremented for a tile. */
  function Failures(fate: Fate, published: nat, batchSize: int): nat {
    (if !fate.Produced? || RaisesLate(fate, published, batchSize) then 1 else 0)
    + if fate.Produced? && fate.transfer == Lost(true) then 1 else 0
  }

  function FailureCount(fates: seq<Fate>, batchSize: int, n: nat): nat
    requires n <= |fates|
  {
    if n == 0 then 0
    else FailureCount(fates, batchSize, n - 1) + Failures(fates[n - 1], PublishedCount(fates, n - 1), batchSize)
  }

  function LateExceptions(fates: seq<Fate>, batchSize: int, n: nat): nat
    requires n <= |fates|
  {
    if n == 0 then 0
    else LateExceptions(fates, batchSize, n - 1)
         + if RaisesLate(fates[n - 1], PublishedCount(fates, n - 1), batchSize) then 1 else 0
  }

  function Unreported(fates: seq<Fate>, n: nat): nat
    requires n <= |fates|
  {
    if n == 0 then 0
    else Unreported(fates, n - 1) + if fates[n - 1].Produced? && fates[n - 1].transfer == Lost(false) then 1 else 0
  }

  /** The messages for all tiles, one each. */
  function DispatchedAll(id: JobId, route: Route, tiles: seq<Geometry>): (r: seq<Record>)
    ensures |r| == |tiles| && forall i :: 0 <= i < |r| ==> r[i] == Dispatched(id, route, tiles[i])
  {
    seq(|tiles|, i requires 0 <= i < |tiles| => Dispatched(id, route, tiles[i]))
  }

  /** Of the first n messages, in completion order, those that get to the topic. */
  function Sent(records: seq<Record>, fates: seq<Fate>, n: nat): (r: seq<Record>)
    requires n <= |records| == |fates|
    ensures |r| <= n
  {
    if n == 0 then []
    else Sent(records, fates, n - 1) + if GetsThere(fates[n - 1]) then [records[n - 1]] else []
  }

  lemma {:induction false} SentIsWhatWasPublished(records: seq<Record>, fates: seq<Fate>, n: nat, rec: Record)
    requires n <= |records| == |fates|
    ensures rec in Sent(records, fates, n) <==> exists i :: 0 <= i < n && GetsThere(fates[i]) && rec == records[i]
  {
    if n > 0 {
      SentIsWhatWasPublished(records, fates, n - 1, rec);
    }
  }

  /**
   What failed_tasks counts: the tiles whose message is not in the topic, except losses that were
   never reported, and one more for every exception after produce().
   */
  lemma {:induction false} FailedTasksAddUp(records: seq<Record>, fates: seq<Fate>, batchSize: int, n: nat)
    requires n <= |records| == |fates|
    ensures FailureCount(fates, batchSize, n) + Unreported(fates, n) ==
              n - |Sent(records, fates, n)| + LateExceptions(fates, batchSize, n)
  {
    if n > 0 {
      FailedTasksAddUp(records, fates, batchSize, n - 1);
    }
  }

  function BlobKind(route: Route): string {
    if route.Upload? then "task" else "ml_task"
  }

  /** One tile: stage its bytes under the key that the message will carry, then produce the message. */
  method PublishOne(store: JobStore, blobs: BlobStore, producer: Producer, id: JobId, route: Route, batchSize: int,
                    ghost expectedKey: string, ghost expected: Record, g: Geometry, data: Bytes, fate: Fate,
                    published: nat) returns (published': nat)
    requires expectedKey == BlobKey(id, BlobKind(route), g.id) && expected == Dispatched(id, route, g)
    modifies store, blobs, producer
    ensures published' == published + if fate.Produced? && fate.polled then 1 else 0
    ensures producer.log == old(producer.log) + if GetsThere(fate) then [expected] else []
    ensures blobs.objects == if fate.StageFailed? then old(blobs.objects)
                             else old(blobs.objects)[expectedKey := data]
    ensures store.At(id) == old(store.At(id)).(failedTasks := old(store.At(id)).failedTasks
                                                             + Failures(fate, published, batchSize))
    ensures forall k :: k != id ==> store.At(k) == old(store.At(k))
  {
    published' := published;
    if !fate.StageFailed? {
      var key := blobs.PutTile(id, g.id, BlobKind(route), data);
    }
    if fate.Produced? {
      Deliver(store, producer, id, Dispatched(id, route, g), fate.transfer);
      if fate.polled {
        published' := published + 1;
      }
      if !fate.polled || batchSize == 0 || (published' % batchSize == 0 && !fate.flushed) {
        store.RecordPublishFailure(id);
      }
    } else {
      store.RecordPublishFailure(id);
    }
  }

  /** The broker's part, and delivery_callback. */
  method Deliver(store: JobStore, producer: Producer, id: JobId, record: Record, transfer: Transfer)
    modifies store, producer
    ensures producer.log == old(producer.log) + if transfer.Delivered? then [record] else []
    ensures store.At(id) == old(store.At(id)).(failedTasks := old(store.At(id)).failedTasks
                                                             + if transfer == Lost(true) then 1 else 0)
    ensures forall k :: k != id ==> store.At(k) == old(store.At(k))
  {
    if transfer.Delivered? {
      producer.log := producer.log + [record];
    } else if transfer.reported {
      store.RecordPublishFailure(id);
    }
  }

  /**
   The publishing loop of both routes, over the tiles in the order in which their staging
   completes.  What gets to the topic, what failed_tasks counts, and the reply: whether any tile
   was published and the last flush did not raise.  Every tile that could be staged is in the blob
   store under the key of its message.
   */
  method PublishTasks(store: JobStore, blobs: BlobStore, producer: Producer, id: JobId, route: Route, batchSize: int,
                      tiles: seq<Geometry>, data: seq<Bytes>, fates: seq<Fate>, drained: bool)
    returns (success: bool)
    requires |tiles| == |data| == |fates|
    requires forall i, j :: 0 <= i < j < |tiles| ==> tiles[i].id != tiles[j].id
    modifies store, blobs, producer
    ensures producer.log == old(producer.log) + Sent(DispatchedAll(id, route, tiles), fates, |tiles|)
    ensures store.At(id) == old(store.At(id)).(failedTasks := old(store.At(id)).failedTasks
                                                             + FailureCount(fates, batchSize, |tiles|))
    ensures forall k :: k != id ==> store.At(k) == old(store.At(k))
    ensures Staged(blobs.objects, StagingKeys(id, route, tiles), data, fates, |tiles|)
    ensures success <==> drained && exists i :: 0 <= i < |fates| && fates[i].Produced? && fates[i].polled
  {
    StagingKeysDiffer(id, route, tiles);
    var published := PublishLoop(store, blobs, producer, id, route, batchSize, tiles, data, fates,
                                 StagingKeys(id, route, tiles), DispatchedAll(id, route, tiles));
    SomePublished(fates, |fates|);
    success := published > 0 && drained;
  }

  lemma {:induction false} SomePublished(fates: seq<Fate>, n: nat)
    requires n <= |fates|
    ensures PublishedCount(fates, n) > 0 <==> exists i :: 0 <= i < n && fates[i].Produced? && fates[i].polled
  {
    if n > 0 {
      SomePublished(fates, n - 1);
    }
  }

  lemma SentOneMore(log: seq<Record>, records: seq<Record>, fates: seq<Fate>, i: nat)
    requires i < |records| == |fates|
    ensures log + Sent(records, fates, i) + (if GetsThere(fates[i]) then [records[i]] else []) == log + Sent(records, fates, i + 1)
  {
  }

  /** The loop itself, on what each tile's key and message must be. */
  method PublishLoop(store: JobStore, blobs: BlobStore, producer: Producer, id: JobId, route: Route, batchSize: int,
                     tiles: seq<Geometry>, data: seq<Bytes>, fates: seq<Fate>, ghost keys: seq<string>, ghost records: seq<Record>)
    returns (published: nat)
    requires |tiles| == |data| == |fates| == |keys| == |records|
    requires forall i :: 0 <= i < |tiles| ==> keys[i] == BlobKey(id, BlobKind(route), tiles[i].id)
    requires forall i :: 0 <= i < |tiles| ==> records[i] == Dispatched(id, route, tiles[i])
    requires forall i, j :: 0 <= i < j < |keys| ==> keys[i] != keys[j]
    modifies store, blobs, producer
    ensures producer.log == old(producer.log) + Sent(records, fates, |tiles|)
    ensures published == PublishedCount(fates, |tiles|)
    ensures store.At(id) == old(store.At(id)).(failedTasks := old(store.At(id)).failedTasks
                                                             + FailureCount(fates, batchSize, |tiles|))
    ensures forall k :: k != id ==> store.At(k) == old(store.At(k))
    ensures Staged(blobs.objects, keys, data, fates, |tiles|)
  {
    ghost var job, log := store.At(id), producer.log;
    published := 0;
    var i := 0;
    while i < |tiles|
      invariant i <= |tiles|
      invariant published == PublishedCount(fates, i) && SoFar(store, producer, id, job, log, records, fates, batchSize, i)
      invariant forall k :: k != id ==> store.At(k) == old(store.At(k))
      invariant Staged(blobs.objects, keys, data, fates, i)
    {
      published := PublishNext(store, blobs, producer, id, route, batchSize, tiles, data, fates, keys, records,
                               i, published, job, log);
      i := i + 1;
    }
  }

  /** The first n tiles are in the topic or counted in failed_tasks, as their fates say. */
  ghost predicate SoFar(store: JobStore, producer: Producer, id: JobId, job: Job, log: seq<Record>,
                        records: seq<Record>, fates: seq<Fate>, batchSize: int, n: nat)
    requires n <= |records| == |fates|
    reads store, producer
  {
    && producer.log == log + Sent(records, fates, n)
    && store.At(id) == job.(failedTasks := job.failedTasks + FailureCount(fates, batchSize, n))
  }

  /** One turn of the loop. */
  method PublishNext(store: JobStore, blobs: BlobStore, producer: Producer, id: JobId, route: Route, batchSize: int,
                     tiles: seq<Geometry>, data: seq<Bytes>, fates: seq<Fate>, ghost keys: seq<string>, ghost records: seq<Record>,
                     i: nat, published: nat, ghost job: Job, ghost log: seq<Record>)
    returns (published': nat)
    requires i < |tiles| == |data| == |fates| == |keys| == |records|
    requires keys[i] == BlobKey(id, BlobKind(route), tiles[i].id) && records[i] == Dispatched(id, route, tiles[i])
    requires forall i, j :: 0 <= i < j < |keys| ==> keys[i] != keys[j]
    requires published == PublishedCount(fates, i) && SoFar(store, producer, id, job, log, records, fates, batchSize, i)
    requires Staged(blobs.objects, keys, data, fates, i)
    modifies store, blobs, producer
    ensures published' == PublishedCount(fates, i + 1)
    ensures SoFar(store, producer, id, job, log, records, fates, batchSize, i + 1)
    ensures forall k :: k != id ==> store.At(k) == old(store.At(k))
    ensures Staged(blobs.objects, keys, data, fates, i + 1)
  {
    ghost var objects := blobs.objects;
    SentOneMore(log, records, fates, i);
    published' := PublishOne(store, blobs, producer, id, route, batchSize, keys[i], records[i], tiles[i], data[i],
                             fates[i], published);
    StagedNext(objects, blobs.objects, keys, data, fates, i);
  }

  /** The bytes of the first n tiles are stored, except where staging failed. */
  ghost predicate Staged(objects: map<string, Bytes>, keys: seq<string>, data: seq<Bytes>, fates: seq<Fate>, n: nat)
    requires n <= |keys| == |data| == |fates|
  {
    forall j :: 0 <= j < n && !fates[j].StageFailed? ==> keys[j] in objects && objects[keys[j]] == data[j]
  }

  lemma StagedNext(objects: map<string, Bytes>, objects': map<string, Bytes>,
                   keys: seq<string>, data: seq<Bytes>, fates: seq<Fate>, n: nat)
    requires n < |keys| == |data| == |fates| && Staged(objects, keys, data, fates, n)
    requires forall i, j :: 0 <= i < j < |keys| ==> keys[i] != keys[j]
    requires objects' == if fates[n].StageFailed? then objects else objects[keys[n] := data[n]]
    ensures Staged(objects', keys, data, fates, n + 1)
  {
  }

  /** The tiles' blob keys. */
  ghost function StagingKeys(id: JobId, route: Route, tiles: seq<Geometry>): (keys: seq<string>)
    ensures |keys| == |tiles|
    ensures forall i :: 0 <= i < |tiles| ==> keys[i] == BlobKey(id, BlobKind(route), tiles[i].id)
  {
    seq(|tiles|, i requires 0 <= i < |tiles| => BlobKey(id, BlobKind(route), tiles[i].id))
  }

  lemma StagingKeysDiffer(id: JobId, route: Route, tiles: seq<Geometry>)
    requires forall i, j :: 0 <= i < j < |tiles| ==> tiles[i].id != tiles[j].id
    ensures forall i, j :: 0 <= i < j < |tiles| ==> StagingKeys(id, route, tiles)[i] != StagingKeys(id, route, tiles)[j]
  {
    forall i, j | 0 <= i < j < |tiles|
      ensures StagingKeys(id, route, tiles)[i] != StagingKeys(id, route, tiles)[j]
    {
      KeysDiffer(id, BlobKind(route), tiles[i].id, tiles[j].id);
    }
  }

  lemma KeysDiffer(id: JobId, kind: string, t: TileId, u: TileId)
    requires t != u
    ensures BlobKey(id, kind, t) != BlobKey(id, kind, u)
  {
    if BlobKey(id, kind, t) == BlobKey(id, kind, u) {
      BlobKeyInjective(id, kind, t, u);
    }
  }

  // ---------------------------------------------------------------- requeue

  /** {g['tile_id']: g for g in geometries}.get(t) */
  function GeometryOf(geometries: seq<Geometry>, t: TileId): (r: Option<Geometry>)
    ensures r.Some? ==> r.value in geometries && r.value.id == t
    ensures r.None? ==> forall g :: g in geometries ==> g.id != t
  {
    if geometries == [] then None
    else
      var last := geometries[|geometries| - 1];
      if last.id == t then Some(last) else GeometryOf(geometries[..|geometries| - 1], t)
  }

  /** The key _republish_tile looks for. */
  function RequeueKey(id: JobId, operation: string, t: TileId): string {
    BlobKey(id, if operation == OBJECT_DETECTION then "ml_task" else "task", t)
  }

  /** The message _republish_tile produces. */
  function Requeued(id: JobId, operation: string, g: Geometry, attempt: int): Record
  {
    var isMl := operation == OBJECT_DETECTION;
    Record(if isMl then ML_TASK_TOPIC else TASK_TOPIC, MessageKey(id, g.id),
           Task(id, g.id, if isMl then None else Some(operation), RequeueKey(id, operation, g.id),
                g.x, g.y, g.width, g.height, Some(attempt)))
  }

  /** get_job's tile_size: the stored one, or the default now in force for hashes without the field. */
  function TileSizeOf(meta: Meta, defaultTileSize: int): int {
    if meta.tileSize.Some? then meta.tileSize.value else defaultTileSize
  }

  /** The geometries a sweep recomputes from the job hash. */
  function Recomputed(meta: Meta, defaultTileSize: int): seq<Geometry> {
    if meta.width < 0 || meta.height < 0 then []
    else Layout(meta.width, meta.height, TileSizeOf(meta, defaultTileSize))
  }

  /** The job hash that /upload and /detect write for an image of this size. */
  function MetaOf(route: Route, width: nat, height: nat, tileSize: int, timestamp: real): Meta {
    Meta(if route.Upload? then route.operation else OBJECT_DETECTION, width, height, Some(tileSize),
         |Layout(width, height, tileSize)|, timestamp)
  }

  /** /upload refuses other operations. */
  predicate ValidRoute(route: Route) {
    route.Upload? ==> route.operation in PROCESSING_OPERATIONS
  }

  lemma {:induction false} LookupById(geometries: seq<Geometry>, k: nat)
    requires k < |geometries|
    requires forall i :: 0 <= i < |geometries| ==> geometries[i].id == i
    ensures GeometryOf(geometries, k) == Some(geometries[k])
  {
    if k < |geometries| - 1 {
      LookupById(geometries[..|geometries| - 1], k);
    }
  }

  lemma DetectionIsNoUpload(operation: string)
    requires operation in PROCESSING_OPERATIONS
    ensures operation != OBJECT_DETECTION
  {
    assert |OBJECT_DETECTION| == 16;
    assert operation[0] == 'o' ==> false;
  }

  /**
   Main result.  For every job the two routes create and every tile the job expects, the sweep's
   lookup finds a geometry, and the requeued message equals the original one in topic, key, job,
   tile, operation, blob key and geometry; it only adds the attempt number.  The TILE_SIZE default
   in force at that time plays no part.
   */
  lemma RequeueReproducesDispatch(id: JobId, route: Route, width: nat, height: nat, tileSize: int, timestamp: real,
                                  defaultTileSize: int, t: TileId, attempt: int)
    requires ValidRoute(route)
    requires var meta := MetaOf(route, width, height, tileSize, timestamp); 0 <= t < meta.expected
    ensures var meta := MetaOf(route, width, height, tileSize, timestamp);
            var found := GeometryOf(Recomputed(meta, defaultTileSize), t);
            && found == Some(Layout(width, height, tileSize)[t])
            && var original := Dispatched(id, route, Layout(width, height, tileSize)[t]);
               Requeued(id, meta.operation, found.value, attempt)
               == original.(task := original.task.(attempt := Some(attempt)))
  {
    var layout := Layout(width, height, tileSize);
    forall k | 0 <= k < |layout| ensures layout[k].id == k {
      LayoutShape(width, height, tileSize, k);
    }
    LookupById(layout, t);
    if route.Upload? {
      DetectionIsNoUpload(route.operation);
    }
  }
}
