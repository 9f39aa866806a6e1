/**
 master/app.py, /reconstruct, and the whole life of an OpenCV job: upload, dispatch or requeue,
 workers, results in any order, reconstruction.
 */
module JobPipeline {
  import opened Collections
  import opened JobRecords
  import opened JobStore
  import opened Blobs
  import opened Tiling
  import opened Reconstruction
  import opened Dispatch
  import opened Worker
  import Consumers

  ghost predicate IsLeast(ids: set<int>, m: int) {
    m in ids && forall t :: t in ids ==> m <= t
  }

  lemma HasLeast(ids: set<int>)
    requires ids != {}
    ensures exists m :: IsLeast(ids, m)
  {
    var m := LeastMember(ids);
    assert IsLeast(ids, m);
  }

  function Least(ids: set<int>): (m: int)
    requires ids != {}
    ensures IsLeast(ids, m)
  {
    HasLeast(ids);
    var m :| m in ids && forall t :: t in ids ==> m <= t;
    m
  }

  /** sorted() of a set of ids. */
  function Ascending(ids: set<int>): seq<int> {
    if ids == {} then []
    else
      var m := Least(ids);
      [m] + Ascending(ids - {m})
  }

  lemma {:induction false} AscendingLists(ids: set<int>)
    ensures |Ascending(ids)| == |ids|
    ensures forall t :: t in ids <==> t in Ascending(ids)
  {
    if ids != {} {
      var m := Least(ids);
      AscendingLists(ids - {m});
      var rest := Ascending(ids - {m});
      assert forall t :: t in [m] + rest <==> t == m || t in rest;
    }
  }

  lemma {:induction false} AscendingIsSorted(ids: set<int>, i: nat, j: nat)
    requires i < j < |Ascending(ids)|
    ensures Ascending(ids)[i] < Ascending(ids)[j]
  {
    var m := Least(ids);
    var rest := Ascending(ids - {m});
    assert Ascending(ids)[j] == rest[j - 1];
    if i == 0 {
      AscendingLists(ids - {m});
      assert rest[j - 1] in rest;
    } else {
      AscendingIsSorted(ids - {m}, i - 1, j - 1);
    }
  }

  predicate Readable(tiles: map<TileId, TileInfo>, objects: map<string, Bytes>) {
    forall t :: t in tiles ==> tiles[t].payload in objects
  }

  function TileOf(tiles: map<TileId, TileInfo>, objects: map<string, Bytes>, t: TileId): ProcessedTile
    requires Readable(tiles, objects) && t in tiles
  {
    var info := tiles[t];
    ProcessedTile(t, objects[info.payload], info.x, info.y, info.width, info.height)
  }

  /** The list that /reconstruct builds from the tile results and then sorts by id. */
  function Gathered(tiles: map<TileId, TileInfo>, objects: map<string, Bytes>): (r: seq<ProcessedTile>)
    requires Readable(tiles, objects)
    ensures |r| == |tiles|
    ensures forall i :: 0 <= i < |r| ==> r[i].id in tiles && r[i] == TileOf(tiles, objects, r[i].id)
  {
    var ids := Ascending(tiles.Keys);
    AscendingLists(tiles.Keys);
    assert |tiles.Keys| == |tiles|;
    assert forall i :: 0 <= i < |ids| ==> ids[i] in ids;
    seq(|ids|, i requires 0 <= i < |ids| => TileOf(tiles, objects, ids[i]))
  }

  lemma GatheredHasAll(tiles: map<TileId, TileInfo>, objects: map<string, Bytes>, t: TileId)
    requires Readable(tiles, objects) && t in tiles
    ensures Present(Gathered(tiles, objects), t)
  {
    var ids := Ascending(tiles.Keys);
    AscendingLists(tiles.Keys);
    assert t in ids;
    var i :| 0 <= i < |ids| && ids[i] == t;
    assert Gathered(tiles, objects)[i].id == t;
  }

  datatype Reply = JobNotFound | NotAllTiles | Failure | Image(canvas: array2<Pixel>)

  /**
   /reconstruct, uninterrupted; `stuck` are the blobs whose removal fails.  It asks for the tiles,
   not for the status.
   */
  method ReconstructJob(store: JobStore, blobs: BlobStore, imdecode: Bytes -> Option<Image>, id: JobId,
                        stuck: set<string>)
    returns (reply: Reply)
    modifies store, blobs
    ensures var job := old(store.At(id));
            && (reply.JobNotFound? <==> job.meta.None?)
            && (reply.NotAllTiles? <==> job.meta.Some? && |job.tiles| < job.meta.value.expected)
            && (reply.Failure? <==> job.meta.Some? && |job.tiles| >= job.meta.value.expected
                                    && (job.meta.value.width < 0 || job.meta.value.height < 0
                                        || exists t :: t in job.tiles && job.tiles[t].payload !in old(blobs.objects)))
    ensures !reply.Image? ==> store.At(id) == old(store.At(id)) && blobs.objects == old(blobs.objects)
    ensures reply.Image? ==>
              var job := old(store.At(id));
              && Readable(job.tiles, old(blobs.objects))
              && reply.canvas.Length0 == job.meta.value.height && reply.canvas.Length1 == job.meta.value.width
              && (forall py, px :: 0 <= py < reply.canvas.Length0 && 0 <= px < reply.canvas.Length1 ==>
                    reply.canvas[py, px] == PixelAfter(imdecode, Gathered(job.tiles, old(blobs.objects)),
                                                       reply.canvas.Length1, reply.canvas.Length0, px, py))
              && store.At(id) == Cleared(job)
              && forall k :: k in blobs.objects <==> k in old(blobs.objects) && (UnderJob(k, id) ==> k in stuck)
    ensures forall k :: k != id ==> store.At(k) == old(store.At(k))
    ensures '/' !in id ==> forall j, kind, t :: '/' !in j && j != id && BlobKey(j, kind, t) in old(blobs.objects) ==>
              && BlobKey(j, kind, t) in blobs.objects
              && blobs.objects[BlobKey(j, kind, t)] == old(blobs.objects)[BlobKey(j, kind, t)]
  {
    var job := store.At(id);
    if job.meta.None? {
      return JobNotFound;
    }
    if |job.tiles| < job.meta.value.expected {
      return NotAllTiles;
    }
    var meta := job.meta.value;
    if meta.width < 0 || meta.height < 0 || exists t :: t in job.tiles && job.tiles[t].payload !in blobs.objects {
      return Failure;
    }
    var tiles := Gathered(job.tiles, blobs.objects);
    var canvas := Reconstruct(imdecode, tiles, meta.width, meta.height);
    store.SetJobStatus(id, Completed);
    store.DeleteJobTileState(id);
    var _ := blobs.DeleteJobTiles(id, stuck);
    reply := Image(canvas);
  }

  // ---------------------------------------------------------------- from upload to image

  /** What the workers are given and how: a per-pixel operation and a lossless codec. */
  datatype Setting = Setting(
    id: JobId, operation: string, image: Reconstruction.Image, tileSize: int, f: Pixel -> Pixel, tools: Toolbox)

  ghost predicate Proper(c: Setting) {
    && c.tileSize > 0 && c.operation in PROCESSING_OPERATIONS
    && c.operation in c.tools.operations
    && (forall im :: c.tools.operations[c.operation](im) == MapImage(c.f, im))
    && Lossless(c.tools.imencode, c.tools.imdecode)
  }

  function TheLayout(c: Setting): seq<Geometry> {
    Layout(c.image.width, Height(c.image), c.tileSize)
  }

  function CreatedMeta(c: Setting, timestamp: real): Meta {
    MetaOf(Upload(c.operation), c.image.width, Height(c.image), c.tileSize, timestamp)
  }

  /** A task as the upload route or a sweep publishes it for tile t. */
  function TaskFor(c: Setting, t: TileId, attempt: Option<int>): Task
    requires 0 <= t < |TheLayout(c)|
  {
    Dispatched(c.id, Upload(c.operation), TheLayout(c)[t]).task.(attempt := attempt)
  }

  /** Those are the tasks that are published: the original one, and what _republish_tile makes of the job hash. */
  lemma TasksArePublished(c: Setting, t: TileId, attempt: int)
    requires c.operation in PROCESSING_OPERATIONS && 0 <= t < |TheLayout(c)|
    ensures TaskFor(c, t, None) == Dispatched(c.id, Upload(c.operation), TheLayout(c)[t]).task
    ensures TaskFor(c, t, Some(attempt)) == Requeued(c.id, c.operation, TheLayout(c)[t], attempt).task
  {
    DetectionIsNoUpload(c.operation);
  }

  /** The tile's bytes are staged where its task says. */
  ghost predicate StagedAt(c: Setting, objects: map<string, Bytes>, t: TileId)
    requires 0 <= t < |TheLayout(c)|
  {
    var g := TheLayout(c)[t];
    && Fits(g, c.image)
    && BlobKey(c.id, "task", t) in objects && objects[BlobKey(c.id, "task", t)] == c.tools.imencode(Crop(c.image, g))
  }

  /** The tile's result is stored. */
  ghost predicate ResultAt(c: Setting, objects: map<string, Bytes>, t: TileId)
    requires 0 <= t < |TheLayout(c)|
  {
    var g, key := TheLayout(c)[t], BlobKey(c.id, "result", t);
    && Fits(g, c.image)
    && key in objects
    && Worked(c.f, c.tools.imencode, c.tools.imdecode, c.tools.imencode(Crop(c.image, g))) == Some(objects[key])
  }

  /** A worker that handles any of the tile's tasks stores the tile's result and no other. */
  lemma WorkerResult(c: Setting, objects: map<string, Bytes>, t: TileId, attempt: Option<int>)
    requires Proper(c) && 0 <= t < |TheLayout(c)| && StagedAt(c, objects, t)
    ensures var task := TaskFor(c, t, attempt);
            var output := Output(c.tools, objects, task);
            && output.Some? && ResultKey(task) == BlobKey(c.id, "result", t)
            && ResultAt(c, objects[ResultKey(task) := output.value], t)
  {
    LayoutShape(c.image.width, Height(c.image), c.tileSize, t);
    var crop := Crop(c.image, TheLayout(c)[t]);
    assert DecodeImage(c.tools.imdecode, c.tools.imencode(crop)) == Some(crop);
  }

  /** A result message of a worker for one of the job's tiles. */
  predicate Genuine(c: Setting, m: Consumers.Message) {
    && 0 <= m.tile < |TheLayout(c)|
    && m == MessageOf(TaskFor(c, m.tile, None), m.seconds)
  }

  /** The attempt number of a task leaves no trace in its result. */
  lemma RequeuesAnswerAlike(c: Setting, t: TileId, attempt: Option<int>, seconds: real)
    requires Proper(c) && 0 <= t < |TheLayout(c)|
    ensures Genuine(c, MessageOf(TaskFor(c, t, attempt), seconds))
  {
    LayoutShape(c.image.width, Height(c.image), c.tileSize, t);
  }

  /** Only genuine infos end up in the job. */
  lemma {:induction false} InfosAreGenuine(c: Setting, job: Job, ms: seq<Consumers.Message>, done: Status)
    requires job.tiles == map[] && forall m :: m in ms ==> Genuine(c, m)
    ensures var tiles := Consumers.Delivered(job, ms, done).tiles;
            forall t :: t in tiles ==> 0 <= t < |TheLayout(c)| && tiles[t] == InfoOf(TaskFor(c, t, None))
  {
    if ms != [] {
      var n := |ms| - 1;
      InfosAreGenuine(c, job, ms[..n], done);
      assert ms[n] in ms;
    }
  }

  /**
   Main result.  Any stream of results of an uploaded job, from original or requeued tasks, in any
   order and with any duplicates, that has each tile once, makes the job ready; and what
   /reconstruct then renders from the job hash and the blob store is the operation applied to the
   whole image, on the covered rectangle, with black outside.
   */
  lemma UploadToImage(c: Setting, timestamp: real, ms: seq<Consumers.Message>, objects: map<string, Bytes>,
                      px: nat, py: nat)
    requires Proper(c) && TheLayout(c) != []
    requires forall m :: m in ms ==> Genuine(c, m)
    requires forall t :: 0 <= t < |TheLayout(c)| ==> t in Consumers.Ids(ms) && ResultAt(c, objects, t)
    requires px < c.image.width && py < Height(c.image)
    ensures var job := Consumers.Delivered(HSetCreated(NO_JOB, CreatedMeta(c, timestamp)), ms, Ready);
            && job.status == Ready
            && Readable(job.tiles, objects)
            && PixelAfter(c.tools.imdecode, Gathered(job.tiles, objects), c.image.width, Height(c.image), px, py) ==
                 if px < Covered(c.image.width, c.tileSize) && py < Covered(Height(c.image), c.tileSize)
                 then MapImage(c.f, c.image).rows[py][px] else BLACK
  {
    var job := Consumers.Delivered(HSetCreated(NO_JOB, CreatedMeta(c, timestamp)), ms, Ready);
    JobComplete(c, timestamp, ms);
    RendersWhole(c, job.tiles, objects, px, py);
  }

  /** The job holds exactly the tiles of the layout, each with its own result key and geometry. */
  ghost predicate Complete(c: Setting, tiles: map<TileId, TileInfo>) {
    && tiles.Keys == Range(|TheLayout(c)|)
    && forall t :: 0 <= t < |TheLayout(c)| ==> tiles[t] == InfoOf(TaskFor(c, t, None))
  }

  lemma JobComplete(c: Setting, timestamp: real, ms: seq<Consumers.Message>)
    requires Proper(c) && TheLayout(c) != []
    requires forall m :: m in ms ==> Genuine(c, m)
    requires forall t :: 0 <= t < |TheLayout(c)| ==> t in Consumers.Ids(ms)
    ensures var job := Consumers.Delivered(HSetCreated(NO_JOB, CreatedMeta(c, timestamp)), ms, Ready);
            job.status == Ready && Complete(c, job.tiles)
  {
    var created := HSetCreated(NO_JOB, CreatedMeta(c, timestamp));
    var n := |TheLayout(c)|;
    InfosAreGenuine(c, created, ms, Ready);
    Consumers.StreamOutcome(created, ms, Ready);
    forall t | t in Consumers.Ids(ms)
      ensures t in Range(n)
    {
      var i :| 0 <= i < |ms| && ms[i].tile == t;
      assert ms[i] in ms;
    }
    assert Consumers.Ids(ms) == Range(n);
    RangeSize(n);
  }

  lemma RendersWhole(c: Setting, tiles: map<TileId, TileInfo>, objects: map<string, Bytes>, px: nat, py: nat)
    requires Proper(c) && Complete(c, tiles)
    requires forall t :: 0 <= t < |TheLayout(c)| ==> ResultAt(c, objects, t)
    requires px < c.image.width && py < Height(c.image)
    ensures Readable(tiles, objects)
    ensures PixelAfter(c.tools.imdecode, Gathered(tiles, objects), c.image.width, Height(c.image), px, py) ==
              if px < Covered(c.image.width, c.tileSize) && py < Covered(Height(c.image), c.tileSize)
              then MapImage(c.f, c.image).rows[py][px] else BLACK
  {
    forall t | t in tiles
      ensures tiles[t].payload in objects
    {
      assert t in Range(|TheLayout(c)|);
      InfoShape(c, objects, t);
    }
    var gathered := Gathered(tiles, objects);
    forall i | 0 <= i < |gathered|
      ensures 0 <= gathered[i].id < |TheLayout(c)| && Fits(TheLayout(c)[gathered[i].id], c.image)
      ensures ComesFrom(gathered[i], TheLayout(c)[gathered[i].id], c.image, c.f, c.tools.imencode, c.tools.imdecode)
    {
      assert gathered[i].id in Range(|TheLayout(c)|);
      InfoShape(c, objects, gathered[i].id);
    }
    assert AllFromLayout(gathered, c.image, c.tileSize, c.f, c.tools.imencode, c.tools.imdecode);
    forall k | 0 <= k < |TheLayout(c)|
      ensures Present(gathered, k)
    {
      assert k in Range(|TheLayout(c)|);
      GatheredHasAll(tiles, objects, k);
    }
    TileByTileIsWhole(gathered, c.image, c.tileSize, c.f, c.tools.imencode, c.tools.imdecode, px, py);
  }

  /** The stored info of tile t names its result and its geometry. */
  lemma InfoShape(c: Setting, objects: map<string, Bytes>, t: TileId)
    requires Proper(c) && 0 <= t < |TheLayout(c)| && ResultAt(c, objects, t)
    ensures var info, g := InfoOf(TaskFor(c, t, None)), TheLayout(c)[t];
            && g.id == t && info == TileInfo(BlobKey(c.id, "result", t), g.x, g.y, g.width, g.height)
            && info.payload in objects
  {
    LayoutShape(c.image.width, Height(c.image), c.tileSize, t);
  }

  // ---------------------------------------------------------------- where the results come from

  /** A worker handles one of the job's tasks, original or requeued; or something happens to other jobs' blobs. */
  datatype Event =
    | Handled(tile: TileId, attempt: Option<int>, up: seq<bool>, maxRetries: nat, delivery: Delivery, seconds: real)
    | Elsewhere(after: map<string, Bytes>)

  predicate ValidEvent(c: Setting, objects: map<string, Bytes>, e: Event) {
    match e
    case Handled(t, _, _, _, _, _) => 0 <= t < |TheLayout(c)|
    case Elsewhere(after) => OwnBlobsKept(c.id, objects, after)
  }

  predicate OwnBlobsKept(id: JobId, objects: map<string, Bytes>, after: map<string, Bytes>) {
    forall key :: key in objects && UnderJob(key, id) ==> key in after && after[key] == objects[key]
  }

  /** Sweeping the blobs of another job is one of the things that happen elsewhere. */
  lemma OtherSweepsAreElsewhere(c: Setting, objects: map<string, Bytes>, other: JobId, gone: set<string>)
    requires '/' !in c.id && '/' !in other && other != c.id && forall key :: key in gone ==> UnderJob(key, other)
    ensures ValidEvent(c, objects, Elsewhere(objects - gone))
  {
    forall key | key in objects && UnderJob(key, c.id)
      ensures key !in gone
    {
      UpToSlash(key, c.id);
      if key in gone {
        UpToSlash(key, other);
      }
    }
  }

  function StoreAfter(c: Setting, objects: map<string, Bytes>, e: Event): map<string, Bytes>
    requires ValidEvent(c, objects, e)
  {
    match e
    case Handled(t, attempt, up, maxRetries, _, _) => StoredBy(c.tools, objects, TaskFor(c, t, attempt), up, maxRetries)
    case Elsewhere(after) => after
  }

  function AnswersOf(c: Setting, objects: map<string, Bytes>, e: Event): seq<Consumers.Message>
    requires ValidEvent(c, objects, e)
  {
    match e
    case Handled(t, attempt, up, maxRetries, delivery, seconds) =>
      AnsweredBy(c.tools, objects, TaskFor(c, t, attempt), up, maxRetries, delivery, seconds)
    case Elsewhere(_) => []
  }

  /** stores[i] is the blob store before events[i]. */
  ghost predicate IsHistory(c: Setting, stores: seq<map<string, Bytes>>, events: seq<Event>) {
    && |stores| == |events| + 1
    && forall i :: 0 <= i < |events| ==> HappensAt(c, stores, events, i)
  }

  ghost predicate HappensAt(c: Setting, stores: seq<map<string, Bytes>>, events: seq<Event>, i: nat)
    requires i < |events| && |stores| == |events| + 1
  {
    ValidEvent(c, stores[i], events[i]) && stores[i + 1] == StoreAfter(c, stores[i], events[i])
  }

  /** Every tile is staged, and the results that there are are right. */
  ghost predicate AllStaged(c: Setting, objects: map<string, Bytes>) {
    forall t :: 0 <= t < |TheLayout(c)| ==> StagedAt(c, objects, t)
  }

  lemma KindsDiffer(id: JobId, t: TileId, u: TileId)
    ensures BlobKey(id, "task", t) != BlobKey(id, "result", u)
  {
    assert BlobKey(id, "task", t)[|id| + 1] == 't';
    assert BlobKey(id, "result", u)[|id| + 1] == 'r';
  }

  /** No event unstages a tile or spoils a result. */
  lemma EventKeeps(c: Setting, objects: map<string, Bytes>, e: Event, t: TileId)
    requires Proper(c) && ValidEvent(c, objects, e) && AllStaged(c, objects) && 0 <= t < |TheLayout(c)|
    ensures StagedAt(c, StoreAfter(c, objects, e), t)
    ensures ResultAt(c, objects, t) ==> ResultAt(c, StoreAfter(c, objects, e), t)
  {
    assert StagedAt(c, objects, t);
    if e.Handled? {
      HandlingKeeps(c, objects, e.tile, e.attempt, t);
    } else {
      OwnKey(c.id, "task", t);
      OwnKey(c.id, "result", t);
    }
  }

  lemma HandlingKeeps(c: Setting, objects: map<string, Bytes>, t: TileId, attempt: Option<int>, u: TileId)
    requires Proper(c) && 0 <= t < |TheLayout(c)| && 0 <= u < |TheLayout(c)|
    requires StagedAt(c, objects, t) && StagedAt(c, objects, u)
    ensures var task := TaskFor(c, t, attempt);
            var output := Output(c.tools, objects, task);
            && output.Some?
            && StagedAt(c, objects[ResultKey(task) := output.value], u)
            && (ResultAt(c, objects, u) ==> ResultAt(c, objects[ResultKey(task) := output.value], u))
  {
    WorkerResult(c, objects, t, attempt);
    KindsDiffer(c.id, u, t);
    if t != u {
      KeysDiffer(c.id, "result", t, u);
    }
  }

  /** A result that reaches the broker has its blob in the store. */
  lemma AnswerIsStored(c: Setting, objects: map<string, Bytes>, e: Event, m: Consumers.Message)
    requires Proper(c) && ValidEvent(c, objects, e) && AllStaged(c, objects) && m in AnswersOf(c, objects, e)
    ensures Genuine(c, m) && ResultAt(c, StoreAfter(c, objects, e), m.tile)
  {
    LayoutShape(c.image.width, Height(c.image), c.tileSize, e.tile);
    assert StagedAt(c, objects, e.tile);
    WorkerResult(c, objects, e.tile, e.attempt);
    RequeuesAnswerAlike(c, e.tile, e.attempt, e.seconds);
  }

  /** m reached the broker during the first n events. */
  ghost predicate Answered(c: Setting, stores: seq<map<string, Bytes>>, events: seq<Event>, n: nat, m: Consumers.Message)
    requires IsHistory(c, stores, events) && n <= |events|
  {
    exists i :: 0 <= i < n && HappensAt(c, stores, events, i) && m in AnswersOf(c, stores[i], events[i])
  }

  lemma {:induction false} AnswersAreStored(c: Setting, stores: seq<map<string, Bytes>>, events: seq<Event>, n: nat)
    requires Proper(c) && IsHistory(c, stores, events) && n <= |events| && AllStaged(c, stores[0])
    ensures AllStaged(c, stores[n])
    ensures forall m :: Answered(c, stores, events, n, m) ==> Genuine(c, m) && ResultAt(c, stores[n], m.tile)
  {
    if n > 0 {
      AnswersAreStored(c, stores, events, n - 1);
      assert HappensAt(c, stores, events, n - 1);
      forall t | 0 <= t < |TheLayout(c)|
        ensures StagedAt(c, stores[n], t)
        ensures ResultAt(c, stores[n - 1], t) ==> ResultAt(c, stores[n], t)
      {
        EventKeeps(c, stores[n - 1], events[n - 1], t);
      }
      forall m | Answered(c, stores, events, n, m)
        ensures Genuine(c, m) && ResultAt(c, stores[n], m.tile)
      {
        if m in AnswersOf(c, stores[n - 1], events[n - 1]) {
          AnswerIsStored(c, stores[n - 1], events[n - 1], m);
        } else {
          assert Answered(c, stores, events, n - 1, m);
        }
      }
    }
  }

  /** What the publishing loop leaves behind when no staging failed. */
  lemma PublishingStages(c: Setting, objects: map<string, Bytes>, data: seq<Bytes>, fates: seq<Fate>)
    requires Proper(c) && |data| == |fates| == |TheLayout(c)|
    requires forall i :: 0 <= i < |fates| ==> !fates[i].StageFailed?
    requires forall i :: 0 <= i < |data| ==> Fits(TheLayout(c)[i], c.image) && data[i] == c.tools.imencode(Crop(c.image, TheLayout(c)[i]))
    requires Staged(objects, StagingKeys(c.id, Upload(c.operation), TheLayout(c)), data, fates, |fates|)
    ensures AllStaged(c, objects)
  {
    var keys := StagingKeys(c.id, Upload(c.operation), TheLayout(c));
    forall t | 0 <= t < |TheLayout(c)|
      ensures StagedAt(c, objects, t)
    {
      LayoutShape(c.image.width, Height(c.image), c.tileSize, t);
      assert keys[t] == BlobKey(c.id, "task", t);
    }
  }

  /**
   Main result.  From the staged tiles to the image, with nothing assumed about the results: workers
   handle the job's tasks in any order, again and again, failing as they may, while other jobs' blobs
   come and go.  Any stream of answers that were given, in any order and with any duplicates, that
   has each tile once makes the job ready, and /reconstruct renders the operation on the whole image.
   */
  lemma WorkersToImage(c: Setting, timestamp: real, stores: seq<map<string, Bytes>>, events: seq<Event>,
                       ms: seq<Consumers.Message>, px: nat, py: nat)
    requires Proper(c) && TheLayout(c) != []
    requires IsHistory(c, stores, events) && AllStaged(c, stores[0])
    requires forall m :: m in ms ==> Answered(c, stores, events, |events|, m)
    requires forall t :: 0 <= t < |TheLayout(c)| ==> t in Consumers.Ids(ms)
    requires px < c.image.width && py < Height(c.image)
    ensures var job := Consumers.Delivered(HSetCreated(NO_JOB, CreatedMeta(c, timestamp)), ms, Ready);
            var objects := stores[|events|];
            && job.status == Ready
            && Readable(job.tiles, objects)
            && PixelAfter(c.tools.imdecode, Gathered(job.tiles, objects), c.image.width, Height(c.image), px, py) ==
                 if px < Covered(c.image.width, c.tileSize) && py < Covered(Height(c.image), c.tileSize)
                 then MapImage(c.f, c.image).rows[py][px] else BLACK
  {
    AnswersAreStored(c, stores, events, |events|);
    ResultsThere(c, stores[|events|], ms);
    UploadToImage(c, timestamp, ms, stores[|events|], px, py);
  }

  lemma ResultsThere(c: Setting, objects: map<string, Bytes>, ms: seq<Consumers.Message>)
    requires forall m :: m in ms ==> Genuine(c, m) && ResultAt(c, objects, m.tile)
    requires forall t :: 0 <= t < |TheLayout(c)| ==> t in Consumers.Ids(ms)
    ensures forall t :: 0 <= t < |TheLayout(c)| ==> ResultAt(c, objects, t)
  {
    forall t | 0 <= t < |TheLayout(c)|
      ensures ResultAt(c, objects, t)
    {
      assert t in Consumers.Ids(ms);
      var i :| 0 <= i < |ms| && ms[i].tile == t;
      assert ms[i] in ms;
    }
  }
}
