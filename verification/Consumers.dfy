/**
 master/results_consumer.py and master/ml_results_consumer.py: one result message at a time,
 and what a whole stream of messages amounts to.
 */
module Consumers {
  import opened Collections
  import opened JobRecords
  import opened JobStore
  import opened Blobs

  datatype Message = Message(job: JobId, tile: TileId, info: TileInfo, seconds: real)

  /** jobs_finished_total{pipeline, status} and tiles_requeued_total. */
  class Metrics {
    var finished: multiset<(string, string)>
    var requeued: nat

    constructor ()
      ensures finished == multiset{} && requeued == 0
    {
      finished, requeued := multiset{}, 0;
    }
  }

  /** The message that completes the job: it is still processing, and now holds enough distinct tiles. */
  predicate Finishes(job: Job, m: Message)
  {
    var stored := Recorded(job, m.tile, m.info, m.seconds);
    stored.status == Processing && |stored.tiles| >= Expected(stored)
  }

  /** _process_message, when no other process interferes; `done` is the pipeline's final status. */
  function Processed(job: Job, m: Message, done: Status): Job
  {
    var stored := Recorded(job, m.tile, m.info, m.seconds);
    if Finishes(job, m) then stored.(status := done) else stored
  }

  /** Processing a stream of messages, first to last. */
  function Delivered(job: Job, ms: seq<Message>, done: Status): Job
  {
    if ms == [] then job
    else Processed(Delivered(job, ms[..|ms| - 1], done), ms[|ms| - 1], done)
  }

  /** The messages of one job. */
  function ForJob(ms: seq<Message>, id: JobId): seq<Message>
  {
    if ms == [] then []
    else ForJob(ms[..|ms| - 1], id) + if ms[|ms| - 1].job == id then [ms[|ms| - 1]] else []
  }

  method ProcessMessage(store: JobStore, m: Message)
    modifies store
    ensures store.At(m.job) == Processed(old(store.At(m.job)), m, Ready)
    ensures forall k :: k != m.job ==> store.At(k) == old(store.At(k))
  {
    var distinct := store.RecordTileResult(m.job, m.tile, m.info, m.seconds);
    var job := store.At(m.job);
    if job.status == Processing && distinct >= Expected(job) {
      store.SetJobStatus(m.job, Ready);
    }
  }

  method ProcessMlMessage(store: JobStore, blobs: BlobStore, metrics: Metrics, m: Message, stuck: set<string>)
    modifies store, blobs, metrics
    ensures store.At(m.job) == Processed(old(store.At(m.job)), m, Completed)
    ensures forall k :: k != m.job ==> store.At(k) == old(store.At(k))
    ensures metrics.finished == old(metrics.finished) +
              if Finishes(old(store.At(m.job)), m) then multiset{("ml", "completed")} else multiset{}
    ensures metrics.requeued == old(metrics.requeued)
    ensures !Finishes(old(store.At(m.job)), m) ==> blobs.objects == old(blobs.objects)
    ensures Finishes(old(store.At(m.job)), m) ==>
              forall k :: k in blobs.objects <==> k in old(blobs.objects) && (UnderJob(k, m.job) ==> k in stuck)
    ensures '/' !in m.job ==> forall j, kind, t :: '/' !in j && j != m.job && BlobKey(j, kind, t) in old(blobs.objects) ==>
              && BlobKey(j, kind, t) in blobs.objects
              && blobs.objects[BlobKey(j, kind, t)] == old(blobs.objects)[BlobKey(j, kind, t)]
  {
    var received := store.RecordTileResult(m.job, m.tile, m.info, m.seconds);
    var job := store.At(m.job);
    if job.status == Processing && received >= Expected(job) {
      store.SetJobStatus(m.job, Completed);
      metrics.finished := metrics.finished + multiset{("ml", "completed")};
      var _ := blobs.DeleteJobTiles(m.job, stuck);
    }
  }

  // ---------------------------------------------------------------- the listener

  /**
   What one turn of the listener's loop meets: nothing to read or a broker error, a value that is
   not JSON, or a result from a partition of the topic.  `stop` is after how many Redis writes an
   exception ends its processing, if one does; `commits` is whether commit() goes well.
   */
  datatype Polled = Nothing | Malformed | Got(message: Message, partition: nat, stop: Option<nat>, commits: bool)

  function HandledOne(job: Job, p: Polled, id: JobId, done: Status): Job
  {
    if !p.Got? || p.message.job != id then job
    else if p.stop.Some? then Interrupted(job, p.message, p.stop.value, done)
    else Processed(job, p.message, done)
  }

  /** What these turns do to job id. */
  function Handled(job: Job, polled: seq<Polled>, id: JobId, done: Status): Job
  {
    if polled == [] then job
    else HandledOne(Handled(job, polled[..|polled| - 1], id, done), polled[|polled| - 1], id, done)
  }

  /** The message of the turn is processed to the end, and its offset committed. */
  predicate IsCommitted(p: Polled) {
    p.Got? && p.stop.None? && p.commits
  }

  /** Where the group would resume in a partition: after the turn that committed last, 0 if none did. */
  function Position(polled: seq<Polled>, partition: nat): (n: nat)
    ensures n <= |polled|
  {
    if polled == [] then 0
    else if IsCommitted(polled[|polled| - 1]) && polled[|polled| - 1].partition == partition then |polled|
    else Position(polled[..|polled| - 1], partition)
  }

  /** What an exception leaves of _process_message: at most k writes were made. */
  method ProcessUpTo(store: JobStore, m: Message, k: nat)
    modifies store
    ensures store.At(m.job) == Interrupted(old(store.At(m.job)), m, k, Ready)
    ensures forall j :: j != m.job ==> store.At(j) == old(store.At(j))
  {
    if k < 4 {
      store.RecordUpTo(m.job, m.tile, m.info, m.seconds, k);
    } else {
      ProcessMessage(store, m);
    }
  }

  /** One turn of the loop. */
  method OneTurn(store: JobStore, p: Polled) returns (ok: bool)
    modifies store
    ensures forall id :: store.At(id) == HandledOne(old(store.At(id)), p, id, Ready)
    ensures ok == IsCommitted(p)
  {
    match p
    case Nothing => ok := false;
    case Malformed => ok := false;
    case Got(m, _, stop, commits) =>
      if stop.Some? {
        ProcessUpTo(store, m, stop.value);
        ok := false;
      } else {
        ProcessMessage(store, m);
        ok := commits;
      }
  }

  /**
   listen_for_results, from taking leadership to losing it; leader[i] is is_leader()'s answer before
   turn i.  What it leaves of every job, and the committed position of every partition.
   */
  method ListenForResults(store: JobStore, polled: seq<Polled>, leader: seq<bool>) returns (positions: map<nat, nat>)
    requires |polled| == |leader|
    modifies store
    ensures forall id :: store.At(id) == Handled(old(store.At(id)), polled[..TurnsLed(leader)], id, Ready)
    ensures forall q :: (if q in positions then positions[q] else 0) == Position(polled[..TurnsLed(leader)], q)
  {
    positions := map[];
    var i := 0;
    while i < |polled|
      invariant i <= TurnsLed(leader)
      invariant forall id :: store.At(id) == Handled(old(store.At(id)), polled[..i], id, Ready)
      invariant forall q :: (if q in positions then positions[q] else 0) == Position(polled[..i], q)
    {
      if !leader[i] {
        break;
      }
      var ok := OneTurn(store, polled[i]);
      if ok {
        positions := positions[polled[i].partition := i + 1];
      }
      assert polled[..i + 1][..i] == polled[..i];
      i := i + 1;
    }
  }

  /** Without exceptions each job ends up as after its own messages alone, in their order. */
  lemma {:induction false} HandledIsDelivered(job: Job, polled: seq<Polled>, id: JobId, done: Status)
    requires forall i :: 0 <= i < |polled| && polled[i].Got? ==> polled[i].stop.None?
    ensures Handled(job, polled, id, done) == Delivered(job, ForJob(MessagesOf(polled), id), done)
  {
    if polled != [] {
      var before := polled[..|polled| - 1];
      HandledIsDelivered(job, before, id, done);
      var last := polled[|polled| - 1];
      if last.Got? {
        var earlier := ForJob(MessagesOf(before), id);
        ForJobLast(MessagesOf(before), last.message, id);
        DeliveredLast(job, earlier, last.message, done);
        assert MessagesOf(polled) == MessagesOf(before) + [last.message] && earlier + [] == earlier;
      } else {
        assert MessagesOf(polled) == MessagesOf(before);
      }
    }
  }

  function MessagesOf(polled: seq<Polled>): seq<Message> {
    if polled == [] then []
    else MessagesOf(polled[..|polled| - 1]) + if polled[|polled| - 1].Got? then [polled[|polled| - 1].message] else []
  }

  lemma ForJobLast(ms: seq<Message>, m: Message, id: JobId)
    ensures ForJob(ms + [m], id) == ForJob(ms, id) + if m.job == id then [m] else []
  {
    assert (ms + [m])[..|ms|] == ms;
  }

  lemma DeliveredLast(job: Job, ms: seq<Message>, m: Message, done: Status)
    ensures Delivered(job, ms + [m], done) == Processed(Delivered(job, ms, done), m, done)
  {
    assert (ms + [m])[..|ms|] == ms;
  }

  /** The tiles of job id whose messages were processed to the end. */
  function WholeTiles(polled: seq<Polled>, id: JobId): set<TileId> {
    if polled == [] then {}
    else
      var last := polled[|polled| - 1];
      WholeTiles(polled[..|polled| - 1], id) + if last.Got? && last.stop.None? && last.message.job == id then {last.message.tile} else {}
  }

  /** The tiles of job id whose HSET was made. */
  function WrittenTiles(polled: seq<Polled>, id: JobId): (r: set<TileId>)
    ensures forall t :: t in r <==> Written(polled, id, t)
  {
    if polled == [] then {}
    else
      var before, last := polled[..|polled| - 1], polled[|polled| - 1];
      assert forall t :: Written(polled, id, t) <==> Written(before, id, t) || Writes(last, id, t);
      WrittenTiles(before, id) + if last.Got? && Writes(last, id, last.message.tile) then {last.message.tile} else {}
  }

  /** The turn stores tile t of the job: no exception comes before the HSET. */
  predicate Writes(p: Polled, id: JobId, t: TileId) {
    p.Got? && p.message.job == id && p.message.tile == t && p.stop != Some(0)
  }

  predicate Written(polled: seq<Polled>, id: JobId, t: TileId) {
    exists i :: 0 <= i < |polled| && Writes(polled[i], id, t)
  }

  /** What holds of a job after any turns: which tiles it holds, and that final means enough of them and is reached when all were processed to the end. */
  ghost predicate Listened(job: Job, r: Job, written: set<TileId>, whole: set<TileId>, done: Status) {
    && r.meta == job.meta && whole <= written && r.tiles.Keys == written
    && (r.status == Processing || r.status == done)
    && (r.status == done ==> |r.tiles| >= Expected(job))
    && (whole != {} && Range(Expected(job)) <= whole ==> r.status == done)
  }

  lemma ListenedStep(job: Job, r: Job, written: set<TileId>, whole: set<TileId>, p: Polled, id: JobId, done: Status)
    requires done != Processing && Listened(job, r, written, whole, done) && p.Got? && p.message.job == id
    ensures Listened(job, HandledOne(r, p, id, done),
                     written + if p.stop != Some(0) then {p.message.tile} else {},
                     whole + if p.stop.None? then {p.message.tile} else {}, done)
  {
    var m, r' := p.message, HandledOne(r, p, id, done);
    if p.stop.Some? {
      InterruptedKeeps(r, m, p.stop.value, done);
    } else {
      ProcessedKeeps(r, m, done);
      if Range(Expected(job)) <= whole + {m.tile} {
        EnoughTiles(r'.tiles.Keys, whole + {m.tile}, Expected(job));
      }
    }
  }

  /** Processing a message to the end adds its tile and leaves no complete job processing. */
  lemma ProcessedKeeps(r: Job, m: Message, done: Status)
    requires done != Processing
    ensures var r' := Processed(r, m, done);
            && r'.meta == r.meta && r'.tiles.Keys == r.tiles.Keys + {m.tile}
            && |r'.tiles| == |r'.tiles.Keys| >= |r.tiles|
            && (r'.status == r.status || (r'.status == done && |r'.tiles| >= Expected(r)))
            && (r'.status == Processing ==> |r'.tiles| < Expected(r))
  {
    TilesGrow(r.tiles, m.tile, m.info);
  }

  lemma InterruptedKeeps(r: Job, m: Message, k: nat, done: Status)
    ensures var r' := Interrupted(r, m, k, done);
            && r'.meta == r.meta && r'.tiles.Keys == r.tiles.Keys + (if k > 0 then {m.tile} else {}) && |r'.tiles| >= |r.tiles|
            && (r'.status == r.status || (r'.status == done && |r'.tiles| >= Expected(r)))
  {
    TilesGrow(r.tiles, m.tile, m.info);
    RecordedKeeps(r, m.tile, m.info, m.seconds, k);
    FinishesWhenFull(r, m);
  }

  lemma RecordedKeeps(r: Job, t: TileId, info: TileInfo, seconds: real, k: nat)
    ensures var r' := RecordedUpTo(r, t, info, seconds, k);
            && r'.meta == r.meta && r'.status == r.status
            && r'.tiles == if k >= 1 then r.tiles[t := info] else r.tiles
  {
  }

  lemma FinishesWhenFull(r: Job, m: Message)
    ensures Finishes(r, m) <==> r.status == Processing && |r.tiles[m.tile := m.info]| >= Expected(r)
  {
  }

  lemma TilesGrow(tiles: map<TileId, TileInfo>, t: TileId, info: TileInfo)
    ensures tiles[t := info].Keys == tiles.Keys + {t}
    ensures |tiles| == |tiles.Keys| <= |tiles[t := info].Keys| == |tiles[t := info]|
  {
    KeysSize(tiles);
    KeysSize(tiles[t := info]);
    SubsetSize(tiles.Keys, tiles[t := info].Keys);
  }

  lemma EnoughTiles(held: set<TileId>, whole: set<TileId>, expected: int)
    requires Range(expected) <= whole <= held
    ensures |held| >= expected
  {
    if expected > 0 {
      RangeSize(expected);
      SubsetSize(Range(expected), held);
    }
  }

  lemma {:induction false} ListenedRun(job: Job, polled: seq<Polled>, id: JobId, done: Status)
    requires Fresh(job) && done != Processing
    ensures Listened(job, Handled(job, polled, id, done), WrittenTiles(polled, id), WholeTiles(polled, id), done)
  {
    if polled != [] {
      var before, last := polled[..|polled| - 1], polled[|polled| - 1];
      ListenedRun(job, before, id, done);
      if last.Got? && last.message.job == id {
        ListenedStep(job, Handled(job, before, id, done), WrittenTiles(before, id), WholeTiles(before, id), last, id, done);
      }
    }
  }

  /** All processed to the end. */
  ghost predicate AllWhole(polled: seq<Polled>, id: JobId, expected: int) {
    forall t :: 0 <= t < expected ==> t in WholeTiles(polled, id)
  }

  /**
   Main result.  Whatever exceptions interrupt messages and whatever commits fail: a tile is held
   exactly when some turn made its HSET, a job of which every tile was processed to the end once has
   its final status, and a final status means that enough tiles are held.
   */
  lemma ListenerOutcome(job: Job, polled: seq<Polled>, id: JobId, done: Status)
    requires Fresh(job) && done != Processing
    ensures var r := Handled(job, polled, id, done);
            && (forall t :: t in r.tiles <==> Written(polled, id, t))
            && (Expected(job) > 0 && AllWhole(polled, id, Expected(job)) ==> r.status == done)
            && (r.status == Processing || (r.status == done && |r.tiles| >= Expected(job)))
  {
    ListenedRun(job, polled, id, done);
    if Expected(job) > 0 && AllWhole(polled, id, Expected(job)) {
      assert 0 in WholeTiles(polled, id);
    }
  }

  /** The message of turn i lies before the committed position of its partition, so it will not be read again. */
  predicate Behind(polled: seq<Polled>, i: nat)
    requires i < |polled|
  {
    polled[i].Got? && i < Position(polled, polled[i].partition)
  }

  /** Every message that will not be read again is in Redis. */
  ghost predicate NothingLost(jobs: JobId -> Job, polled: seq<Polled>, done: Status) {
    forall i :: 0 <= i < |polled| && Behind(polled, i) ==>
      polled[i].message.tile in Handled(jobs(polled[i].message.job), polled, polled[i].message.job, done).tiles
  }

  /** A turn of this partition commits at i or later. */
  ghost predicate CommitsFrom(polled: seq<Polled>, i: nat, partition: nat) {
    exists j :: i <= j < |polled| && IsCommitted(polled[j]) && polled[j].partition == partition
  }

  lemma {:induction false} PositionExactly(polled: seq<Polled>, i: nat, partition: nat)
    requires i < |polled|
    ensures i < Position(polled, partition) <==> CommitsFrom(polled, i, partition)
  {
    var n := |polled| - 1;
    if !(IsCommitted(polled[n]) && polled[n].partition == partition) && i < n {
      PositionExactly(polled[..n], i, partition);
      assert CommitsFrom(polled[..n], i, partition) <==> CommitsFrom(polled, i, partition);
    }
  }

  /**
   Main result.  Committing after each processed message loses nothing exactly when every message
   that a later commit of its partition passes over was stored by its own turn or another one.  A
   commit covers all earlier offsets of the partition, so one that is processed passes over one whose
   processing failed.
   */
  lemma NothingLostExactly(jobs: JobId -> Job, polled: seq<Polled>, done: Status)
    requires (forall id :: Fresh(jobs(id))) && done != Processing
    ensures NothingLost(jobs, polled, done) <==>
              forall i :: 0 <= i < |polled| && polled[i].Got? && CommitsFrom(polled, i, polled[i].partition) ==>
                Written(polled, polled[i].message.job, polled[i].message.tile)
  {
    forall i | 0 <= i < |polled| && polled[i].Got?
      ensures Behind(polled, i) <==> CommitsFrom(polled, i, polled[i].partition)
      ensures polled[i].message.tile in Handled(jobs(polled[i].message.job), polled, polled[i].message.job, done).tiles
              <==> Written(polled, polled[i].message.job, polled[i].message.tile)
    {
      PositionExactly(polled, i, polled[i].partition);
      ListenerOutcome(jobs(polled[i].message.job), polled, polled[i].message.job, done);
    }
  }

  /** So an exception before the HSET loses the message as soon as the next one of its partition is processed. */
  lemma PassedOver(jobs: JobId -> Job, m: Message, next: Message, partition: nat, done: Status)
    requires (forall id :: Fresh(jobs(id))) && done != Processing && (m.job, m.tile) != (next.job, next.tile)
    ensures !NothingLost(jobs, [Got(m, partition, Some(0), true), Got(next, partition, None, true)], done)
  {
    var polled := [Got(m, partition, Some(0), true), Got(next, partition, None, true)];
    NothingLostExactly(jobs, polled, done);
    assert polled[0].Got? && IsCommitted(polled[1]) && CommitsFrom(polled, 0, partition);
    assert !Written(polled, m.job, m.tile);
  }

  // ---------------------------------------------------------------- any order, any duplicates

  function Ids(ms: seq<Message>): (r: set<TileId>)
    ensures forall t :: t in r <==> exists i :: 0 <= i < |ms| && ms[i].tile == t
  {
    set i | 0 <= i < |ms| :: ms[i].tile
  }

  /** A job right after create_job, under a fresh id. */
  predicate Fresh(job: Job)
  {
    && job.status == Processing && job.resultsCount == 0
    && job.tiles == map[] && job.latencies == []
  }

  /** The processing times of the first delivery of each tile, in order. */
  function FirstTimes(ms: seq<Message>): seq<real>
  {
    if ms == [] then []
    else
      var before, m := ms[..|ms| - 1], ms[|ms| - 1];
      FirstTimes(before) + if m.tile in Ids(before) then [] else [m.seconds]
  }

  lemma IdsLast(ms: seq<Message>)
    requires ms != []
    ensures Ids(ms) == Ids(ms[..|ms| - 1]) + {ms[|ms| - 1].tile}
  {
    var before := ms[..|ms| - 1];
    forall t | t in Ids(ms)
      ensures t in Ids(before) + {ms[|ms| - 1].tile}
    {
      var i :| 0 <= i < |ms| && ms[i].tile == t;
      if i < |before| {
        assert before[i].tile == t;
      }
    }
    forall t | t in Ids(before)
      ensures t in Ids(ms)
    {
      var i :| 0 <= i < |before| && before[i].tile == t;
      assert ms[i].tile == t;
    }
  }

  lemma {:induction false} TilesAreIds(job: Job, ms: seq<Message>, done: Status)
    requires Fresh(job)
    ensures Delivered(job, ms, done).tiles.Keys == Ids(ms)
    ensures |Delivered(job, ms, done).tiles| == |Ids(ms)|
  {
    if ms == [] {
      assert Ids(ms) == {};
    } else {
      TilesAreIds(job, ms[..|ms| - 1], done);
      IdsLast(ms);
    }
    KeysSize(Delivered(job, ms, done).tiles);
  }

  lemma KeysSize<K, V>(m: map<K, V>)
    ensures |m| == |m.Keys|
  {
  }

  /** A tile holds the info of the last message delivered for it. */
  lemma {:induction false} LastDeliveryWins(job: Job, ms: seq<Message>, done: Status, i: nat)
    requires i < |ms| && forall j :: i < j < |ms| ==> ms[j].tile != ms[i].tile
    ensures var r := Delivered(job, ms, done); ms[i].tile in r.tiles && r.tiles[ms[i].tile] == ms[i].info
  {
    var n := |ms| - 1;
    if i < n {
      assert ms[..n][i] == ms[i] && forall j :: i < j < n ==> ms[..n][j] == ms[j];
      LastDeliveryWins(job, ms[..n], done, i);
      OthersKeepTheirInfo(Delivered(job, ms[..n], done), ms[n], done, ms[i].tile);
    }
  }

  lemma OthersKeepTheirInfo(job: Job, m: Message, done: Status, t: TileId)
    requires t != m.tile && t in job.tiles
    ensures t in Processed(job, m, done).tiles && Processed(job, m, done).tiles[t] == job.tiles[t]
  {
  }

  /** The job after some messages: `ids` delivered so far, `times` their first processing times. */
  predicate Outcome(job: Job, r: Job, ids: set<TileId>, times: seq<real>, done: Status)
  {
    && r.tiles.Keys == ids
    && r.resultsCount == |ids| && |r.latencies| == |ids|
    && r.latencies == times
    && r.status == (if |ids| > 0 && |ids| >= Expected(job) then done else Processing)
    && r == job.(tiles := r.tiles, resultsCount := r.resultsCount, latencies := r.latencies, status := r.status)
  }

  lemma OutcomeStep(job: Job, r: Job, ids: set<TileId>, times: seq<real>, done: Status, m: Message)
    requires done != Processing && Outcome(job, r, ids, times, done)
    ensures Outcome(job, Processed(r, m, done), ids + {m.tile},
                    if m.tile in ids then times else times + [m.seconds], done)
  {
    var r' := Processed(r, m, done);
    assert m.tile in r.tiles <==> m.tile in ids;
    assert r'.tiles.Keys == ids + {m.tile};
    assert |r'.tiles| == |r'.tiles.Keys|;
    if m.tile in ids {
      assert ids + {m.tile} == ids;
    } else {
      assert |ids + {m.tile}| == |ids| + 1;
    }
  }

  /**
   Main result.  For any stream of results, duplicated and reordered at will: the tile keys are
   the delivered ids, the counter and the number of latency samples are their number, each sample
   is that of a first delivery, the status is the final one exactly when as many distinct ids were
   delivered as are expected, and nothing else changes.
   */
  lemma {:induction false} StreamOutcome(job: Job, ms: seq<Message>, done: Status)
    requires Fresh(job) && done != Processing
    ensures Outcome(job, Delivered(job, ms, done), Ids(ms), FirstTimes(ms), done)
  {
    if ms == [] {
      assert Ids(ms) == {};
    } else {
      var before, m := ms[..|ms| - 1], ms[|ms| - 1];
      StreamOutcome(job, before, done);
      IdsLast(ms);
      OutcomeStep(job, Delivered(job, before, done), Ids(before), FirstTimes(before), done, m);
    }
  }

  /** With ids in range the status flips at exactly the first prefix that holds every id. */
  lemma FlipsAtFirstCompletePrefix(job: Job, ms: seq<Message>, done: Status, k: nat)
    requires Fresh(job) && done != Processing && 0 < k <= |ms| && Expected(job) >= 0
    requires Ids(ms) <= Range(Expected(job))
    ensures Finishes(Delivered(job, ms[..k - 1], done), ms[k - 1]) <==>
              Ids(ms[..k]) == Range(Expected(job)) && (k > 1 ==> Ids(ms[..k - 1]) != Range(Expected(job)))
    ensures Delivered(job, ms[..k], done).status == done <==> Ids(ms[..k]) == Range(Expected(job))
  {
    var now, before := ms[..k], ms[..k - 1];
    assert now[..k - 1] == before;
    StreamOutcome(job, now, done);
    StreamOutcome(job, before, done);
    PrefixIds(ms, k);
    PrefixIds(ms, k - 1);
    Pigeonhole(Ids(now), Expected(job));
    Pigeonhole(Ids(before), Expected(job));
    IdsLast(now);
    var stored := Recorded(Delivered(job, before, done), ms[k - 1].tile, ms[k - 1].info, ms[k - 1].seconds);
    assert stored.tiles.Keys == Ids(now);
    assert |stored.tiles| == |stored.tiles.Keys|;
  }

  lemma PrefixIds(ms: seq<Message>, k: nat)
    requires k <= |ms|
    ensures Ids(ms[..k]) <= Ids(ms)
  {
    forall t | t in Ids(ms[..k])
      ensures t in Ids(ms)
    {
      var i :| 0 <= i < k && ms[..k][i].tile == t;
      assert ms[i].tile == t;
    }
  }

  /** How many messages of the stream complete the job, and so fire the ML metric and blob sweep. */
  function Completions(job: Job, ms: seq<Message>, done: Status): nat
  {
    if ms == [] then 0
    else
      var before := ms[..|ms| - 1];
      Completions(job, before, done) + if Finishes(Delivered(job, before, done), ms[|ms| - 1]) then 1 else 0
  }

  /** The completion metric and the blob sweep fire exactly once, duplicates and stragglers included. */
  lemma {:induction false} CompletesExactlyOnce(job: Job, ms: seq<Message>, done: Status)
    requires Fresh(job) && done != Processing
    ensures Completions(job, ms, done) == if Delivered(job, ms, done).status == done then 1 else 0
  {
    if ms != [] {
      var before := ms[..|ms| - 1];
      CompletesExactlyOnce(job, before, done);
      StreamOutcome(job, before, done);
    }
  }

  // ---------------------------------------------------------------- interruption and redelivery

  /** What is left in Redis when processing m stops after its first k writes. */
  function Interrupted(job: Job, m: Message, k: nat, done: Status): Job
  {
    var recorded := RecordedUpTo(job, m.tile, m.info, m.seconds, k);
    if k >= 4 && Finishes(job, m) then HSetStatus(recorded, done) else recorded
  }

  /** Any number of interrupted attempts, stopping after ks[0], ks[1], ... writes. */
  function InterruptedMany(job: Job, m: Message, ks: seq<nat>, done: Status): Job
  {
    if ks == [] then job
    else Interrupted(InterruptedMany(job, m, ks[..|ks| - 1], done), m, ks[|ks| - 1], done)
  }

  /** What any number of interrupted attempts can have left behind. */
  ghost predicate Partial(job: Job, j: Job, m: Message, done: Status)
  {
    && j == job.(tiles := j.tiles, latencies := j.latencies, resultsCount := j.resultsCount, status := j.status)
    && (j == job || j.tiles == job.tiles[m.tile := m.info])
    && (j.status == job.status || (j.status == done && Finishes(job, m)))
    && 0 <= j.resultsCount - job.resultsCount <= |j.latencies| - |job.latencies|
         <= if m.tile in job.tiles then 0 else 1
  }

  lemma StillPartial(job: Job, j: Job, m: Message, k: nat, done: Status)
    requires done != Processing && Partial(job, j, m, done)
    ensures Partial(job, Interrupted(j, m, k, done), m, done)
  {
    assert job.tiles[m.tile := m.info][m.tile := m.info] == job.tiles[m.tile := m.info];
  }

  lemma {:induction false} InterruptedIsPartial(job: Job, m: Message, ks: seq<nat>, done: Status)
    requires done != Processing
    ensures Partial(job, InterruptedMany(job, m, ks, done), m, done)
  {
    if ks != [] {
      InterruptedIsPartial(job, m, ks[..|ks| - 1], done);
      StillPartial(job, InterruptedMany(job, m, ks[..|ks| - 1], done), m, ks[|ks| - 1], done);
    }
  }

  /**
   Main result.  A message whose processing is interrupted anywhere, any number of times, and is
   then redelivered leaves the same tiles and the same status as one uninterrupted processing.
   Only the latency sample and the counter may miss it, and the counter never counts it twice.
   */
  lemma RedeliveryHeals(job: Job, m: Message, ks: seq<nat>, done: Status)
    requires done != Processing
    ensures var healed := Processed(InterruptedMany(job, m, ks, done), m, done);
            var direct := Processed(job, m, done);
            && healed == direct.(latencies := healed.latencies, resultsCount := healed.resultsCount)
            && healed.tiles == direct.tiles && healed.status == direct.status
            && job.resultsCount <= healed.resultsCount <= direct.resultsCount
            && healed.resultsCount - job.resultsCount <= |healed.latencies| - |job.latencies|
  {
    InterruptedIsPartial(job, m, ks, done);
    assert job.tiles[m.tile := m.info][m.tile := m.info] == job.tiles[m.tile := m.info];
  }
}
