/** One job over its whole life: consumers and sweeps in any order, one at a time. */
module JobLife {
  import opened Collections
  import opened JobRecords
  import opened Reaper
  import opened Tiling
  import opened Blobs
  import Consumers
  import opened Dispatch

  /** One step on a job: a consumer processes a message, or a sweep visits the job, perhaps up to an exception. */
  datatype Event = Result(message: Consumers.Message, done: Status) | Sweep(now: real, visit: Visit)

  function Stepped(id: JobId, job: Job, e: Event, settings: Settings): Swept {
    match e
    case Result(m, done) => Swept(Consumers.Processed(job, m, done), [])
    case Sweep(now, visit) => SweptJob(id, job, now, visit, settings)
  }

  /** events[i] leads from jobs[i] to jobs[i + 1]; requeues[i] tells whether it requeues a tile. */
  ghost predicate StepAt(id: JobId, jobs: seq<Job>, requeues: seq<bool>, events: seq<Event>, settings: Settings, i: nat)
    requires i < |events| == |requeues| && |jobs| == |events| + 1
  {
    var r := Stepped(id, jobs[i], events[i], settings);
    jobs[i + 1] == r.job && (requeues[i] <==> r.sent != [])
  }

  ghost predicate IsLife(id: JobId, jobs: seq<Job>, requeues: seq<bool>, events: seq<Event>, settings: Settings)
  {
    && |requeues| == |events| && |jobs| == |events| + 1
    && settings.timeout >= 0.0
    && (forall i :: 0 <= i < |events| && events[i].Result? ==> events[i].done != Processing)
    && forall i :: 0 <= i < |events| ==> StepAt(id, jobs, requeues, events, settings, i)
  }

  /** No exception ends the sweep of this step. */
  predicate Whole(e: Event) {
    e.Sweep? ==> e.visit.cut.None?
  }

  /** The reap clock never runs backwards, whatever the wall clock does, and a whole sweep that requeues sets it. */
  lemma StepClock(id: JobId, job: Job, e: Event, settings: Settings)
    requires settings.timeout >= 0.0
    ensures var r := Stepped(id, job, e, settings);
            && r.job.lastReap >= job.lastReap && r.job.meta == job.meta
            && (r.sent != [] ==> e.Sweep? && job.meta.Some? && e.now - LastActivity(job) >= settings.timeout
                                 && (Whole(e) ==> r.job.lastReap == e.now))
    ensures job.status != Processing && (e.Result? ==> e.done != Processing) ==>
              Stepped(id, job, e, settings).job.status == job.status && Stepped(id, job, e, settings).sent == []
  {
    if e.Sweep? && Due(job, e.now, settings) && Retryable(job) != [] {
      SweepKeepsTheRest(id, job, e.now, e.visit, settings);
    }
  }

  /** The same for step i of a life. */
  lemma LifeStep(id: JobId, jobs: seq<Job>, requeues: seq<bool>, events: seq<Event>, settings: Settings, i: nat)
    requires IsLife(id, jobs, requeues, events, settings) && i < |events|
    ensures jobs[i + 1].lastReap >= jobs[i].lastReap && jobs[i + 1].meta == jobs[i].meta
    ensures requeues[i] ==> events[i].Sweep? && jobs[i].meta.Some?
                            && events[i].now - LastActivity(jobs[i]) >= settings.timeout
                            && (Whole(events[i]) ==> jobs[i + 1].lastReap == events[i].now)
    ensures jobs[i].status != Processing ==> jobs[i + 1].status == jobs[i].status && !requeues[i]
  {
    assert StepAt(id, jobs, requeues, events, settings, i);
    StepClock(id, jobs[i], events[i], settings);
  }

  lemma {:induction false} ClockAfter(id: JobId, jobs: seq<Job>, requeues: seq<bool>, events: seq<Event>,
                                      settings: Settings, i: nat, j: nat)
    requires IsLife(id, jobs, requeues, events, settings) && i <= j <= |events|
    ensures jobs[j].lastReap >= jobs[i].lastReap && jobs[j].meta == jobs[i].meta
  {
    if i < j {
      ClockAfter(id, jobs, requeues, events, settings, i, j - 1);
      LifeStep(id, jobs, requeues, events, settings, j - 1);
    }
  }

  /**
   Main result.  Whatever results arrive in between and whatever the wall clock does, a sweep that
   requeues tiles of a job comes at least the timeout after any earlier one that did and was not
   ended by an exception.
   */
  lemma RequeuesAreSpaced(id: JobId, jobs: seq<Job>, requeues: seq<bool>, events: seq<Event>, settings: Settings, i: nat, j: nat)
    requires IsLife(id, jobs, requeues, events, settings) && i < j < |events|
    requires requeues[i] && requeues[j] && Whole(events[i])
    ensures events[i].Sweep? && events[j].Sweep? && events[j].now - events[i].now >= settings.timeout
  {
    LifeStep(id, jobs, requeues, events, settings, i);
    ClockAfter(id, jobs, requeues, events, settings, i + 1, j);
    LifeStep(id, jobs, requeues, events, settings, j);
  }

  /** No requeue before the tasks of the original dispatch had their time. */
  lemma FirstRequeueWaits(id: JobId, jobs: seq<Job>, requeues: seq<bool>, events: seq<Event>, settings: Settings, i: nat)
    requires IsLife(id, jobs, requeues, events, settings) && i < |events| && requeues[i]
    ensures jobs[0].meta.Some? && events[i].Sweep? && events[i].now - jobs[0].meta.value.timestamp >= settings.timeout
  {
    ClockAfter(id, jobs, requeues, events, settings, 0, i);
    LifeStep(id, jobs, requeues, events, settings, i);
  }

  /** Ready, completed and degraded jobs stay so over whole steps, and nothing of theirs is requeued. */
  lemma {:induction false} FinishedStaysFinished(id: JobId, jobs: seq<Job>, requeues: seq<bool>,
                                                 events: seq<Event>, settings: Settings, i: nat, j: nat)
    requires IsLife(id, jobs, requeues, events, settings) && i <= j <= |events|
    requires jobs[i].status != Processing
    ensures jobs[j].status == jobs[i].status && (j < |events| ==> !requeues[j])
  {
    if i < j {
      FinishedStaysFinished(id, jobs, requeues, events, settings, i, j - 1);
      LifeStep(id, jobs, requeues, events, settings, j - 1);
    }
    if j < |events| {
      LifeStep(id, jobs, requeues, events, settings, j);
    }
  }

  /**
   A sweep acts on a job exactly when the job is processing, its creation and its last reap are
   both at least the timeout ago, a tile is missing, and no exception comes before the first
   attempt is counted.
   */
  lemma SweepActsExactlyWhenDue(id: JobId, job: Job, now: real, visit: Visit, settings: Settings)
    requires job.meta.Some? && TileSizeOf(job.meta.value, settings.tileSize) != 0
    ensures SweptJob(id, job, now, visit, settings) != Swept(job, []) <==>
              && job.status == Processing
              && now - job.meta.value.timestamp >= settings.timeout && now - job.lastReap >= settings.timeout
              && (exists t: TileId :: 0 <= t < job.meta.value.expected && t !in job.tiles)
              && (visit.cut == Some(Cut(0, false)) ==> Retryable(job) == [])
  {
    var missing := Missing(job);
    if missing != [] {
      assert missing[0] in missing;
    }
    assert missing == [] <==> !exists t: TileId :: 0 <= t < job.meta.value.expected && t !in job.tiles;
    if Due(job, now, settings) && Retryable(job) != [] {
      SweepLoops(id, job, now, visit, settings);
      if visit.cut != Some(Cut(0, false)) {
        SomeAttemptCounted(id, job, now, visit, settings);
      }
    }
  }

  lemma SomeAttemptCounted(id: JobId, job: Job, now: real, visit: Visit, settings: Settings)
    requires Due(job, now, settings) && Retryable(job) != [] && visit.cut != Some(Cut(0, false))
    requires TileSizeOf(job.meta.value, settings.tileSize) != 0
    ensures SweptJob(id, job, now, visit, settings).job != job
  {
    var tiles, messages := Retryable(job), MessagesOf(id, job.meta.value, visit.present, settings);
    var t := tiles[0];
    assert t in tiles;
    SweepLoops(id, job, now, visit, settings);
    var looped := RetryLoop(job, tiles, Through(tiles, visit.cut), messages, settings.maxAttempts);
    DecidedBySweep(job, looped, SweptJob(id, job, now, visit, settings), visit.cut, t, now, messages, settings.maxAttempts);
    assert Through(tiles, visit.cut) > 0 ==> tiles[..Through(tiles, visit.cut)][0] == t;
    assert t in TurnIds(job, visit.cut) || CutOff(tiles, visit.cut) == Some(t);
  }

  // ---------------------------------------------------------------- ids that SCAN repeats

  /** If visit `first` is the first of job k, and `cut` ends it, the later ones up to n do nothing. */
  predicate OneVisitInEffect(k: JobId, job: Job, ids: seq<JobId>, first: nat, n: nat, now: real, visits: seq<Visit>,
                             settings: Settings, cut: Option<Cut>)
  {
    first < n <= |ids| && |ids| == |visits| && ids[first] == k && k !in ids[..first] && visits[first].cut == cut ==>
    Visited(k, job, ids, n, now, visits, settings) == SweptJob(k, job, now, visits[first], settings)
  }

  /** So it is in every sweep. */
  ghost predicate RepeatsHarmless(settings: Settings, cut: Option<Cut>) {
    forall k: JobId, job: Job, ids: seq<JobId>, first: nat, n: nat, now: real, visits: seq<Visit> ::
      OneVisitInEffect(k, job, ids, first, n, now, visits, settings, cut)
  }

  /**
   An id that SCAN reports more than once is harmless in all sweeps exactly when the timeout is
   positive and no exception ends the first visit; otherwise it can cost a second attempt.
   */
  lemma RepeatsHarmlessExactly(settings: Settings, cut: Option<Cut>)
    ensures RepeatsHarmless(settings, cut) <==> settings.timeout > 0.0 && cut.None?
  {
    if settings.timeout > 0.0 && cut.None? {
      forall k: JobId, job: Job, ids: seq<JobId>, first: nat, n: nat, now: real, visits: seq<Visit>
        ensures OneVisitInEffect(k, job, ids, first, n, now, visits, settings, cut)
      {
        if first < n <= |ids| && |ids| == |visits| && ids[first] == k && k !in ids[..first] && visits[first].cut == cut {
          RepeatedIdsAreHarmless(k, job, ids, first, n, now, visits, settings);
        }
      }
    } else {
      SecondVisitActs(NewJob(16, 1), settings, cut);
    }
  }

  /** A job just created by /detect: n tiles of that size in a row. */
  function NewJob(tileSize: nat, n: nat): Job {
    NO_JOB.(meta := Some(MetaOf(Detect, tileSize * n, tileSize, tileSize, 0.0)), status := Processing)
  }

  lemma NewJobExpects(n: nat)
    ensures Expected(NewJob(16, n)) == n
  {
  }

  lemma SecondVisitActs(job: Job, settings: Settings, cut: Option<Cut>)
    requires job == NewJob(16, 1) && (settings.timeout > 0.0 ==> cut.Some?)
    ensures !RepeatsHarmless(settings, cut)
  {
    var now := if settings.timeout > 0.0 then settings.timeout else 0.0;
    var first, second := Visit({}, cut), Visit({}, None);
    ActsAgain(job, now, first, second, settings);
    VisitedTwice("", job, now, first, second, settings);
    assert !OneVisitInEffect("", job, ["", ""], 0, 2, now, [first, second], settings, cut);
  }

  lemma VisitedTwice(k: JobId, job: Job, now: real, first: Visit, second: Visit, settings: Settings)
    ensures var r := SweptJob(k, job, now, first, settings);
            var one := SweptJob(k, r.job, now, second, settings);
            Visited(k, job, [k, k], 2, now, [first, second], settings) == Swept(one.job, r.sent + one.sent)
  {
    VisitedOne(k, job, [k, k], 0, now, [first, second], settings, Swept(job, []));
    VisitedOne(k, job, [k, k], 1, now, [first, second], settings, SweptJob(k, job, now, first, settings));
  }

  lemma ActsAgain(job: Job, now: real, first: Visit, second: Visit, settings: Settings)
    requires job == NewJob(16, 1) && Due(job, now, settings)
    requires (first.cut.Some? || now == 0.0) && second.cut.None?
    ensures var once := SweptJob("", job, now, first, settings).job;
            SweptJob("", once, now, second, settings) != Swept(once, [])
  {
    NewJobExpects(1);
    FirstVisit(job, now, first, settings);
    SweepActsExactlyWhenDue("", SweptJob("", job, now, first, settings).job, now, second, settings);
  }

  lemma FirstVisit(job: Job, now: real, visit: Visit, settings: Settings)
    requires job == NewJob(16, 1) && Expected(job) == 1 && Due(job, now, settings)
    requires visit.cut.Some? || now == 0.0
    ensures var once := SweptJob("", job, now, visit, settings).job;
            once.status == Processing && once.meta == job.meta && once.lastReap == 0.0 && 0 !in once.tiles
  {
    var retryable := Retryable(job);
    assert 0 in retryable;
    SweepKeepsTheRest("", job, now, visit, settings);
    SweepLoops("", job, now, visit, settings);
  }

  // ---------------------------------------------------------------- the grace period after an exception

  predicate Spaced(events: seq<Event>, settings: Settings, i: nat, j: nat)
    requires i < j < |events|
  {
    events[i].Sweep? && events[j].Sweep? && events[j].now - events[i].now >= settings.timeout
  }

  /** In all lives, two requeueing sweeps of which `cut` ends the first are at least the timeout apart. */
  ghost predicate SpacingHolds(settings: Settings, cut: Option<Cut>) {
    forall id: JobId, jobs: seq<Job>, requeues: seq<bool>, events: seq<Event>, i: nat, j: nat ::
      IsLife(id, jobs, requeues, events, settings) && i < j < |events| && requeues[i] && requeues[j]
      && events[i].Sweep? && events[i].visit.cut == cut ==>
      Spaced(events, settings, i, j)
  }

  /**
   Main result.  That holds exactly when the first sweep is not ended by an exception, or before
   anything is requeued, or when the attempt limit rules requeues out.
   */
  lemma SpacingExactly(settings: Settings, cut: Option<Cut>)
    requires settings.timeout >= 0.0
    ensures SpacingHolds(settings, cut) <==> cut.None? || cut.value.turns == 0 || settings.maxAttempts < 2
  {
    if cut.None? || cut.value.turns == 0 || settings.maxAttempts < 2 {
      forall id: JobId, jobs: seq<Job>, requeues: seq<bool>, events: seq<Event>, i: nat, j: nat
        | IsLife(id, jobs, requeues, events, settings) && i < j < |events| && requeues[i] && requeues[j]
          && events[i].Sweep? && events[i].visit.cut == cut
        ensures Spaced(events, settings, i, j)
      {
        assert StepAt(id, jobs, requeues, events, settings, i);
        if cut.Some? {
          NothingSent(id, jobs[i], events[i].now, events[i].visit, settings);
        } else {
          RequeuesAreSpaced(id, jobs, requeues, events, settings, i, j);
        }
      }
    } else {
      TwoAtOnce(settings, cut.value);
    }
  }

  lemma NothingSent(id: JobId, job: Job, now: real, visit: Visit, settings: Settings)
    requires (visit.cut.Some? && visit.cut.value.turns == 0) || settings.maxAttempts < 2
    ensures SweptJob(id, job, now, visit, settings).sent == []
  {
    if Due(job, now, settings) {
      var tiles := Retryable(job);
      if settings.maxAttempts < 2 {
        NoneRequeued(job, tiles, Through(tiles, visit.cut), MessagesOf(id, job.meta.value, visit.present, settings), settings.maxAttempts);
      }
    }
  }

  /** The original dispatch was attempt 1. */
  lemma {:induction false} NoneRequeued(job: Job, tiles: seq<TileId>, n: nat, messages: Messages, maxAttempts: int)
    requires n <= |tiles| && maxAttempts < 2
    ensures RetryLoop(job, tiles, n, messages, maxAttempts).sent == []
  {
    if n > 0 {
      NoneRequeued(job, tiles, n - 1, messages, maxAttempts);
    }
  }

  /** The task blobs of the first n tiles of job "". */
  function TaskBlobs(n: nat): (r: set<string>)
    ensures forall t: TileId :: 0 <= t < n ==> BlobKey("", "ml_task", t) in r
  {
    if n == 0 then {} else TaskBlobs(n - 1) + {BlobKey("", "ml_task", n - 1)}
  }

  /** A due sweep requeues a retryable tile that gets its turn, has had no attempt and whose blob is stored. */
  lemma FreshTileIsSent(job: Job, now: real, visit: Visit, settings: Settings, n: nat, t: TileId)
    requires job.meta == NewJob(16, n).meta && Due(job, now, settings) && settings.maxAttempts >= 2
    requires t in TurnIds(job, visit.cut) && Attempts(job, t) == 0 && visit.present == TaskBlobs(n)
    ensures SweptJob("", job, now, visit, settings).sent != []
  {
    NewJobExpects(n);
    assert Retryable(job) != [];
    SweepDecidesEveryTile("", job, now, visit, settings, Detect, 16 * n, 16, 16, 0.0);
    assert TileSwept("", job, SweptJob("", job, now, visit, settings), t, TurnIds(job, visit.cut), CutOff(Retryable(job), visit.cut),
                     visit.present, settings.maxAttempts, Detect, Layout(16 * n, 16, 16));
  }

  /** The first sweep: it requeues, leaves the reap clock alone, and does not get to the last tile. */
  lemma CutSweep(settings: Settings, cut: Cut, n: nat, now: real)
    requires settings.timeout >= 0.0 && settings.maxAttempts >= 2 && 0 < cut.turns && n == cut.turns + 2 && now >= settings.timeout
    ensures var r := SweptJob("", NewJob(16, n), now, Visit(TaskBlobs(n), Some(cut)), settings);
            && r.sent != []
            && r.job == NewJob(16, n).(attempts := r.job.attempts, abandoned := r.job.abandoned)
            && Attempts(r.job, n - 1) == 0 && n - 1 !in r.job.abandoned
  {
    var job, visit := NewJob(16, n), Visit(TaskBlobs(n), Some(cut));
    NewJobExpects(n);
    FirstButNotLast(job, cut, n);
    FreshTileIsSent(job, now, visit, settings, n, 0);
    SweepDecidesEveryTile("", job, now, visit, settings, Detect, 16 * n, 16, 16, 0.0);
    assert TileSwept("", job, SweptJob("", job, now, visit, settings), n - 1, TurnIds(job, visit.cut),
                     CutOff(Retryable(job), visit.cut), visit.present, settings.maxAttempts, Detect, Layout(16 * n, 16, 16));
  }

  lemma FirstButNotLast(job: Job, cut: Cut, n: nat)
    requires Expected(job) == n && job.tiles == map[] && job.abandoned == {} && 0 < cut.turns && n == cut.turns + 2
    ensures 0 in TurnIds(job, Some(cut)) && n - 1 !in TurnIds(job, Some(cut)) && CutOff(Retryable(job), Some(cut)) != Some(n - 1)
    ensures Retryable(job) != []
  {
    AllRetryable(job, n);
    var tiles := Retryable(job);
    assert tiles[..cut.turns][0] == 0;
    assert n - 1 !in tiles[..cut.turns];
  }

  lemma {:induction false} IdsBelow(n: nat)
    ensures |Outstanding(n, {}, {})| == n && forall k :: 0 <= k < n ==> Outstanding(n, {}, {})[k] == k
  {
    if n > 0 {
      IdsBelow(n - 1);
    }
  }

  lemma AllRetryable(job: Job, n: nat)
    requires Expected(job) == n && job.tiles == map[] && job.abandoned == {}
    ensures |Retryable(job)| == n && forall k :: 0 <= k < n ==> Retryable(job)[k] == k
  {
    IdsBelow(n);
    assert job.tiles.Keys == {};
  }

  /** Two requeueing sweeps are a life. */
  lemma LifeOfTwo(id: JobId, job: Job, first: Event, second: Event, settings: Settings)
    returns (jobs: seq<Job>, requeues: seq<bool>, events: seq<Event>)
    requires settings.timeout >= 0.0 && first.Sweep? && second.Sweep?
    requires Stepped(id, job, first, settings).sent != []
    requires Stepped(id, Stepped(id, job, first, settings).job, second, settings).sent != []
    ensures IsLife(id, jobs, requeues, events, settings)
    ensures events == [first, second] && requeues == [true, true]
  {
    var once := Stepped(id, job, first, settings).job;
    jobs, requeues, events := [job, once, Stepped(id, once, second, settings).job], [true, true], [first, second];
    assert StepAt(id, jobs, requeues, events, settings, 0) && StepAt(id, jobs, requeues, events, settings, 1);
  }

  /** After it another sweep requeues, at an earlier time even. */
  lemma TwoAtOnce(settings: Settings, cut: Cut)
    requires settings.timeout >= 0.0 && settings.maxAttempts >= 2 && cut.turns > 0
    ensures !SpacingHolds(settings, Some(cut))
  {
    var n, now := cut.turns + 2, settings.timeout;
    var first, second := Sweep(now + 1.0, Visit(TaskBlobs(n), Some(cut))), Sweep(now, Visit(TaskBlobs(n), None));
    SecondSweep(settings, cut, n, now);
    var jobs, requeues, events := LifeOfTwo("", NewJob(16, n), first, second, settings);
    assert !Spaced(events, settings, 0, 1);
    assert requeues[0] && requeues[1];
  }

  lemma SecondSweep(settings: Settings, cut: Cut, n: nat, now: real)
    requires settings.timeout >= 0.0 && settings.maxAttempts >= 2 && cut.turns > 0 && n == cut.turns + 2 && now == settings.timeout
    ensures var once := SweptJob("", NewJob(16, n), now + 1.0, Visit(TaskBlobs(n), Some(cut)), settings);
            && once.sent != []
            && SweptJob("", once.job, now, Visit(TaskBlobs(n), None), settings).sent != []
  {
    CutSweep(settings, cut, n, now + 1.0);
    NewJobExpects(n);
    var once := SweptJob("", NewJob(16, n), now + 1.0, Visit(TaskBlobs(n), Some(cut)), settings).job;
    FreshTileIsSent(once, now, Visit(TaskBlobs(n), None), settings, n, n - 1);
  }
}
