/**
 The bounds of TileRequeues and TileCounters are exact: for every configuration and every number
 of deletions there is a run that reaches them.  Without a deletion they are the limits that the
 program is after, and one deletion is enough to break those.
 */
module TileBounds {
  import opened Collections
  import opened JobRecords
  import opened TileProtocol
  import opened TileCode
  import opened TileRequeues
  import opened TileCounters
  import opened TileWitnesses
  import Consumers

  // ---------------------------------------------------------------- requeues of one tile

  /** Sweeps n..k-1 are about to retry tile 0. */
  predicate SweepsWait(u: State, n: nat, k: nat) {
    forall p :: n <= p < k ==> p in u.procs && u.procs[p].Looping? && u.procs[p].rest == [0]
  }

  /** The /reconstruct requests from..to-1 have seen a complete job and are about to mark it completed. */
  predicate RequestsWait(u: State, from: nat, to: nat) {
    forall p :: from <= p < to ==> p in u.procs && u.procs[p].Rendering?
  }

  /** K overlapping sweeps start while the tile is missing. */
  lemma {:induction false} SweepsStart(most: int, k: nat) returns (actions: seq<Action>, u: State)
    ensures From(Begin(most), actions) == Some(u)
    ensures u == Begin(most).(tasks := {0}, blobs := {0}, results := {(0, INFO)}, procs := u.procs,
                              hist := NO_HISTORY.(nextSweep := k))
    ensures SweepsWait(u, 0, k) && forall p :: p in u.procs ==> p < k
  {
    if k == 0 {
      actions, u := Processed(most);
    } else {
      actions, u := SweepsStart(most, k - 1);
      actions, u := Started(Begin(most), actions, u, k - 1);
    }
  }

  /** ... then the tile arrives, and d requests to render the job. */
  lemma {:induction false} RequestsStart(most: int, k: nat, d: nat) returns (actions: seq<Action>, u: State)
    ensures From(Begin(most), actions) == Some(u)
    ensures u.cfg == Begin(most).cfg && u.tasks == {0} && u.blobs == {0} && |u.job.tiles| == 1
    ensures Attempts(u.job, 0) == 0 && u.hist.resets == 0 && u.hist.requeued == []
    ensures SweepsWait(u, 0, k) && RequestsWait(u, k + 1, k + 1 + d) && forall p :: p in u.procs ==> p < k + 1 + d
  {
    if d == 0 {
      actions, u := SweepsStart(most, k);
      actions, u := Stored(Begin(most), actions, u, k);
      assert |u.job.tiles| == 1;
    } else {
      actions, u := RequestsStart(most, k, d - 1);
      actions, u := AdmitRun(Begin(most), actions, u, k + d);
    }
  }

  /** e deletions are done, m requeues since the last one, n in all; k sweeps and d requests took part. */
  predicate Life(u: State, most: int, e: nat, m: nat, n: nat, k: nat, d: nat) {
    && u.cfg == Begin(most).cfg && u.tasks == {0} && u.blobs == {0}
    && Attempts(u.job, 0) == m && u.hist.resets == e && Times(u.hist.requeued, 0) == n
    && SweepsWait(u, n, k) && RequestsWait(u, k + 1 + e, k + 1 + d)
  }

  lemma TimesOneMore(requeued: seq<Ticket>, k: Ticket, t: TileId)
    ensures Times(requeued + [k], t) == Times(requeued, t) + if k.tile == t then 1 else 0
  {
    assert (requeued + [k])[..|requeued|] == requeued;
  }

  lemma OneRequeue(s: State, before: seq<Action>, u: State, most: int, e: nat, m: nat, n: nat, k: nat, d: nat)
    returns (actions: seq<Action>, u': State)
    requires From(s, before) == Some(u) && Life(u, most, e, m, n, k, d) && n < k && m + 1 < most
    ensures From(s, actions) == Some(u') && Life(u', most, e, m + 1, n + 1, k, d)
  {
    actions, u' := Requeued(s, before, u, n, m);
    TimesOneMore(u.hist.requeued, Ticket(0, e, m + 1), 0);
  }

  /** One lifetime of the counter lets j sweeps requeue. */
  lemma {:induction false} OneLife(s: State, before: seq<Action>, u: State, most: int, e: nat, n: nat, j: nat, k: nat, d: nat)
    returns (actions: seq<Action>, u': State)
    requires From(s, before) == Some(u) && Life(u, most, e, 0, n, k, d) && n + j <= k && j < most
    ensures From(s, actions) == Some(u') && Life(u', most, e, j, n + j, k, d)
  {
    if j == 0 {
      actions, u' := before, u;
    } else {
      actions, u' := OneLife(s, before, u, most, e, n, j - 1, k, d);
      actions, u' := OneRequeue(s, actions, u', most, e, j - 1, n + j - 1, k, d);
    }
  }

  /** The next request deletes the counters. */
  lemma NextLife(s: State, before: seq<Action>, u: State, most: int, e: nat, m: nat, n: nat, k: nat, d: nat)
    returns (actions: seq<Action>, u': State)
    requires From(s, before) == Some(u) && Life(u, most, e, m, n, k, d) && e < d
    ensures From(s, actions) == Some(u') && Life(u', most, e + 1, 0, n, k, d)
  {
    actions, u' := ClearRun(s, before, u, k + 1 + e);
    actions, u' := AttemptsRun(s, actions, u', k + 1 + e, {0});
  }

  /** From the start of one lifetime to the end of the last. */
  lemma {:induction false} AllLives(s: State, before: seq<Action>, u: State, most: int, e: nat, n: nat, k: nat, d: nat)
    returns (actions: seq<Action>, u': State)
    requires From(s, before) == Some(u) && Life(u, most, e, 0, n, k, d)
    requires most >= 2 && e <= d && k - n == (d - e + 1) * (most - 1)
    ensures From(s, actions) == Some(u') && Life(u', most, d, most - 1, k, k, d)
    decreases d - e
  {
    Unfold(d - e, most - 1);
    actions, u' := OneLife(s, before, u, most, e, n, most - 1, k, d);
    if e < d {
      actions, u' := NextLife(s, actions, u', most, e, most - 1, n + most - 1, k, d);
      actions, u' := AllLives(s, actions, u', most, e + 1, n + most - 1, k, d);
    }
  }

  lemma Unfold(x: nat, y: nat)
    ensures (x + 1) * y == x * y + y >= y
  {
  }

  /**
   Main result.  The bound on requeues is reached: for every MAX_TILE_ATTEMPTS from 2 on and every d
   there is a run with d deletions of the attempt counters and (d + 1) * (MAX_TILE_ATTEMPTS - 1)
   requeues of one tile.
   */
  lemma RequeueBoundIsReached(most: int, d: nat) returns (states: seq<State>, actions: seq<Action>)
    requires most >= 2
    ensures IsRun(states, actions) && states[0].cfg.maxAttempts == most
    ensures CounterDeletions(states, actions, |actions|) == d
    ensures Requeues(states, actions, |actions|, 0) == (d + 1) * (most - 1)
  {
    Unfold(d, most - 1);
    var k := (d + 1) * (most - 1);
    var u: State;
    actions, u := RequestsStart(most, k, d);
    actions, u := AllLives(Begin(most), actions, u, most, 0, 0, k, d);
    states := FromIsARun(Begin(most), actions);
    HistoryCountsRequeues(states, actions, |actions|, 0);
    ResetsAreDeletions(states, actions, |actions|);
  }

  /** No tile is requeued more often than MAX_TILE_ATTEMPTS - 1 times in any run with d deletions. */
  ghost predicate RequeueLimitHolds(most: int, d: nat) {
    forall states: seq<State>, actions: seq<Action>, t: TileId ::
      IsRun(states, actions) && states[0].cfg.maxAttempts == most && CounterDeletions(states, actions, |actions|) == d
      ==> Requeues(states, actions, |actions|, t) <= most - 1
  }

  /** Main result.  The limit holds in all runs with d deletions of attempt counters exactly when d is 0. */
  lemma RequeueLimitExactly(most: int, d: nat)
    requires most >= 2
    ensures RequeueLimitHolds(most, d) <==> d == 0
  {
    if d == 0 {
      forall states: seq<State>, actions: seq<Action>, t: TileId
        | IsRun(states, actions) && states[0].cfg.maxAttempts == most && CounterDeletions(states, actions, |actions|) == d
        ensures Requeues(states, actions, |actions|, t) <= most - 1
      {
        RequeuesAreBounded(states, actions, |actions|, t);
      }
    } else {
      var states, actions := RequeueBoundIsReached(most, d);
      Unfold(d, most - 1);
      Unfold(d - 1, most - 1);
      assert Requeues(states, actions, |actions|, 0) > most - 1;
    }
  }

  // ---------------------------------------------------------------- results_count

  /** A job of n tiles. */
  function BeginMany(n: nat): State {
    State(Config(n, 1, false), NO_JOB.(meta := Some(Meta("grayscale", 1, 1, Some(1), n, 0.0)), status := Processing),
          {}, {}, {}, map[], NO_HISTORY)
  }

  /** The first n tiles have been processed. */
  lemma {:induction false} AllWorked(expected: nat, n: nat) returns (actions: seq<Action>, u: State)
    requires n <= expected
    ensures From(BeginMany(expected), actions) == Some(u)
    ensures u == BeginMany(expected).(tasks := u.tasks, blobs := u.blobs, results := u.results)
    ensures forall t :: 0 <= t < n ==> (t, INFO) in u.results
  {
    if n == 0 {
      actions, u := [], BeginMany(expected);
    } else {
      actions, u := AllWorked(expected, n - 1);
      actions, u := Take(BeginMany(expected), actions, u, Dispatch(n - 1));
      actions, u := Take(BeginMany(expected), actions, u, Work(n - 1, INFO));
    }
  }

  /** Tiles 0..n-1 are held, results_count is c, the tiles key was deleted g times; consumer 0 and request 1 are idle. */
  predicate Round(u: State, expected: nat, n: nat, c: nat, g: nat) {
    && u.cfg == BeginMany(expected).cfg
    && u.job.tiles.Keys == Range(n) && u.job.resultsCount == c && u.hist.gen == g
    && Pc(u, 0).Idle? && Pc(u, 1).Idle?
    && forall t :: 0 <= t < expected ==> (t, INFO) in u.results
  }

  /** Consumer 0 handles one more result, start to end. */
  lemma OneResult(s: State, before: seq<Action>, u: State, expected: nat, n: nat, c: nat, g: nat)
    returns (actions: seq<Action>, u': State)
    requires From(s, before) == Some(u) && Round(u, expected, n, c, g) && n < expected
    ensures From(s, actions) == Some(u') && Round(u', expected, n + 1, c + 1, g)
  {
    assert n !in u.job.tiles.Keys;
    actions, u' := ReceiveRun(s, before, u, 0, Consumers.Message("", n, INFO, 0.0));
    actions, u' := StoreRun(s, actions, u', 0);
    assert u'.job.tiles.Keys == u.job.tiles.Keys + {n} == Range(n + 1);
    actions, u' := CountedResult(s, actions, u', expected, n + 1, c, g);
  }

  lemma CountedResult(s: State, before: seq<Action>, u: State, expected: nat, n: nat, c: nat, g: nat)
    returns (actions: seq<Action>, u': State)
    requires From(s, before) == Some(u) && Round(u.(procs := u.procs[0 := Idle]), expected, n, c, g)
    requires 0 in u.procs && u.procs[0].Pushing?
    ensures From(s, actions) == Some(u') && Round(u', expected, n, c + 1, g)
  {
    var v: State;
    actions, v := CountRun(s, before, u, 0);
    actions, u' := CheckRun(s, actions, v, 0);
    if u'.procs[0].Flipping? {
      actions, u' := FlipRun(s, actions, u', 0);
    }
  }

  lemma {:induction false} AllResults(s: State, before: seq<Action>, u: State, expected: nat, n: nat, c: nat, g: nat)
    returns (actions: seq<Action>, u': State)
    requires From(s, before) == Some(u) && Round(u, expected, 0, c, g) && n <= expected
    ensures From(s, actions) == Some(u') && Round(u', expected, n, c + n, g)
  {
    if n == 0 {
      actions, u' := before, u;
    } else {
      actions, u' := AllResults(s, before, u, expected, n - 1, c, g);
      actions, u' := OneResult(s, actions, u', expected, n - 1, c + n - 1, g);
    }
  }

  /** Request 1 renders the job, start to end. */
  lemma OneRender(s: State, before: seq<Action>, u: State, expected: nat, c: nat, g: nat)
    returns (actions: seq<Action>, u': State)
    requires From(s, before) == Some(u) && Round(u, expected, expected, c, g)
    ensures From(s, actions) == Some(u') && Round(u', expected, 0, c, g + 1)
    ensures u'.job.status == Completed
  {
    RangeSize(expected);
    assert |u.job.tiles| == |u.job.tiles.Keys|;
    actions, u' := RenderRun(s, before, u, 1);
    actions, u' := AttemptsRun(s, actions, u', 1, {});
    actions, u' := BlobsRun(s, actions, u', 1);
  }

  /** d times all results and a rendering. */
  lemma {:induction false} Rounds(expected: nat, d: nat) returns (actions: seq<Action>, u: State)
    ensures From(BeginMany(expected), actions) == Some(u) && Round(u, expected, 0, d * expected, d)
    ensures d > 0 ==> u.job.status == Completed
  {
    if d == 0 {
      actions, u := AllWorked(expected, expected);
    } else {
      actions, u := Rounds(expected, d - 1);
      Unfold(d - 1, expected);
      actions, u := AllResults(BeginMany(expected), actions, u, expected, expected, (d - 1) * expected, d - 1);
      actions, u := OneRender(BeginMany(expected), actions, u, expected, d * expected, d - 1);
    }
  }

  /**
   Main result.  The bound on results_count is reached: for every number of tiles and every d there
   is a run with d deletions of the tiles key after which it is (d + 1) * expected_tiles.
   */
  lemma CounterBoundIsReached(expected: nat, d: nat) returns (states: seq<State>, actions: seq<Action>)
    ensures IsRun(states, actions) && states[0].cfg.expected == expected
    ensures TileKeyDeletions(states, actions, |actions|) == d
    ensures states[|actions|].job.resultsCount == (d + 1) * expected
  {
    var u: State;
    actions, u := Rounds(expected, d);
    Unfold(d, expected);
    actions, u := AllResults(BeginMany(expected), actions, u, expected, expected, d * expected, d);
    states := FromIsARun(BeginMany(expected), actions);
    GenerationsAreDeletions(states, actions, |actions|);
  }

  /** results_count never passes expected_tiles in any run with d deletions of the tiles key. */
  ghost predicate CounterLimitHolds(expected: nat, d: nat) {
    forall states: seq<State>, actions: seq<Action> ::
      IsRun(states, actions) && states[0].cfg.expected == expected && TileKeyDeletions(states, actions, |actions|) == d
      ==> states[|actions|].job.resultsCount <= expected
  }

  /** Main result.  It does not, exactly when d is 0. */
  lemma CounterLimitExactly(expected: nat, d: nat)
    requires expected > 0
    ensures CounterLimitHolds(expected, d) <==> d == 0
  {
    if d == 0 {
      forall states: seq<State>, actions: seq<Action>
        | IsRun(states, actions) && states[0].cfg.expected == expected && TileKeyDeletions(states, actions, |actions|) == d
        ensures states[|actions|].job.resultsCount <= expected
      {
        CounterIsBounded(states, actions, |actions|);
        TicketedRun(states, actions, |actions|);
      }
    } else {
      var states, actions := CounterBoundIsReached(expected, d);
      Unfold(d, expected);
      Unfold(d - 1, expected);
    }
  }

  /**
   For every number of tiles a job can be rendered in the normal course of things: the case that
   TileAccounting.RenderedJobsKeepTheirCount is about occurs.
   */
  lemma RenderedJobsExist(expected: nat) returns (states: seq<State>, actions: seq<Action>)
    ensures IsRun(states, actions) && states[0].cfg.expected == expected
    ensures TileKeyDeletions(states, actions, |actions|) == 1
    ensures var job := states[|actions|].job;
            job.status == Completed && job.resultsCount == expected && job.tiles == map[]
  {
    var u: State;
    actions, u := Rounds(expected, 1);
    states := FromIsARun(BeginMany(expected), actions);
    GenerationsAreDeletions(states, actions, |actions|);
    assert u.job.tiles.Keys == {};
  }
}
