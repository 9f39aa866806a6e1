/**
 Why TileConvergence.NextSweepDecides speaks of the moment at which the sweep reads the abandoned
 set: exactly when a sweep that is late in this way retries tiles, and a run in which a sweep that passes the grace check when enough sweeps have completed requeues
 a tile, because a /reconstruct emptied that set under it.
 */
module TileLateSweep {
  import opened Collections
  import opened JobRecords
  import opened TileProtocol
  import opened TileCode
  import opened TileConvergence
  import opened TileWitnesses

  // ---------------------------------------------------------------- when such a sweep retries

  /** p reads the abandoned set late, and finds an id outstanding against its two reads. */
  predicate MissesLate(s: State, a: Action, p: ProcId) {
    ReadsLate(s, a, p) && Outstanding(s.cfg.expected, Pc(s, p).received, s.job.abandoned) != []
  }

  ghost predicate MissedLate(states: seq<State>, actions: seq<Action>, i: nat, j: nat, p: ProcId)
    requires i <= j <= |actions| && |states| == |actions| + 1
  {
    exists k :: i <= k < j && MissesLate(states[k], actions[k], p)
  }

  /** Between i and j process p is in the loop over retryable tiles. */
  ghost predicate Retries(states: seq<State>, i: nat, j: nat, p: ProcId)
    requires i <= j < |states|
  {
    exists m :: i <= m <= j && InLoop(Pc(states[m], p))
  }

  /** The only way into the loop. */
  lemma IntoTheLoop(s: State, a: Action, p: ProcId)
    requires Enabled(s, a) && !InLoop(Pc(s, p)) && InLoop(Pc(Apply(s, a), p))
    ensures a.Step? && a.p == p && Pc(s, p).ReadingAbandoned?
    ensures Outstanding(s.cfg.expected, Pc(s, p).received, s.job.abandoned) != []
  {
  }

  lemma {:induction false} LoopMeansMissed(states: seq<State>, actions: seq<Action>, i: nat, m: nat, p: ProcId)
    requires IsRun(states, actions) && i <= m < |states| && Ripe(states, actions, i) && OneSweep(states, actions, i, m, p)
    requires InLoop(Pc(states[m], p))
    ensures MissedLate(states, actions, i, m, p)
    decreases m
  {
    var s, a := states[m - 1], actions[m - 1];
    if InLoop(Pc(s, p)) {
      LoopMeansMissed(states, actions, i, m - 1, p);
    } else {
      assert StepAt(states, actions, m - 1);
      IntoTheLoop(s, a, p);
      SweepDecides(states, actions, i, m - 1, p);
      NothingToRetry(s.cfg.expected, Pc(s, p).received, s.job.abandoned);
      assert MissesLate(s, a, p);
    }
  }

  /**
   Main result.  A sweep that passes the grace check once enough sweeps have completed, and is not
   crashed, retries tiles exactly when it reads the abandoned set after the job has left
   `processing` and an id is then in neither of the two sets that it has read.
   */
  lemma LateSweepRetriesExactly(states: seq<State>, actions: seq<Action>, i: nat, j: nat, p: ProcId)
    requires IsRun(states, actions) && i <= j < |states| && Ripe(states, actions, i) && OneSweep(states, actions, i, j, p)
    ensures Retries(states, i, j, p) <==> MissedLate(states, actions, i, j, p)
  {
    if Retries(states, i, j, p) {
      SomeRetry(states, actions, i, j, p);
    }
    if MissedLate(states, actions, i, j, p) {
      var k :| i <= k < j && MissesLate(states[k], actions[k], p);
      IntoTheLoopNext(states, actions, k, p);
    }
  }

  lemma SomeRetry(states: seq<State>, actions: seq<Action>, i: nat, j: nat, p: ProcId)
    requires IsRun(states, actions) && i <= j < |states| && Ripe(states, actions, i) && OneSweep(states, actions, i, j, p)
    requires Retries(states, i, j, p)
    ensures MissedLate(states, actions, i, j, p)
  {
    var m :| i <= m <= j && InLoop(Pc(states[m], p));
    LoopMeansMissed(states, actions, i, m, p);
  }

  lemma IntoTheLoopNext(states: seq<State>, actions: seq<Action>, k: nat, p: ProcId)
    requires IsRun(states, actions) && k < |actions| && MissesLate(states[k], actions[k], p)
    ensures InLoop(Pc(states[k + 1], p))
  {
    assert StepAt(states, actions, k);
  }

  // ---------------------------------------------------------------- a run in which it does

  /** Two sweeps of process 1 have completed; the second gave the tile up. */
  lemma TwoSweeps() returns (actions: seq<Action>, u: State)
    ensures From(Begin(2), actions) == Some(u)
    ensures u.cfg == Begin(2).cfg && u.tasks == {0} && u.blobs == {0} && u.results == {(0, INFO)}
    ensures u.job.status == Processing && u.job.tiles == map[] && u.procs == map[1 := Idle]
    ensures |u.hist.done| == 2
  {
    var s := Begin(2);
    actions, u := Processed(2);
    actions, u := Started(s, actions, u, 1);
    actions, u := Requeued(s, actions, u, 1, 0);
    actions, u := FinishRun(s, actions, u, 1, 0.0);
    assert u.hist.done == {0} && u.hist.nextSweep == 1;
    actions, u := Started(s, actions, u, 1);
    assert [0][1..] == [];
    actions, u := IncrRun(s, actions, u, 1);
    actions, u := GiveUpRun(s, actions, u, 1);
    actions, u := FinishRun(s, actions, u, 1, 0.0);
    assert u.hist.done == {0, 1};
    assert u.procs == map[1 := Idle];
  }

  /**
   The third sweep has seen the job `processing` and is about to read the tiles, when a late result
   completes the job and request 3 renders it, which deletes everything kept per tile.
   */
  lemma ThirdBegins() returns (actions: seq<Action>, u: State)
    ensures From(Begin(2), actions) == Some(u)
    ensures u.cfg == Begin(2).cfg && u.blobs == {0} && 1 in u.procs && u.procs[1].ReadingTiles?
    ensures u.job.tiles == map[] && u.job.abandoned == {} && Attempts(u.job, 0) == 0 && |u.hist.done| == 2
  {
    var s := Begin(2);
    actions, u := TwoSweeps();
    actions, u := ClockRun(s, actions, u, 1);
    actions, u := Stored(s, actions, u, 2);
    assert |u.job.tiles| == 1;
    actions, u := RenderRun(s, actions, u, 3);
    actions, u := AttemptsRun(s, actions, u, 3, {0});
  }

  /** All along the actions p is at work and not crashed. */
  ghost predicate AtWork(s: State, actions: seq<Action>, p: ProcId) {
    forall k :: 0 <= k < |actions| ==>
      && From(s, actions[..k]).Some? && !Pc(From(s, actions[..k]).value, p).Idle? && actions[k] != Crash(p)
  }

  lemma GoOn(s: State, actions: seq<Action>, u: State, a: Action, p: ProcId) returns (longer: seq<Action>, u': State)
    requires From(s, actions) == Some(u) && Enabled(u, a) && AtWork(s, actions, p)
    requires !Pc(u, p).Idle? && a != Crash(p)
    ensures u' == Apply(u, a) && From(s, longer) == Some(u') && AtWork(s, longer, p)
  {
    longer, u' := Take(s, actions, u, a);
    forall k | 0 <= k < |longer|
      ensures From(s, longer[..k]).Some? && !Pc(From(s, longer[..k]).value, p).Idle? && longer[k] != Crash(p)
    {
      assert longer[..k] == if k < |actions| then actions[..k] else actions;
    }
  }

  /** The sweep finds the tile missing and not abandoned, so it retries it. */
  lemma RetriesLate(s: State) returns (actions: seq<Action>, u: State)
    requires s.cfg == Begin(2).cfg && s.blobs == {0} && 1 in s.procs && s.procs[1].ReadingTiles?
    requires s.job.tiles == map[] && s.job.abandoned == {} && Attempts(s.job, 0) == 0
    ensures From(s, actions) == Some(u) && AtWork(s, actions, 1) && Pc(u, 1).Producing?
  {
    assert 0 in Range(s.cfg.expected) && s.job.tiles.Keys == {};
    actions, u := GoOn(s, [], s, Do(1), 1);
    assert u == With(s, 1, s.job, s.hist, ReadingAbandoned({}));
    actions, u := RetriesUnabandoned(s, actions, u);
  }

  lemma RetriesUnabandoned(s: State, before: seq<Action>, u: State) returns (actions: seq<Action>, u': State)
    requires From(s, before) == Some(u) && AtWork(s, before, 1) && u.cfg == Begin(2).cfg && u.blobs == {0}
    requires 1 in u.procs && u.procs[1] == ReadingAbandoned({}) && u.job.abandoned == {} && Attempts(u.job, 0) == 0
    ensures From(s, actions) == Some(u') && AtWork(s, actions, 1) && Pc(u', 1).Producing?
  {
    assert Outstanding(1, {}, {}) == [0];
    actions, u' := GoOn(s, before, u, Do(1), 1);
    assert u' == With(u, 1, u.job, u'.hist, Looping(u.hist.nextSweep, [0]));
    actions, u' := GoOn(s, actions, u', Do(1), 1);
    assert u'.procs[1].Probing? && u'.procs[1].ticket.tile == 0;
    actions, u' := GoOn(s, actions, u', Do(1), 1);
  }

  /** A sweep begins when enough have completed, is not crashed, and produces a task at step j. */
  ghost predicate RequeuesLate(states: seq<State>, actions: seq<Action>, i: nat, j: nat, p: ProcId)
    requires i <= j <= |actions| && IsRun(states, actions)
  {
    Ripe(states, actions, i) && OneSweep(states, actions, i, j, p) && Pc(states[j], p).Producing?
  }

  lemma LateSweepsCanRequeue()
    ensures exists states: seq<State>, actions: seq<Action>, i: nat, j: nat ::
              i <= j <= |actions| && IsRun(states, actions) && RequeuesLate(states, actions, i, j, 1)
  {
    var before, u := ThirdBegins();
    var more, v := RetriesLate(u);
    Together(before, u, more, v);
  }

  lemma Together(before: seq<Action>, u: State, more: seq<Action>, v: State)
    requires From(Begin(2), before) == Some(u) && From(u, more) == Some(v) && AtWork(u, more, 1)
    requires Pc(u, 1).ReadingTiles? && |u.hist.done| == 2 && u.cfg.maxAttempts == 2 && Pc(v, 1).Producing?
    ensures exists states: seq<State>, actions: seq<Action>, i: nat, j: nat ::
              i <= j <= |actions| && IsRun(states, actions) && RequeuesLate(states, actions, i, j, 1)
  {
    var actions := before + more;
    FromAppend(Begin(2), before, u, more);
    var states := FromIsARun(Begin(2), actions);
    var i, j := |before|, |actions|;
    assert actions[..i] == before && actions[..j] == actions;
    DoneCountsSweeps(states, actions, i);
    forall k | i <= k < j
      ensures !Pc(states[k], 1).Idle? && actions[k] != Crash(1)
    {
      assert actions[..k] == before + more[..k - i];
      FromAppend(Begin(2), before, u, more[..k - i]);
    }
    assert RequeuesLate(states, actions, i, j, 1);
  }
}
