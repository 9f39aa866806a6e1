/**
 results_count and the latency list against the tiles actually held, in every run of TileProtocol.
 */
module TileCounters {
  import opened Collections
  import opened JobRecords
  import opened TileProtocol
  import opened TileSafety

  /** The first delivery a consumer is still accounting for. */
  function Owed(pc: Proc): Option<(nat, TileId)>
  {
    match pc
    case Pushing(key, _) => Some(key)
    case Counting(key) => Some(key)
    case _ => None
  }

  ghost predicate OwedFresh(s: State, pc: Proc)
  {
    match pc
    case Pushing(key, _) => key in s.hist.created && key !in s.hist.pushed
    case Counting(key) => key in s.hist.pushed && key !in s.hist.counted
    case _ => true
  }

  ghost predicate Counted(s: State)
  {
    && s.hist.counted <= s.hist.pushed <= s.hist.created
    && s.job.resultsCount == |s.hist.counted|
    && (forall t :: t in s.job.tiles ==> (s.hist.gen, t) in s.hist.created)
    && (forall key :: key in s.hist.created ==>
          key.0 <= s.hist.gen && (key.0 == s.hist.gen ==> key.1 in s.job.tiles))
    && (s.hist.gen == 0 ==> |s.job.latencies| == |s.hist.pushed|)
    && (forall p :: p in s.procs ==> OwedFresh(s, s.procs[p]))
    && (forall p, q :: p in s.procs && q in s.procs && p != q ==>
          Owed(s.procs[p]).None? || Owed(s.procs[p]) != Owed(s.procs[q]))
  }

  /** Commands that touch neither the counters nor the tiles leave the invariant alone. */
  lemma CountedFrame(s: State, s': State)
    requires Counted(s)
    requires s'.procs == s.procs
    requires s'.job.tiles.Keys == s.job.tiles.Keys && s'.job.latencies == s.job.latencies
    requires s'.job.resultsCount == s.job.resultsCount
    requires s'.hist.created == s.hist.created && s'.hist.pushed == s.hist.pushed
    requires s'.hist.counted == s.hist.counted && s'.hist.gen == s.hist.gen
    ensures Counted(s')
  {
    assert forall t :: t in s'.job.tiles <==> t in s.job.tiles.Keys;
  }

  lemma CountedGoto(s: State, p: ProcId, pc: Proc)
    requires Counted(s) && OwedFresh(s, pc)
    requires Owed(pc).None? || forall q :: q in s.procs && q != p ==> Owed(s.procs[q]) != Owed(pc)
    ensures Counted(Goto(s, p, pc))
  {
  }

  /** HSET: the new key is owed by nobody, because owed keys were created before. */
  lemma CountedStoring(s: State, p: ProcId, pc: Proc)
    requires Counted(s) && pc.Storing?
    ensures Counted(Effect(s, pc, {}))
    ensures Counted(Goto(Effect(s, pc, {}), p, Successor(s, pc, true)))
  {
    var s' := Effect(s, pc, {});
    assert Counted(s');
    CountedGoto(s', p, Successor(s, pc, true));
  }

  lemma CountedPushing(s: State, p: ProcId)
    requires Counted(s) && Pc(s, p).Pushing?
    ensures Counted(Goto(Effect(s, Pc(s, p), {}), p, Counting(Pc(s, p).key)))
  {
    var pc := Pc(s, p);
    var s' := Goto(Effect(s, pc, {}), p, Counting(pc.key));
    forall q | q in s'.procs ensures OwedFresh(s', s'.procs[q]) {
      if q != p { assert Owed(s.procs[p]).None? || Owed(s.procs[p]) != Owed(s.procs[q]); }
    }
  }

  lemma CountedCounting(s: State, p: ProcId)
    requires Counted(s) && Pc(s, p).Counting?
    ensures Counted(Goto(Effect(s, Pc(s, p), {}), p, Measuring))
  {
    var pc := Pc(s, p);
    var s' := Goto(Effect(s, pc, {}), p, Measuring);
    forall q | q in s'.procs ensures OwedFresh(s', s'.procs[q]) {
      if q != p { assert Owed(s.procs[p]).None? || Owed(s.procs[p]) != Owed(s.procs[q]); }
    }
  }

  lemma CountedDeleting(s: State)
    requires Counted(s)
    ensures Counted(Effect(s, Deleting, {}))
  {
    var s' := Effect(s, Deleting, {});
    forall p | p in s'.procs ensures OwedFresh(s', s'.procs[p]) {
      assert OwedFresh(s, s.procs[p]);
    }
  }

  lemma CountedOther(s: State, pc: Proc, picked: set<TileId>)
    requires Counted(s)
    requires !pc.Storing? && !pc.Pushing? && !pc.Counting?
    ensures Counted(Effect(s, pc, picked))
  {
    if pc.Deleting? {
      CountedDeleting(s);
    } else {
      CountedFrame(s, Effect(s, pc, picked));
    }
  }

  lemma CountedReaperLoop(s: State, p: ProcId, pc: Proc, yes: bool, when: real)
    requires Counted(s)
    requires pc.Looping? || pc.Probing? || pc.Producing? || pc.Abandoning?
    ensures Counted(ReaperLoop(s, p, pc, yes, when))
  {
    var s' := ReaperLoop(s, p, pc, yes, when);
    CountedFrame(s, s'.(procs := s.procs));
    CountedGoto(s'.(procs := s.procs), p, s'.procs[p]);
    assert s' == Goto(s'.(procs := s.procs), p, s'.procs[p]);
  }

  lemma CountedApply(s: State, a: Action)
    requires Counted(s) && Enabled(s, a)
    ensures Counted(Apply(s, a))
  {
    match a
    case Dispatch(_) => CountedFrame(s, Apply(s, a));
    case Work(_, _) => CountedFrame(s, Apply(s, a));
    case Crash(p) => CountedGoto(s, p, Idle);
    case Receive(p, t, info, seconds) => CountedGoto(s, p, Storing(t, info, seconds));
    case Reap(p) => CountedGoto(s, p, ReadingClock);
    case Reconstruct(p) => CountedGoto(s, p, CountingTiles);
    case Resend(p, picked) =>
      if Pc(s, p).Storing? { CountedStoring(s, p, Pc(s, p)); } else { CountedOther(s, Pc(s, p), picked); }
    case Step(_, _, _, _) => CountedStep(s, a);
  }

  lemma CountedStep(s: State, a: Action)
    requires Counted(s) && Enabled(s, a) && a.Step?
    ensures Counted(Apply(s, a))
  {
    var p, yes, picked, when := a.p, a.yes, a.picked, a.when;
    var pc := Pc(s, p);
    if pc.Looping? || pc.Probing? || pc.Producing? || pc.Abandoning? {
      CountedReaperLoop(s, p, pc, yes, when);
    } else if pc.Storing? {
      CountedStoring(s, p, pc);
    } else if pc.Pushing? {
      CountedPushing(s, p);
    } else if pc.Counting? {
      CountedCounting(s, p);
    } else {
      CountedOther(s, pc, picked);
      CountedGoto(Effect(s, pc, picked), p, Successor(s, pc, yes));
    }
  }

  lemma {:induction false} CountedRun(states: seq<State>, actions: seq<Action>, i: nat)
    requires IsRun(states, actions) && i < |states|
    ensures Counted(states[i])
  {
    if i > 0 {
      CountedRun(states, actions, i - 1);
      assert StepAt(states, actions, i - 1);
      CountedApply(states[i - 1], actions[i - 1]);
    }
  }

  /** No /reconstruct has deleted the tiles key during the first i actions. */
  ghost predicate NothingDeleted(states: seq<State>, actions: seq<Action>, i: nat)
    requires IsRun(states, actions) && i <= |actions|
  {
    forall j :: 0 <= j < i ==>
      !((actions[j].Step? || actions[j].Resend?) && Pc(states[j], actions[j].p).Deleting?)
  }

  lemma {:induction false} GenerationZero(states: seq<State>, actions: seq<Action>, i: nat)
    requires IsRun(states, actions) && i < |states|
    requires NothingDeleted(states, actions, i)
    ensures states[i].hist.gen == 0
  {
    if i > 0 {
      GenerationZero(states, actions, i - 1);
      assert StepAt(states, actions, i - 1);
    }
  }

  /**
   Main result.  However messages are duplicated and wherever consumers stop, until /reconstruct
   deletes the tile state the counter never passes the latency samples, nor those the distinct
   tiles held, nor those expected_tiles.
   */
  lemma CountersNeverPassTiles(states: seq<State>, actions: seq<Action>, i: nat)
    requires IsRun(states, actions) && i < |states|
    requires NothingDeleted(states, actions, i)
    ensures var job := states[i].job;
            0 <= job.resultsCount <= |job.latencies| <= |job.tiles| <= states[i].cfg.expected
  {
    CountedRun(states, actions, i);
    HeldAtMostExpected(states, actions, i);
    GenerationZero(states, actions, i);
    var s := states[i];
    SubsetSize(s.hist.counted, s.hist.pushed);
    SubsetSize(s.hist.pushed, s.hist.created);
    CreatedSize(s.hist.gen, s.hist.created, s.job.tiles.Keys);
  }

  lemma {:induction false} CreatedSize(gen: nat, created: set<(nat, TileId)>, tiles: set<TileId>)
    requires forall key :: key in created ==> key.0 == gen && key.1 in tiles
    requires forall t :: t in tiles ==> (gen, t) in created
    ensures |created| == |tiles|
    decreases |created|
  {
    if created == {} {
      assert tiles == {} by {
        assert forall t :: t in tiles ==> (gen, t) in created;
      }
    } else {
      var key :| key in created;
      assert key == (gen, key.1);
      CreatedSize(gen, created - {key}, tiles - {key.1});
    }
  }

  lemma HeldAtMostExpected(states: seq<State>, actions: seq<Action>, i: nat)
    requires IsRun(states, actions) && i < |states|
    ensures |states[i].job.tiles| <= states[i].cfg.expected
  {
    SafeRun(states, actions, i);
    var s := states[i];
    assert |s.job.tiles| == |s.job.tiles.Keys|;
    Pigeonhole(s.job.tiles.Keys, s.cfg.expected);
  }

  // ---------------------------------------------------------------- with deletions

  /** How often a /reconstruct deleted the tiles key during the first i actions. */
  function TileKeyDeletions(states: seq<State>, actions: seq<Action>, i: nat): nat
    requires i <= |actions| && |states| == |actions| + 1
  {
    if i == 0 then 0
    else
      var a := actions[i - 1];
      TileKeyDeletions(states, actions, i - 1) +
      if (a.Step? || a.Resend?) && Pc(states[i - 1], a.p).Deleting? then 1 else 0
  }

  lemma {:induction false} GenerationsAreDeletions(states: seq<State>, actions: seq<Action>, i: nat)
    requires IsRun(states, actions) && i < |states|
    ensures states[i].hist.gen == TileKeyDeletions(states, actions, i)
  {
    if i > 0 {
      GenerationsAreDeletions(states, actions, i - 1);
      assert StepAt(states, actions, i - 1);
    }
  }

  lemma {:induction false} CreatedAreStored(states: seq<State>, actions: seq<Action>, i: nat)
    requires IsRun(states, actions) && i < |states|
    ensures forall key :: key in states[i].hist.created ==> key.1 in states[i].hist.stored
  {
    if i > 0 {
      CreatedAreStored(states, actions, i - 1);
      assert StepAt(states, actions, i - 1);
    }
  }

  /** The ids below n, each in the generations 0..gens-1. */
  function Grid(gens: nat, n: nat): (r: set<(nat, TileId)>)
    ensures forall key :: key in r <==> key.0 < gens && 0 <= key.1 < n
    ensures |r| == gens * n
  {
    if gens == 0 then {}
    else
      var older, last := Grid(gens - 1, n), GridRow(gens - 1, n);
      assert older !! last;
      older + last
  }

  function GridRow(gen: nat, n: nat): (r: set<(nat, TileId)>)
    ensures forall key :: key in r <==> key.0 == gen && 0 <= key.1 < n
    ensures |r| == n
  {
    if n == 0 then {} else GridRow(gen, n - 1) + {(gen, n - 1)}
  }

  /**
   Main result.  delete_job_tile_state keeps results_count, so every deletion of the tiles key lets
   it count each tile once more, and no more than that.
   */
  lemma CounterIsBounded(states: seq<State>, actions: seq<Action>, i: nat)
    requires IsRun(states, actions) && i < |states|
    ensures states[i].job.resultsCount <= (TileKeyDeletions(states, actions, i) + 1) * states[i].cfg.expected
  {
    CountedRun(states, actions, i);
    CreatedAreStored(states, actions, i);
    GenerationsAreDeletions(states, actions, i);
    SafeRun(states, actions, i);
    var s := states[i];
    var grid := Grid(s.hist.gen + 1, s.cfg.expected);
    assert forall key :: key in s.hist.created ==> key.1 in Range(s.cfg.expected);
    SubsetSize(s.hist.created, grid);
    SubsetSize(s.hist.counted, s.hist.created);
  }
}
