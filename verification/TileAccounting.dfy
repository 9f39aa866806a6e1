/**
 Where every first delivery goes: into results_count, to a consumer that has still to count it,
 or lost for good to a crash or to an HSET that was sent twice.
 */
module TileAccounting {
  import opened Collections
  import opened JobRecords
  import opened TileProtocol
  import opened TileSafety
  import opened TileCounters

  /** The consumers between the HSET that created a field and the HINCRBY. */
  function InBetween(s: State): set<ProcId> {
    set p | p in s.procs && Owed(s.procs[p]).Some?
  }

  /** The tile that a process is about to store is not held. */
  predicate StoresNew(s: State, p: ProcId) {
    Pc(s, p).Storing? && IsNewTile(s.job, Pc(s, p).t)
  }

  /** A first delivery is stored. */
  predicate Creates(s: State, a: Action) {
    (a.Step? || a.Resend?) && StoresNew(s, a.p)
  }

  predicate CountsIn(s: State, a: Action) {
    a.Step? && Pc(s, a.p).Counting?
  }

  /** A first delivery is lost to the counter: its consumer crashes, or the HSET that stored it timed out and is sent again. */
  predicate Forgets(s: State, a: Action) {
    || (a.Crash? && Owed(Pc(s, a.p)).Some?)
    || (a.Resend? && StoresNew(s, a.p))
  }

  function Uncounted(states: seq<State>, actions: seq<Action>, i: nat): nat
    requires i <= |actions| && |states| == |actions| + 1
  {
    if i == 0 then 0 else Uncounted(states, actions, i - 1) + if Forgets(states[i - 1], actions[i - 1]) then 1 else 0
  }

  lemma CreatedSet(s: State, a: Action)
    requires Enabled(s, a)
    ensures Apply(s, a).hist.created ==
              if Creates(s, a) then s.hist.created + {(s.hist.gen, Pc(s, a.p).t)} else s.hist.created
  {
  }

  lemma ResultsStep(s: State, a: Action)
    requires Enabled(s, a)
    ensures Apply(s, a).job.resultsCount == s.job.resultsCount + if CountsIn(s, a) then 1 else 0
  {
  }

  /** A field that HSET creates was not created before in this lifetime of the key. */
  lemma CreatedStep(s: State, a: Action)
    requires Counted(s) && Enabled(s, a)
    ensures |Apply(s, a).hist.created| == |s.hist.created| + if Creates(s, a) then 1 else 0
  {
    CreatedSet(s, a);
    if Creates(s, a) {
      assert (s.hist.gen, Pc(s, a.p).t) !in s.hist.created;
    }
  }

  lemma InBetweenMoves(s: State, s': State, p: ProcId, pc: Proc)
    requires s'.procs == s.procs[p := pc]
    ensures |InBetween(s')| == |InBetween(s)| + (if Owed(pc).Some? then 1 else 0) - (if Owed(Pc(s, p)).Some? then 1 else 0)
  {
    if Owed(pc).Some? {
      assert InBetween(s') == InBetween(s) + {p};
    } else {
      assert InBetween(s') == InBetween(s) - {p};
    }
  }

  /** Where a process begins to owe a count, and where it stops. */
  lemma Moves(s: State, a: Action) returns (pc: Proc)
    requires Enabled(s, a) && !a.Dispatch? && !a.Work? && !a.Resend?
    ensures Apply(s, a).procs == s.procs[a.p := pc]
    ensures Owed(pc).Some? <==> Creates(s, a) || (a.Step? && Pc(s, a.p).Pushing?)
    ensures Owed(Pc(s, a.p)).Some? <==> CountsIn(s, a) || Forgets(s, a) || (a.Step? && Pc(s, a.p).Pushing?)
  {
    pc := Apply(s, a).procs[a.p];
  }

  lemma InBetweenStep(s: State, a: Action)
    requires Enabled(s, a)
    ensures |InBetween(Apply(s, a))| == |InBetween(s)| + (if Creates(s, a) then 1 else 0)
                                        - (if CountsIn(s, a) then 1 else 0) - (if Forgets(s, a) then 1 else 0)
  {
    if a.Dispatch? || a.Work? || a.Resend? {
      assert InBetween(Apply(s, a)) == InBetween(s);
    } else {
      var pc := Moves(s, a);
      InBetweenMoves(s, Apply(s, a), a.p, pc);
    }
  }

  /**
   Main result.  In every run, however messages are duplicated and commands resent and wherever
   consumers crash, the first deliveries are the counted ones, those in between, and the lost ones.
   */
  lemma {:induction false} FirstDeliveriesAddUp(states: seq<State>, actions: seq<Action>, i: nat)
    requires IsRun(states, actions) && i < |states|
    ensures |states[i].hist.created| ==
              states[i].job.resultsCount + |InBetween(states[i])| + Uncounted(states, actions, i)
  {
    if i == 0 {
      assert InBetween(states[0]) == {};
    } else {
      FirstDeliveriesAddUp(states, actions, i - 1);
      CountedRun(states, actions, i - 1);
      assert StepAt(states, actions, i - 1);
      CreatedStep(states[i - 1], actions[i - 1]);
      ResultsStep(states[i - 1], actions[i - 1]);
      InBetweenStep(states[i - 1], actions[i - 1]);
    }
  }

  /**
   Main result.  Until /reconstruct deletes the tile state, results_count is the number of distinct
   tiles held exactly when no consumer is in between and no first delivery was lost.
   */
  lemma CounterIsExact(states: seq<State>, actions: seq<Action>, i: nat)
    requires IsRun(states, actions) && i < |states| && NothingDeleted(states, actions, i)
    ensures var s := states[i];
            s.job.resultsCount == |s.job.tiles| <==> InBetween(s) == {} && Uncounted(states, actions, i) == 0
  {
    CountedRun(states, actions, i);
    GenerationZero(states, actions, i);
    FirstDeliveriesAddUp(states, actions, i);
    var s := states[i];
    CreatedSize(s.hist.gen, s.hist.created, s.job.tiles.Keys);
    assert |s.job.tiles| == |s.job.tiles.Keys|;
  }

  // ---------------------------------------------------------------- after one rendering

  /**
   Until the first deletion whoever is about to render or delete has seen enough tiles, and the
   tiles are still there; after it every tile was delivered during the first lifetime of the key.
   */
  ghost predicate FirstLifeFull(s: State) {
    && (s.hist.gen == 0 ==>
          forall p :: p in s.procs && (s.procs[p].Rendering? || s.procs[p].Deleting?) ==> |s.job.tiles| >= s.cfg.expected)
    && (s.hist.gen > 0 ==> forall t :: 0 <= t < s.cfg.expected ==> (0, t) in s.hist.created)
  }

  /** While nothing is deleted, tiles only accumulate. */
  lemma TilesKept(s: State, a: Action)
    requires Enabled(s, a) && Apply(s, a).hist.gen == s.hist.gen
    ensures s.job.tiles.Keys <= Apply(s, a).job.tiles.Keys && Apply(s, a).cfg == s.cfg
  {
  }

  lemma TilesAccumulate(s: State, a: Action)
    requires Enabled(s, a) && Apply(s, a).hist.gen == s.hist.gen
    ensures |Apply(s, a).job.tiles| >= |s.job.tiles| && Apply(s, a).cfg == s.cfg
    ensures s.hist.created <= Apply(s, a).hist.created
  {
    TilesKept(s, a);
    CreatedSet(s, a);
    var tiles, tiles' := s.job.tiles, Apply(s, a).job.tiles;
    SubsetSize(tiles.Keys, tiles'.Keys);
    assert |tiles| == |tiles.Keys| && |tiles'| == |tiles'.Keys|;
  }

  lemma FullBefore(s: State, a: Action)
    requires FirstLifeFull(s) && Enabled(s, a) && Apply(s, a).hist.gen == s.hist.gen
    ensures FirstLifeFull(Apply(s, a))
  {
    var s' := Apply(s, a);
    TilesAccumulate(s, a);
    if s'.hist.gen == 0 {
      forall p | p in s'.procs && (s'.procs[p].Rendering? || s'.procs[p].Deleting?)
        ensures |s'.job.tiles| >= s'.cfg.expected
      {
        NewRenderer(s, a, p);
      }
    }
  }

  lemma NewRenderer(s: State, a: Action, p: ProcId)
    requires Enabled(s, a) && p in Apply(s, a).procs
    requires Apply(s, a).procs[p].Rendering? || Apply(s, a).procs[p].Deleting?
    ensures || (p in s.procs && (s.procs[p].Rendering? || s.procs[p].Deleting?))
            || |s.job.tiles| >= s.cfg.expected
  {
  }

  lemma DeletingStep(s: State, a: Action)
    requires Enabled(s, a) && Apply(s, a).hist.gen != s.hist.gen
    ensures !a.Dispatch? && !a.Work? && Pc(s, a.p).Deleting?
    ensures Apply(s, a).hist.gen == s.hist.gen + 1
    ensures Apply(s, a).hist.created == s.hist.created && Apply(s, a).cfg == s.cfg
  {
  }

  lemma HeldAreCreated(s: State)
    requires Counted(s) && Safe(s) && s.hist.gen == 0 && |s.job.tiles| >= s.cfg.expected
    ensures forall t :: 0 <= t < s.cfg.expected ==> (0, t) in s.hist.created
  {
    assert |s.job.tiles| == |s.job.tiles.Keys|;
    Pigeonhole(s.job.tiles.Keys, s.cfg.expected);
    forall t | 0 <= t < s.cfg.expected
      ensures (0, t) in s.hist.created
    {
      assert t in s.job.tiles;
    }
  }

  /** The first deletion finds every tile. */
  lemma FullAtDeletion(s: State, a: Action)
    requires FirstLifeFull(s) && Counted(s) && Safe(s) && Enabled(s, a) && Apply(s, a).hist.gen != s.hist.gen
    ensures FirstLifeFull(Apply(s, a))
  {
    DeletingStep(s, a);
    if s.hist.gen == 0 {
      HeldAreCreated(s);
    }
  }

  lemma {:induction false} FullRun(states: seq<State>, actions: seq<Action>, i: nat)
    requires IsRun(states, actions) && i < |states|
    ensures FirstLifeFull(states[i])
  {
    if i > 0 {
      FullRun(states, actions, i - 1);
      CountedRun(states, actions, i - 1);
      SafeRun(states, actions, i - 1);
      assert StepAt(states, actions, i - 1);
      if states[i].hist.gen == states[i - 1].hist.gen {
        FullBefore(states[i - 1], actions[i - 1]);
      } else {
        FullAtDeletion(states[i - 1], actions[i - 1]);
      }
    }
  }

  /** With one deletion: every tile once in the first lifetime, and the tiles held in the second. */
  lemma TwoLives(s: State)
    requires Counted(s) && Safe(s) && FirstLifeFull(s) && s.hist.gen == 1
    requires forall key :: key in s.hist.created ==> key.1 in s.hist.stored
    ensures |s.hist.created| == s.cfg.expected + |s.job.tiles|
  {
    var first := GridRow(0, s.cfg.expected);
    var second := s.hist.created - first;
    assert first <= s.hist.created;
    assert s.hist.created == first + second;
    forall key | key in second
      ensures key.0 == 1 && key.1 in s.job.tiles.Keys
    {
      assert key.1 in Range(s.cfg.expected);
    }
    CreatedSize(1, second, s.job.tiles.Keys);
    assert |s.job.tiles| == |s.job.tiles.Keys|;
  }

  /**
   Main result.  In every run in which the tiles key was deleted once, results_count still counts
   every tile of the first lifetime of the key, and those of the second, less what is in between or
   lost.
   */
  lemma RenderedJobsAddUp(states: seq<State>, actions: seq<Action>, i: nat)
    requires IsRun(states, actions) && i < |states| && TileKeyDeletions(states, actions, i) == 1
    ensures var s := states[i];
            s.job.resultsCount + |InBetween(s)| + Uncounted(states, actions, i) == s.cfg.expected + |s.job.tiles|
  {
    CountedRun(states, actions, i);
    SafeRun(states, actions, i);
    FullRun(states, actions, i);
    CreatedAreStored(states, actions, i);
    GenerationsAreDeletions(states, actions, i);
    FirstDeliveriesAddUp(states, actions, i);
    TwoLives(states[i]);
  }

  /**
   So a job that was rendered once, and of which no result has been stored since, ends with
   results_count at expected_tiles exactly when no first delivery was lost and none is still to be
   counted; it holds no tile.
   */
  lemma RenderedJobsKeepTheirCount(states: seq<State>, actions: seq<Action>, i: nat)
    requires IsRun(states, actions) && i < |states| && TileKeyDeletions(states, actions, i) == 1
    requires states[i].job.tiles == map[]
    ensures states[i].job.resultsCount == states[i].cfg.expected <==>
              InBetween(states[i]) == {} && Uncounted(states, actions, i) == 0
  {
    RenderedJobsAddUp(states, actions, i);
  }

  // ---------------------------------------------------------------- lost for good

  /** The first delivery that such an action loses. */
  function LostKey(s: State, a: Action): (nat, TileId)
    requires Forgets(s, a)
  {
    if a.Crash? then Owed(Pc(s, a.p)).value else (s.hist.gen, Pc(s, a.p).t)
  }

  ghost predicate NobodyOwes(s: State, key: (nat, TileId)) {
    && key in s.hist.created && key !in s.hist.counted
    && forall p :: p in s.procs ==> Owed(s.procs[p]) != Some(key)
  }

  lemma LostNow(s: State, a: Action)
    requires Counted(s) && Enabled(s, a) && Forgets(s, a)
    ensures NobodyOwes(Apply(s, a), LostKey(s, a))
  {
    var key, s' := LostKey(s, a), Apply(s, a);
    assert OwedFresh(s, Pc(s, a.p));
    forall p | p in s'.procs
      ensures Owed(s'.procs[p]) != Some(key)
    {
      if p in s.procs {
        assert OwedFresh(s, s.procs[p]);
        if a.Crash? && p != a.p { assert Owed(s.procs[a.p]) != Owed(s.procs[p]); }
      }
    }
  }

  lemma StaysLost(s: State, a: Action, key: (nat, TileId))
    requires Counted(s) && Enabled(s, a) && NobodyOwes(s, key)
    ensures NobodyOwes(Apply(s, a), key)
  {
    var s' := Apply(s, a);
    forall p | p in s'.procs
      ensures Owed(s'.procs[p]) != Some(key)
    {
      NotOwed(s, a, key, p);
    }
  }

  /** Nobody comes to owe a first delivery that was made before. */
  lemma NotOwed(s: State, a: Action, key: (nat, TileId), p: ProcId)
    requires Counted(s) && Enabled(s, a) && NobodyOwes(s, key) && p in Apply(s, a).procs
    ensures Owed(Apply(s, a).procs[p]) != Some(key)
  {
    if p in s.procs {
      assert Owed(s.procs[p]) != Some(key);
    }
    OwedMoves(s, a, p);
  }

  /** What a process owes after an action it owed before, or the action created it. */
  lemma OwedMoves(s: State, a: Action, p: ProcId)
    requires Enabled(s, a) && p in Apply(s, a).procs
    ensures || Owed(Apply(s, a).procs[p]).None?
            || (p in s.procs && Owed(Apply(s, a).procs[p]) == Owed(s.procs[p]))
            || (Creates(s, a) && Owed(Apply(s, a).procs[p]) == Some((s.hist.gen, Pc(s, a.p).t)))
  {
  }

  /**
   Main result.  What is lost stays lost: a first delivery whose consumer crashes before the HINCRBY,
   or whose HSET is sent again after a timeout, is in results_count at no later point of the run,
   whatever is redelivered.
   */
  lemma {:induction false} LostForGood(states: seq<State>, actions: seq<Action>, k: nat, j: nat)
    requires IsRun(states, actions) && k < j < |states| && Forgets(states[k], actions[k])
    ensures LostKey(states[k], actions[k]) in states[j].hist.created
    ensures LostKey(states[k], actions[k]) !in states[j].hist.counted
    ensures NobodyOwes(states[j], LostKey(states[k], actions[k]))
  {
    CountedRun(states, actions, j - 1);
    assert StepAt(states, actions, j - 1);
    if j == k + 1 {
      LostNow(states[k], actions[k]);
    } else {
      LostForGood(states, actions, k, j - 1);
      StaysLost(states[j - 1], actions[j - 1], LostKey(states[k], actions[k]));
    }
  }

  lemma NeverPushed(s: State, a: Action, key: (nat, TileId))
    requires Enabled(s, a) && NobodyOwes(s, key) && key !in s.hist.pushed
    ensures key !in Apply(s, a).hist.pushed
  {
    if a.Step? && Pc(s, a.p).Pushing? {
      assert Owed(s.procs[a.p]) != Some(key);
    }
  }

  lemma {:induction false} UnpushedRun(states: seq<State>, actions: seq<Action>, k: nat, j: nat)
    requires IsRun(states, actions) && k < j < |states| && actions[k].Resend? && Forgets(states[k], actions[k])
    ensures LostKey(states[k], actions[k]) !in states[j].hist.pushed
  {
    CountedRun(states, actions, k);
    assert StepAt(states, actions, j - 1);
    if k < j - 1 {
      UnpushedRun(states, actions, k, j - 1);
      LostForGood(states, actions, k, j - 1);
      NeverPushed(states[j - 1], actions[j - 1], LostKey(states[k], actions[k]));
    }
  }

  /**
   A consumer whose HSET of a new tile is sent twice takes the reply for an overwrite and goes
   straight on to HLEN; at no later point of the run is that first delivery in the latency list or
   in results_count.
   */
  lemma ResentStoreSkipsTheCount(states: seq<State>, actions: seq<Action>, k: nat, j: nat, p: ProcId)
    requires IsRun(states, actions) && k + 1 < j < |states| && StoresNew(states[k], p)
    requires actions[k].Resend? && actions[k].p == p && actions[k + 1].Step? && actions[k + 1].p == p
    ensures Pc(states[k + 2], p).Measuring?
    ensures var key := (states[k].hist.gen, Pc(states[k], p).t);
            key in states[j].hist.created && key !in states[j].hist.pushed && key !in states[j].hist.counted
  {
    assert StepAt(states, actions, k) && StepAt(states, actions, k + 1);
    UnpushedRun(states, actions, k, j);
    LostForGood(states, actions, k, j);
  }
}
