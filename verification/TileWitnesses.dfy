/**
 Runs of TileProtocol that show where the guarantees of the Tile modules end.  Each is about a job
 with a single tile.
 */
module TileWitnesses {
  import opened Collections
  import opened JobRecords
  import opened TileProtocol
  import opened TileCode
  import Consumers

  const INFO := TileInfo("", 0, 0, 1, 1)

  function Begin(maxAttempts: int): State {
    State(Config(1, maxAttempts, false),
          NO_JOB.(meta := Some(Meta("grayscale", 1, 1, Some(1), 1, 0.0)), status := Processing),
          {}, {}, {}, map[], NO_HISTORY)
  }

  /** The tile is dispatched and processed. */
  lemma Processed(maxAttempts: int) returns (actions: seq<Action>, u: State)
    ensures From(Begin(maxAttempts), actions) == Some(u)
    ensures u == Begin(maxAttempts).(tasks := {0}, blobs := {0}, results := {(0, INFO)})
  {
    var s := Begin(maxAttempts);
    actions, u := Take(s, [], s, Dispatch(0));
    actions, u := Take(s, actions, u, Work(0, INFO));
  }

  /** Process p receives and stores the first result for the tile. */
  lemma Stored(s: State, before: seq<Action>, u: State, p: ProcId) returns (actions: seq<Action>, u': State)
    requires From(s, before) == Some(u) && Pc(u, p).Idle? && (0, INFO) in u.results && u.job.tiles == map[]
    ensures From(s, actions) == Some(u')
    ensures u' == With(u, p, HSetTile(u.job, 0, INFO), u'.hist, Pushing((u.hist.gen, 0), 0.0))
    ensures u'.hist == u.hist.(stored := u'.hist.stored, created := u'.hist.created)
  {
    actions, u' := ReceiveRun(s, before, u, p, Consumers.Message("", 0, INFO, 0.0));
    actions, u' := StoreRun(s, actions, u', p);
    assert u'.procs == u.procs[p := u'.procs[p]];
  }

  /** Process p starts a sweep and finds the tile missing. */
  lemma Listed(s: State, before: seq<Action>, u: State, p: ProcId) returns (actions: seq<Action>, u': State)
    requires From(s, before) == Some(u) && Pc(u, p).Idle?
    requires u.job.status == Processing && u.cfg.expected == 1 && u.job.tiles == map[]
    ensures From(s, actions) == Some(u')
    ensures u' == With(u, p, u.job, u.hist, ReadingAbandoned({}))
  {
    actions, u' := ClockRun(s, before, u, p);
    assert 0 in Range(u.cfg.expected) && u.job.tiles.Keys == {};
    actions, u' := TilesRun(s, actions, u', p);
    assert u'.procs == u.procs[p := ReadingAbandoned({})];
  }

  /** ... and goes on to retry it. */
  lemma Started(s: State, before: seq<Action>, u: State, p: ProcId) returns (actions: seq<Action>, u': State)
    requires From(s, before) == Some(u) && Pc(u, p).Idle?
    requires u.job.status == Processing && u.cfg.expected == 1 && u.job.tiles == map[] && u.job.abandoned == {}
    ensures From(s, actions) == Some(u')
    ensures u' == With(u, p, u.job, u.hist.(nextSweep := u.hist.nextSweep + 1), Looping(u.hist.nextSweep, [0]))
  {
    actions, u' := Listed(s, before, u, p);
    assert Outstanding(1, {}, {}) == [0];
    actions, u' := ListRun(s, actions, u', p);
    assert u'.procs == u.procs[p := u'.procs[p]];
  }

  /** A sweep about to retry the tile counts the attempt and requeues the tile. */
  lemma Requeued(s: State, before: seq<Action>, u: State, p: ProcId, m: nat) returns (actions: seq<Action>, u': State)
    requires From(s, before) == Some(u) && p in u.procs && u.procs[p].Looping? && u.procs[p].rest == [0]
    requires Attempts(u.job, 0) == m && m + 2 <= u.cfg.maxAttempts && u.blobs == {0} && u.tasks == {0}
    ensures From(s, actions) == Some(u')
    ensures u' == With(u, p, IncrAttempts(u.job, 0), u'.hist, Looping(u.procs[p].sweep, []))
    ensures u'.hist == u.hist.(tickets := u'.hist.tickets, requeued := u.hist.requeued + [Ticket(0, u.hist.resets, m + 1)])
  {
    assert [0][1..] == [];
    actions, u' := IncrRun(s, before, u, p);
    actions, u' := SendRun(s, actions, u', p);
    assert u'.procs == u.procs[p := Looping(u.procs[p].sweep, [])];
    assert u'.tasks == u.tasks;
  }

  // ---------------------------------------------------------------- complete jobs left at `processing`

  /** The places of a consumer between taking a result and writing the status, in order; the first after a timed-out HSET. */
  predicate AtStage(pc: Proc, stage: nat) {
    match stage
    case 0 => pc.Storing?
    case 1 => pc.Pushing?
    case 2 => pc.Counting?
    case 3 => pc.Measuring?
    case 4 => pc.Checking?
    case 5 => pc.Flipping?
    case _ => false
  }

  /** One process, 1, and a complete job. */
  predicate Closing(u: State, stage: nat) {
    && u.cfg.expected == 1 && u.job.status == Processing && u.job.tiles == map[0 := INFO]
    && u.procs.Keys == {1} && AtStage(u.procs[1], stage) && (u.procs[1].Checking? ==> u.procs[1].n == 1)
  }

  lemma {:induction false} Reaches(stage: nat) returns (actions: seq<Action>, u: State)
    requires stage <= 5
    ensures From(Begin(1), actions) == Some(u) && Closing(u, stage)
  {
    var s := Begin(1);
    if stage == 0 {
      actions, u := Processed(1);
      actions, u := ReceiveRun(s, actions, u, 1, Consumers.Message("", 0, INFO, 0.0));
      actions, u := Take(s, actions, u, Resend(1, {}));
    } else if stage == 1 {
      actions, u := Processed(1);
      actions, u := Stored(s, actions, u, 1);
    } else {
      actions, u := Reaches(stage - 1);
      actions, u := NextStage(s, actions, u, stage - 1);
    }
  }

  lemma NextStage(s: State, before: seq<Action>, u: State, stage: nat) returns (actions: seq<Action>, u': State)
    requires From(s, before) == Some(u) && 1 <= stage <= 4 && Closing(u, stage)
    ensures From(s, actions) == Some(u') && Closing(u', stage + 1)
  {
    actions, u' := Take(s, before, u, Do(1));
  }

  /**
   Every crash between taking the last result and writing the status can leave the complete job at
   `processing` with nobody at work: after any of the five commands, and before the first when a
   timed-out HSET had executed.
   */
  lemma CompleteJobsCanStayProcessing(stage: nat)
    requires stage <= 5
    ensures exists states: seq<State>, actions: seq<Action> ::
              && IsRun(states, actions) && actions != []
              && actions[|actions| - 1] == Crash(1) && AtStage(Pc(states[|actions| - 1], 1), stage)
              && var last := states[|actions|];
              && last.job.status == Processing
              && last.job.tiles.Keys == Range(last.cfg.expected) && (forall p :: Pc(last, p).Idle?)
  {
    var before, u := Reaches(stage);
    CrashedThere(before, u, stage);
  }

  lemma CrashedThere(before: seq<Action>, u: State, stage: nat)
    requires From(Begin(1), before) == Some(u) && Closing(u, stage)
    ensures exists states: seq<State>, actions: seq<Action> ::
              && IsRun(states, actions) && actions != []
              && actions[|actions| - 1] == Crash(1) && AtStage(Pc(states[|actions| - 1], 1), stage)
              && var last := states[|actions|];
              && last.job.status == Processing
              && last.job.tiles.Keys == Range(last.cfg.expected) && (forall p :: Pc(last, p).Idle?)
  {
    var actions, u' := Take(Begin(1), before, u, Crash(1));
    var states := FromIsARun(Begin(1), actions);
    assert actions[..|before|] == before && actions[..|actions|] == actions;
    assert u'.procs == map[1 := Idle];
    assert Range(1) == {0};
    assert AtStage(Pc(states[|actions| - 1], 1), stage);
  }

  // ---------------------------------------------------------------- finished statuses overwritten

  /** A sweep gives the tile up at once, because MAX_TILE_ATTEMPTS is 1. */
  lemma GivenUp(s: State, before: seq<Action>, u: State, p: ProcId) returns (actions: seq<Action>, u': State)
    requires From(s, before) == Some(u) && p in u.procs && u.procs[p].Looping? && u.procs[p].rest == [0]
    requires u.cfg.maxAttempts == 1
    ensures From(s, actions) == Some(u')
    ensures u' == With(u, p, u'.job, u'.hist, Idle)
    ensures u'.job == u.job.(attempts := u'.job.attempts, abandoned := u.job.abandoned + {0}, lastReap := 0.0)
  {
    assert [0][1..] == [];
    actions, u' := IncrRun(s, before, u, p);
    actions, u' := GiveUpRun(s, actions, u', p);
    actions, u' := FinishRun(s, actions, u', p, 0.0);
    assert u'.procs == u.procs[p := Idle];
  }

  /** A consumer that has stored the only tile gets past the status check. */
  lemma PastTheCheck(s: State, before: seq<Action>, u: State, p: ProcId) returns (actions: seq<Action>, u': State)
    requires From(s, before) == Some(u) && p in u.procs && u.procs[p].Pushing?
    requires u.job.status == Processing && |u.job.tiles| == 1 && u.cfg.expected == 1
    ensures From(s, actions) == Some(u')
    ensures u' == With(u, p, u'.job, u'.hist, Flipping)
    ensures u'.job == HIncrResults(RPushLatency(u.job, u.procs[p].seconds))
  {
    actions, u' := CountRun(s, before, u, p);
    actions, u' := CheckRun(s, actions, u', p);
    assert u'.procs == u.procs[p := Flipping];
  }

  /**
   The only tile has been given up, a second sweep by process 1 is about to write `degraded`, and
   consumer 2 has stored a late result and is about to write `ready_for_reconstruction`.
   */
  lemma BothAboutToWrite() returns (actions: seq<Action>, u: State)
    ensures From(Begin(1), actions) == Some(u)
    ensures 1 in u.procs && 2 in u.procs && u.procs[1] == Degrading && u.procs[2] == Flipping
    ensures u.job.tiles == map[0 := INFO] && u.cfg == Begin(1).cfg
  {
    var s := Begin(1);
    actions, u := Processed(1);
    actions, u := Started(s, actions, u, 1);
    actions, u := GivenUp(s, actions, u, 1);
    actions, u := Listed(s, actions, u, 1);
    actions, u := Stored(s, actions, u, 2);
    assert |u.job.tiles| == 1;
    actions, u := PastTheCheck(s, actions, u, 2);
    assert Outstanding(1, {}, {0}) == [];
    actions, u := ListRun(s, actions, u, 1);
  }

  /** The i-th action overwrites one status by another, on a job that holds all its tiles. */
  predicate OverwritesAt(states: seq<State>, i: nat, first: Status, second: Status)
    requires i + 1 < |states|
  {
    && states[i].job.status == first && states[i + 1].job.status == second
    && states[i + 1].job.tiles.Keys == Range(states[i + 1].cfg.expected)
  }

  ghost predicate Overwrites(first: Status, second: Status) {
    exists states: seq<State>, actions: seq<Action>, i: nat ::
      IsRun(states, actions) && i < |actions| && OverwritesAt(states, i, first, second)
  }

  /** p is about to write `ready_for_reconstruction` or `degraded`, as `status` says. */
  predicate AboutToWrite(u: State, p: ProcId, status: Status) {
    && p in u.procs && !u.cfg.ml
    && ((u.procs[p] == Flipping && status == Ready) || (u.procs[p] == Degrading && status == Degraded))
  }

  lemma Wrote(s: State, before: seq<Action>, u: State, p: ProcId, status: Status) returns (actions: seq<Action>, u': State)
    requires From(s, before) == Some(u) && AboutToWrite(u, p, status)
    ensures From(s, actions) == Some(u') && actions == before + [Do(p)]
    ensures u'.job == HSetStatus(u.job, status) && u'.cfg == u.cfg
    ensures u'.procs == u.procs[p := if status == Ready then Idle else Sweeping]
  {
    actions, u' := Take(s, before, u, Do(p));
  }

  lemma TwoWrites(before: seq<Action>, u: State, p: ProcId, first: Status, q: ProcId, second: Status)
    requires From(Begin(1), before) == Some(u) && p != q
    requires AboutToWrite(u, p, first) && AboutToWrite(u, q, second)
    requires u.job.tiles == map[0 := INFO] && u.cfg == Begin(1).cfg
    ensures Overwrites(first, second)
  {
    var once, v := Wrote(Begin(1), before, u, p, first);
    var actions, w := Wrote(Begin(1), once, v, q, second);
    var states := FromIsARun(Begin(1), actions);
    var i := |once|;
    assert actions[..i] == once && actions[..i + 1] == actions;
    assert Range(1) == {0};
    assert OverwritesAt(states, i, first, second);
  }

  /**
   Command by command neither `degraded` nor `ready_for_reconstruction` is final: with both writes
   already decided, whichever comes second wins, on a job that holds all its tiles.
   */
  lemma FinishedCanBeOverwritten()
    ensures Overwrites(Degraded, Ready) && Overwrites(Ready, Degraded)
  {
    var actions, u := BothAboutToWrite();
    TwoWrites(actions, u, 1, Degraded, 2, Ready);
    TwoWrites(actions, u, 2, Ready, 1, Degraded);
  }

  /** The job was ready at state i; in the end it is degraded, holds all its tiles, and has no blobs. */
  predicate LosesItsBlobs(states: seq<State>, i: nat, last: State)
    requires i < |states|
  {
    && states[i].job.status == Ready && last.job.status == Degraded
    && last.job.tiles.Keys == Range(last.cfg.expected) && last.blobs == {}
  }

  ghost predicate SomeJobLosesItsBlobs() {
    exists states: seq<State>, actions: seq<Action>, i: nat ::
      IsRun(states, actions) && i <= |actions| && LosesItsBlobs(states, i, states[|actions|])
  }

  /** When the reaper's write comes second, it goes on to delete the blobs of a job that was ready and complete. */
  lemma CompleteJobsCanLoseTheirBlobs()
    ensures SomeJobLosesItsBlobs()
  {
    var before, u := BothAboutToWrite();
    var once, v := Wrote(Begin(1), before, u, 2, Ready);
    LostFrom(once, v);
  }

  lemma LostFrom(before: seq<Action>, u: State)
    requires From(Begin(1), before) == Some(u) && u.job.status == Ready
    requires AboutToWrite(u, 1, Degraded) && u.job.tiles == map[0 := INFO] && u.cfg == Begin(1).cfg
    ensures SomeJobLosesItsBlobs()
  {
    var actions, w := DegradedAway(before, u);
    var states := FromIsARun(Begin(1), actions);
    assert actions[..|actions|] == actions;
    assert LosesItsBlobs(states, |before|, states[|actions|]);
  }

  /** The write, and then the sweep of the blobs. */
  lemma DegradedAway(before: seq<Action>, u: State) returns (actions: seq<Action>, u': State)
    requires From(Begin(1), before) == Some(u)
    requires AboutToWrite(u, 1, Degraded) && u.job.tiles == map[0 := INFO] && u.cfg == Begin(1).cfg
    ensures |before| <= |actions| && actions[..|before|] == before && From(Begin(1), actions) == Some(u')
    ensures u'.job.status == Degraded && u'.job.tiles.Keys == Range(u'.cfg.expected) && u'.blobs == {}
  {
    var once, v := Wrote(Begin(1), before, u, 1, Degraded);
    actions, u' := SweptAway(once, v);
  }

  lemma SweptAway(before: seq<Action>, u: State) returns (actions: seq<Action>, u': State)
    requires From(Begin(1), before) == Some(u) && 1 in u.procs && u.procs[1] == Sweeping
    requires u.job.tiles == map[0 := INFO] && u.cfg == Begin(1).cfg
    ensures From(Begin(1), actions) == Some(u') && actions == before + [Step(1, true, u.blobs, 0.0)]
    ensures u'.job == u.job && u'.cfg == u.cfg && u'.blobs == {}
    ensures u'.job.tiles.Keys == Range(u'.cfg.expected)
  {
    actions, u' := Take(Begin(1), before, u, Step(1, true, u.blobs, 0.0));
    assert u.blobs - u.blobs == {};
    assert Range(1) == {0};
  }
}
