/**
 What a job's status says about its tiles, at every point of every run of TileProtocol.
 */
module TileSafety {
  import opened Collections
  import opened JobRecords
  import opened TileProtocol

  /** Every expected id has been stored or given up at some point. */
  ghost predicate Accounted(s: State) {
    forall t :: t in Range(s.cfg.expected) ==> t in s.hist.stored || t in s.hist.gaveUp
  }

  /** What the program counter of one process implies. */
  ghost predicate ProcSafe(s: State, pc: Proc)
  {
    match pc
    case Storing(t, _, _) => t in Range(s.cfg.expected)
    case Checking(n) => n <= |s.hist.stored|
    case Flipping => |s.hist.stored| >= s.cfg.expected
    case Rendering => |s.hist.stored| >= s.cfg.expected
    case ReadingAbandoned(received) => received <= s.hist.stored
    case Degrading => Accounted(s)
    case Looping(_, rest) => forall t :: t in rest ==> t in Range(s.cfg.expected)
    case Probing(_, rest, ticket) =>
      ticket.tile in Range(s.cfg.expected) && forall t :: t in rest ==> t in Range(s.cfg.expected)
    case Producing(_, rest, ticket) =>
      ticket.tile in Range(s.cfg.expected) && forall t :: t in rest ==> t in Range(s.cfg.expected)
    case Abandoning(_, rest, t) =>
      t in Range(s.cfg.expected) && forall u :: u in rest ==> u in Range(s.cfg.expected)
    case _ => true
  }

  ghost predicate Safe(s: State)
  {
    && s.tasks <= Range(s.cfg.expected)
    && (forall r :: r in s.results ==> r.0 in Range(s.cfg.expected))
    && s.hist.stored <= Range(s.cfg.expected)
    && s.job.tiles.Keys <= s.hist.stored
    && s.job.abandoned <= s.hist.gaveUp
    && s.job.status != Unknown
    && (s.job.status == Ready || s.job.status == Completed ==> |s.hist.stored| >= s.cfg.expected)
    && (s.job.status == Degraded ==> Accounted(s))
    && forall p :: p in s.procs ==> ProcSafe(s, s.procs[p])
  }

  /** History only grows, and the constants stay. */
  ghost predicate Grows(s: State, s': State)
  {
    && s'.cfg == s.cfg
    && s.hist.stored <= s'.hist.stored
    && s.hist.gaveUp <= s'.hist.gaveUp
  }

  lemma ProcSafeMonotone(s: State, s': State, pc: Proc)
    requires Grows(s, s') && ProcSafe(s, pc)
    ensures ProcSafe(s', pc)
  {
    SubsetSize(s.hist.stored, s'.hist.stored);
  }

  lemma SafeEffect(s: State, pc: Proc, picked: set<TileId>)
    requires Safe(s) && ProcSafe(s, pc)
    ensures Safe(Effect(s, pc, picked)) && Grows(s, Effect(s, pc, picked))
  {
    var s' := Effect(s, pc, picked);
    SubsetSize(s.hist.stored, s'.hist.stored);
    forall p | p in s'.procs
      ensures ProcSafe(s', s'.procs[p])
    {
      ProcSafeMonotone(s, s', s.procs[p]);
    }
  }

  lemma SafeSuccessor(s: State, pc: Proc, yes: bool)
    requires Safe(s) && ProcSafe(s, pc)
    ensures ProcSafe(s, Successor(s, pc, yes))
  {
    SubsetSize(s.job.tiles.Keys, s.hist.stored);
    assert |s.job.tiles| == |s.job.tiles.Keys|;
    if pc.ReadingAbandoned? {
      var retryable := Outstanding(s.cfg.expected, pc.received, s.job.abandoned);
      if retryable == [] {
        forall t | t in Range(s.cfg.expected)
          ensures t in s.hist.stored || t in s.hist.gaveUp
        {
          assert t !in retryable;
        }
      }
    }
  }

  lemma SafeReaperLoop(s: State, p: ProcId, pc: Proc, yes: bool, when: real)
    requires Safe(s) && ProcSafe(s, pc)
    requires pc.Looping? || pc.Probing? || pc.Producing? || pc.Abandoning?
    ensures Safe(ReaperLoop(s, p, pc, yes, when)) && Grows(s, ReaperLoop(s, p, pc, yes, when))
  {
    var s' := ReaperLoop(s, p, pc, yes, when);
    if pc.Looping? && pc.rest != [] {
      assert pc.rest[0] in pc.rest;
      assert forall t :: t in pc.rest[1..] ==> t in pc.rest;
    }
    assert ProcSafe(s', s'.procs[p]);
    forall q | q in s'.procs
      ensures ProcSafe(s', s'.procs[q])
    {
      if q != p {
        ProcSafeMonotone(s, s', s.procs[q]);
      }
    }
  }

  lemma SafeGoto(s: State, p: ProcId, pc: Proc)
    requires Safe(s) && ProcSafe(s, pc)
    ensures Safe(Goto(s, p, pc)) && Grows(s, Goto(s, p, pc))
  {
    var s' := Goto(s, p, pc);
    forall q | q in s'.procs
      ensures ProcSafe(s', s'.procs[q])
    {
      ProcSafeMonotone(s, s', if q == p then pc else s.procs[q]);
    }
  }

  lemma SafeMessages(s: State, s': State)
    requires Safe(s)
    requires s' == s.(tasks := s'.tasks, results := s'.results, blobs := s'.blobs)
    requires s'.tasks <= Range(s.cfg.expected)
    requires forall r :: r in s'.results ==> r.0 in Range(s.cfg.expected)
    ensures Safe(s') && Grows(s, s')
  {
    forall p | p in s'.procs
      ensures ProcSafe(s', s'.procs[p])
    {
      ProcSafeMonotone(s, s', s.procs[p]);
    }
  }

  lemma SafeApply(s: State, a: Action)
    requires Safe(s) && Enabled(s, a)
    ensures Safe(Apply(s, a)) && Grows(s, Apply(s, a))
  {
    match a
    case Dispatch(_) => SafeMessages(s, Apply(s, a));
    case Work(_, _) => SafeMessages(s, Apply(s, a));
    case Crash(p) => SafeGoto(s, p, Idle);
    case Receive(p, t, info, seconds) => SafeGoto(s, p, Storing(t, info, seconds));
    case Reap(p) => SafeGoto(s, p, ReadingClock);
    case Reconstruct(p) => SafeGoto(s, p, CountingTiles);
    case Resend(p, picked) => SafeEffect(s, Pc(s, p), picked);
    case Step(p, yes, picked, when) =>
      var pc := Pc(s, p);
      if pc.Looping? || pc.Probing? || pc.Producing? || pc.Abandoning? {
        SafeReaperLoop(s, p, pc, yes, when);
      } else {
        SafeEffect(s, pc, picked);
        SafeSuccessor(s, pc, yes);
        var s' := Effect(s, pc, picked);
        ProcSafeMonotone(s, s', Successor(s, pc, yes));
        SafeGoto(s', p, Successor(s, pc, yes));
      }
  }

  lemma {:induction false} SafeRun(states: seq<State>, actions: seq<Action>, i: nat)
    requires IsRun(states, actions) && i < |states|
    ensures Safe(states[i]) && states[i].cfg == states[0].cfg
  {
    if i > 0 {
      SafeRun(states, actions, i - 1);
      assert StepAt(states, actions, i - 1);
      SafeApply(states[i - 1], actions[i - 1]);
    } else {
      assert Range(states[0].cfg.expected) >= {};
    }
  }

  /** The history variables say what was visible: an id in them was in the Redis key at some earlier point. */
  lemma {:induction false} HistoryIsTrue(states: seq<State>, actions: seq<Action>, i: nat, t: TileId)
    requires IsRun(states, actions) && i < |states|
    ensures t in states[i].hist.stored ==> exists j :: 0 <= j <= i && t in states[j].job.tiles
    ensures t in states[i].hist.gaveUp ==> exists j :: 0 <= j <= i && t in states[j].job.abandoned
  {
    if i > 0 {
      HistoryIsTrue(states, actions, i - 1, t);
      assert StepAt(states, actions, i - 1);
      if t in states[i].hist.stored && t !in states[i - 1].hist.stored {
        assert t in states[i].job.tiles;
      }
      if t in states[i].hist.gaveUp && t !in states[i - 1].hist.gaveUp {
        assert t in states[i].job.abandoned;
      }
    }
  }

  /**
   Main result.  Whatever the interleaving and wherever processes crash: a job that says
   ready_for_reconstruction or completed has had every one of its tiles in Redis, and a job
   that says degraded has had every one of its tiles in Redis or in the abandoned set.
   */
  lemma StatusTellsTheTruth(states: seq<State>, actions: seq<Action>, i: nat, t: TileId)
    requires IsRun(states, actions) && i < |states|
    requires 0 <= t < states[0].cfg.expected
    ensures states[i].job.status == Ready || states[i].job.status == Completed ==>
              exists j :: 0 <= j <= i && t in states[j].job.tiles
    ensures states[i].job.status == Degraded ==>
              exists j :: 0 <= j <= i && (t in states[j].job.tiles || t in states[j].job.abandoned)
  {
    SafeRun(states, actions, i);
    HistoryIsTrue(states, actions, i, t);
    Pigeonhole(states[i].hist.stored, states[i].cfg.expected);
    assert t in Range(states[i].cfg.expected);
  }

  /** Only what was dispatched has a task, and only what has a task has a result. */
  lemma {:induction false} NothingFromNowhere(states: seq<State>, actions: seq<Action>, i: nat, t: TileId, info: TileInfo)
    requires IsRun(states, actions) && i < |states|
    ensures (t, info) in states[i].results ==> t in states[i].tasks
    ensures t in states[i].tasks ==> 0 <= t < states[i].cfg.expected
  {
    if i > 0 {
      NothingFromNowhere(states, actions, i - 1, t, info);
      SafeRun(states, actions, i - 1);
      assert StepAt(states, actions, i - 1);
    }
  }

  /** Step k removes blobs: the blob sweep of a consumer, a reaper or a /reconstruct. */
  predicate SweepsBlobs(s: State, a: Action) {
    a.Step? && Pc(s, a.p).Sweeping?
  }

  /** A staged blob stays, for requeues to use, until somebody sweeps the job's blobs. */
  lemma {:induction false} BlobsStayUntilSwept(states: seq<State>, actions: seq<Action>, i: nat, j: nat)
    requires IsRun(states, actions) && i <= j < |states|
    requires forall k :: i <= k < j ==> !SweepsBlobs(states[k], actions[k])
    ensures states[i].blobs <= states[j].blobs
  {
    if i < j {
      BlobsStayUntilSwept(states, actions, i, j - 1);
      assert StepAt(states, actions, j - 1);
    }
  }

  /** The job hash keeps the number of tiles that the run is about. */
  lemma {:induction false} ExpectedStays(states: seq<State>, actions: seq<Action>, i: nat)
    requires IsRun(states, actions) && i < |states|
    ensures states[i].cfg == states[0].cfg && Expected(states[i].job) == states[0].cfg.expected
  {
    if i > 0 {
      ExpectedStays(states, actions, i - 1);
      assert StepAt(states, actions, i - 1);
    }
  }

  /** A tile is only requeued after its staged blob was seen. */
  lemma {:induction false} RequeuesHaveBlobs(states: seq<State>, actions: seq<Action>, i: nat, p: ProcId) returns (j: nat)
    requires IsRun(states, actions) && i < |states| && Pc(states[i], p).Producing?
    ensures j < i && Pc(states[i], p).ticket.tile in states[j].blobs
  {
    assert StepAt(states, actions, i - 1);
    if Pc(states[i - 1], p) == Pc(states[i], p) {
      j := RequeuesHaveBlobs(states, actions, i - 1, p);
    } else {
      j := i - 1;
    }
  }
}
