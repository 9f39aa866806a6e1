/**
 Who closes a complete job.  A job that holds enough tiles is left at `processing` exactly when
 the last consumer on its way to the status write crashed and nothing was delivered since.
 */
module TileCompletion {
  import opened Collections
  import opened JobRecords
  import opened TileProtocol
  import opened TileRequeues
  import opened TileConvergence
  import opened TileCode
  import Consumers

  /** A consumer that will find the job complete, once it is: it has yet to measure, or measured enough. */
  predicate Closes(cfg: Config, pc: Proc) {
    || pc.Storing? || pc.Pushing? || pc.Counting? || pc.Measuring?
    || (pc.Checking? && pc.n >= cfg.expected) || pc.Flipping?
  }

  /** Still `processing`, though enough distinct tiles are held. */
  predicate Complete(s: State) {
    s.job.status == Processing && |s.job.tiles| >= s.cfg.expected
  }

  ghost predicate SomeoneCloses(s: State) {
    exists p :: p in s.procs && Closes(s.cfg, s.procs[p])
  }

  ghost predicate Stuck(s: State) {
    Complete(s) && !SomeoneCloses(s)
  }

  /** p closes, and nobody else does. */
  ghost predicate OnlyCloser(s: State, p: ProcId) {
    && p in s.procs && Closes(s.cfg, s.procs[p])
    && forall q :: q in s.procs && Closes(s.cfg, s.procs[q]) ==> q == p
  }

  /** Tiles are only added by HSET, and whoever sends it closes afterwards. */
  lemma CompleteBefore(s: State, a: Action)
    requires Settled(s) && Ticketed(s) && Enabled(s, a) && Complete(Apply(s, a))
    ensures Complete(s) || SomeoneCloses(Apply(s, a))
  {
    var s' := Apply(s, a);
    ApplyAdvances(s, a);
    if (a.Step? || a.Resend?) && Pc(s, a.p).Storing? {
      assert Closes(s'.cfg, s'.procs[a.p]);
    } else {
      assert s'.job.tiles == s.job.tiles;
    }
  }

  /** A closer that is not crashed goes on closing until the job has left `processing`. */
  lemma CloserGoesOn(s: State, a: Action, p: ProcId)
    requires Settled(s) && Ticketed(s) && Enabled(s, a) && Complete(s) && Complete(Apply(s, a))
    requires p in s.procs && Closes(s.cfg, s.procs[p]) && a != Crash(p)
    ensures p in Apply(s, a).procs && Closes(Apply(s, a).cfg, Apply(s, a).procs[p])
  {
    if a.Step? && a.p == p {
      CloserSteps(s, a);
    }
  }

  lemma CloserSteps(s: State, a: Action)
    requires Enabled(s, a) && a.Step? && Complete(s) && Complete(Apply(s, a)) && Closes(s.cfg, Pc(s, a.p))
    ensures Closes(Apply(s, a).cfg, Apply(s, a).procs[a.p])
  {
    assert Apply(s, a).procs[a.p] == Successor(s, Pc(s, a.p), a.yes);
  }

  lemma LostCloser(s: State, a: Action, p: ProcId)
    requires Settled(s) && Ticketed(s) && Enabled(s, a) && Complete(s) && Stuck(Apply(s, a))
    requires p in s.procs && Closes(s.cfg, s.procs[p])
    ensures a == Crash(p)
  {
    if a != Crash(p) {
      CloserGoesOn(s, a, p);
    }
  }

  lemma LastCloserLost(s: State, a: Action)
    requires Settled(s) && Ticketed(s) && Enabled(s, a) && Complete(s) && Stuck(Apply(s, a)) && SomeoneCloses(s)
    ensures a.Crash? && OnlyCloser(s, a.p)
  {
    var p :| p in s.procs && Closes(s.cfg, s.procs[p]);
    LostCloser(s, a, p);
    forall q | q in s.procs && Closes(s.cfg, s.procs[q])
      ensures q == p
    {
      LostCloser(s, a, q);
    }
  }

  lemma DeliveredCloses(s: State, a: Action)
    requires Enabled(s, a) && a.Receive?
    ensures SomeoneCloses(Apply(s, a))
  {
    assert Closes(Apply(s, a).cfg, Apply(s, a).procs[a.p]);
  }

  /** One step leaves a complete job without a closer exactly if it crashes the only one, or there was none and nothing is delivered. */
  lemma StuckStep(s: State, a: Action)
    requires Settled(s) && Ticketed(s) && Enabled(s, a)
    ensures Stuck(Apply(s, a)) <==>
              || (Stuck(s) && !a.Receive? && Apply(s, a).job.status == Processing)
              || (Complete(s) && a.Crash? && OnlyCloser(s, a.p))
  {
    var s' := Apply(s, a);
    if Stuck(s') {
      CompleteBefore(s, a);
      if SomeoneCloses(s) {
        LastCloserLost(s, a);
      } else if a.Receive? {
        DeliveredCloses(s, a);
      }
    } else if Stuck(s) && !a.Receive? && s'.job.status == Processing {
      StuckStays(s, a);
    } else if Complete(s) && a.Crash? && OnlyCloser(s, a.p) {
      NobodyLeft(s, a);
    }
  }

  lemma NobodyLeft(s: State, a: Action)
    requires Enabled(s, a) && a.Crash? && Complete(s) && OnlyCloser(s, a.p)
    ensures Stuck(Apply(s, a))
  {
    var s' := Apply(s, a);
    forall q | q in s'.procs
      ensures !Closes(s'.cfg, s'.procs[q])
    {
      if q != a.p { assert q in s.procs; }
    }
  }

  lemma StuckStays(s: State, a: Action)
    requires Settled(s) && Ticketed(s) && Enabled(s, a)
    requires Stuck(s) && !a.Receive? && Apply(s, a).job.status == Processing
    ensures Stuck(Apply(s, a))
  {
    HeldStay(s, a);
    NoNewCloser(s, a);
  }

  lemma HeldStay(s: State, a: Action)
    requires Settled(s) && Ticketed(s) && Enabled(s, a) && Apply(s, a).job.status == Processing
    ensures |Apply(s, a).job.tiles| >= |s.job.tiles| && Apply(s, a).cfg == s.cfg
  {
    var tiles, tiles' := s.job.tiles, Apply(s, a).job.tiles;
    ApplyAdvances(s, a);
    SubsetSize(tiles.Keys, tiles'.Keys);
    assert |tiles| == |tiles.Keys| && |tiles'| == |tiles'.Keys|;
  }

  lemma NoNewCloser(s: State, a: Action)
    requires Enabled(s, a) && !SomeoneCloses(s) && !a.Receive?
    ensures Apply(s, a).job.status == Processing && Complete(s) ==> !SomeoneCloses(Apply(s, a))
  {
    var s' := Apply(s, a);
    forall p | p in s'.procs
      ensures !Closes(s'.cfg, s'.procs[p])
    {
      if p in s.procs { assert !Closes(s.cfg, s.procs[p]); }
    }
  }

  /** Step k crashes the only closer of a complete job. */
  ghost predicate LastCloserCrashes(states: seq<State>, actions: seq<Action>, k: nat)
    requires k < |actions| && |states| == |actions| + 1
  {
    actions[k].Crash? && Complete(states[k]) && OnlyCloser(states[k], actions[k].p)
  }

  predicate NoDelivery(actions: seq<Action>, from: nat, to: nat)
    requires from <= to <= |actions|
  {
    forall m :: from <= m < to ==> !actions[m].Receive?
  }

  /** The crash that a stuck job goes back to. */
  ghost predicate StuckSince(states: seq<State>, actions: seq<Action>, k: nat, i: nat)
    requires k < i <= |actions| && |states| == |actions| + 1
  {
    LastCloserCrashes(states, actions, k) && NoDelivery(actions, k + 1, i)
  }

  ghost predicate LeftByACrash(states: seq<State>, actions: seq<Action>, i: nat)
    requires i <= |actions| && |states| == |actions| + 1
  {
    exists k: nat :: k < i && StuckSince(states, actions, k, i)
  }

  lemma LeftStep(states: seq<State>, actions: seq<Action>, i: nat)
    requires i < |actions| && |states| == |actions| + 1
    ensures LeftByACrash(states, actions, i + 1) <==>
              LastCloserCrashes(states, actions, i) || (!actions[i].Receive? && LeftByACrash(states, actions, i))
  {
    if LastCloserCrashes(states, actions, i) {
      assert StuckSince(states, actions, i, i + 1);
    } else if !actions[i].Receive? && LeftByACrash(states, actions, i) {
      var k: nat :| k < i && StuckSince(states, actions, k, i);
      assert StuckSince(states, actions, k, i + 1);
    }
    if LeftByACrash(states, actions, i + 1) {
      var k: nat :| k < i + 1 && StuckSince(states, actions, k, i + 1);
      if k < i {
        assert StuckSince(states, actions, k, i);
      }
    }
  }

  /**
   Main result.  In every run a complete job is `processing` with no consumer left to close it
   exactly when the only consumer that was left crashed and no message was delivered since.
   */
  lemma {:induction false} StuckExactly(states: seq<State>, actions: seq<Action>, i: nat)
    requires IsRun(states, actions) && i < |states| && states[0].cfg.expected > 0
    ensures Stuck(states[i]) <==> states[i].job.status == Processing && LeftByACrash(states, actions, i)
  {
    if i == 0 {
      assert |states[0].job.tiles| == 0;
    } else {
      StuckExactly(states, actions, i - 1);
      SettledRun(states, actions, i - 1);
      TicketedRun(states, actions, i - 1);
      assert StepAt(states, actions, i - 1);
      StuckStep(states[i - 1], actions[i - 1]);
      LeftStep(states, actions, i - 1);
      RunAdvances(states, actions, i - 1);
      CrashKeeps(states, actions, i - 1);
    }
  }

  lemma CrashKeeps(states: seq<State>, actions: seq<Action>, i: nat)
    requires IsRun(states, actions) && i < |actions|
    ensures LastCloserCrashes(states, actions, i) ==> states[i + 1].job == states[i].job
  {
    assert StepAt(states, actions, i);
  }

  /** No crash so far hit a consumer between taking a result and writing the status. */
  ghost predicate ClosersLive(states: seq<State>, actions: seq<Action>, i: nat)
    requires i <= |actions| && |states| == |actions| + 1
  {
    forall k :: 0 <= k < i && actions[k].Crash? ==> !Closes(states[k].cfg, Pc(states[k], actions[k].p))
  }

  /**
   Main result.  The last one out closes the job: as long as no consumer crashes between taking a
   result and writing the status, a job that holds all its tiles has left `processing` once
   every process is idle.
   */
  lemma LastOneOutClosesTheJob(states: seq<State>, actions: seq<Action>, i: nat)
    requires IsRun(states, actions) && i < |states| && states[0].cfg.expected > 0
    requires ClosersLive(states, actions, i)
    requires |states[i].job.tiles| >= states[i].cfg.expected && forall p :: Pc(states[i], p).Idle?
    ensures states[i].job.status != Processing
  {
    StuckExactly(states, actions, i);
    NeverLeft(states, actions, i);
    AllIdle(states[i]);
  }

  lemma NeverLeft(states: seq<State>, actions: seq<Action>, i: nat)
    requires i <= |actions| && |states| == |actions| + 1 && ClosersLive(states, actions, i)
    ensures !LeftByACrash(states, actions, i)
  {
    forall k: nat | k < i
      ensures !StuckSince(states, actions, k, i)
    {
      assert actions[k].Crash? ==> !Closes(states[k].cfg, Pc(states[k], actions[k].p));
    }
  }

  lemma AllIdle(s: State)
    requires forall p :: Pc(s, p).Idle?
    ensures !SomeoneCloses(s)
  {
    forall p | p in s.procs
      ensures !Closes(s.cfg, s.procs[p])
    {
      assert Pc(s, p).Idle?;
    }
  }

  // ---------------------------------------------------------------- closers close, crashes stick, deliveries repair

  /** A closer's own next steps take a complete job out of `processing`. */
  lemma CloserFinishes(s: State, p: ProcId) returns (actions: seq<Action>, u: State)
    requires Complete(s) && p in s.procs && Closes(s.cfg, s.procs[p])
    ensures From(s, actions) == Some(u) && u.job.status == Done(s) != Processing
    ensures forall a :: a in actions ==> a == Do(p)
  {
    actions, u := [], s;
    if u.procs[p].Storing? {
      actions, u := Take(s, actions, u, Do(p));
      StoredStillComplete(s, p);
    }
    if u.procs[p].Pushing? || u.procs[p].Counting? {
      actions, u := CountedFinishes(s, actions, u, p);
    }
    actions, u := MeasuredFinishes(s, actions, u, p);
  }

  lemma CountedFinishes(s: State, before: seq<Action>, u: State, p: ProcId) returns (actions: seq<Action>, u': State)
    requires From(s, before) == Some(u) && Complete(u) && forall a :: a in before ==> a == Do(p)
    requires p in u.procs && (u.procs[p].Pushing? || u.procs[p].Counting?)
    ensures From(s, actions) == Some(u') && Complete(u') && u'.cfg == u.cfg
    ensures p in u'.procs && u'.procs[p].Measuring?
    ensures forall a :: a in actions ==> a == Do(p)
  {
    actions, u' := before, u;
    if u'.procs[p].Pushing? {
      actions, u' := Take(s, actions, u', Do(p));
    }
    actions, u' := Take(s, actions, u', Do(p));
  }

  lemma StoredStillComplete(s: State, p: ProcId)
    requires Complete(s) && p in s.procs && s.procs[p].Storing?
    ensures Complete(Apply(s, Do(p))) && Apply(s, Do(p)).cfg == s.cfg
    ensures Apply(s, Do(p)).procs[p].Pushing? || Apply(s, Do(p)).procs[p].Measuring?
  {
    var s' := Apply(s, Do(p));
    SubsetSize(s.job.tiles.Keys, s'.job.tiles.Keys);
    assert |s.job.tiles| == |s.job.tiles.Keys| && |s'.job.tiles| == |s'.job.tiles.Keys|;
  }

  lemma MeasuredFinishes(s: State, before: seq<Action>, u: State, p: ProcId) returns (actions: seq<Action>, u': State)
    requires From(s, before) == Some(u) && Complete(u) && u.cfg == s.cfg && forall a :: a in before ==> a == Do(p)
    requires p in u.procs && (u.procs[p].Measuring? || u.procs[p].Flipping?
                              || (u.procs[p].Checking? && u.procs[p].n >= u.cfg.expected))
    ensures From(s, actions) == Some(u') && u'.job.status == Done(s)
    ensures forall a :: a in actions ==> a == Do(p)
  {
    actions, u' := before, u;
    if u'.procs[p].Measuring? {
      actions, u' := Take(s, actions, u', Do(p));
      assert u' == With(u, p, u.job, u.hist, Checking(|u.job.tiles|));
    }
    actions, u' := CheckedFinishes(s, actions, u', p);
  }

  lemma CheckedFinishes(s: State, before: seq<Action>, u: State, p: ProcId) returns (actions: seq<Action>, u': State)
    requires From(s, before) == Some(u) && Complete(u) && u.cfg == s.cfg && forall a :: a in before ==> a == Do(p)
    requires p in u.procs && (u.procs[p].Flipping? || (u.procs[p].Checking? && u.procs[p].n >= u.cfg.expected))
    ensures From(s, actions) == Some(u') && u'.job.status == Done(s)
    ensures forall a :: a in actions ==> a == Do(p)
  {
    actions, u' := before, u;
    if u'.procs[p].Checking? {
      actions, u' := Take(s, actions, u', Do(p));
      assert u' == With(u, p, u.job, u.hist, Flipping);
    }
    actions, u' := Take(s, actions, u', Do(p));
  }

  /** Whatever message is delivered next to an idle consumer closes a stuck job. */
  lemma DeliveryRepairs(s: State, p: ProcId, m: Consumers.Message) returns (actions: seq<Action>)
    requires Stuck(s) && Expected(s.job) == s.cfg.expected
    requires Pc(s, p).Idle? && (m.tile, m.info) in s.results
    ensures From(s, actions).Some? && From(s, actions).value.job.status == Done(s)
  {
    var stored := s.job.tiles[m.tile := m.info];
    SubsetSize(s.job.tiles.Keys, stored.Keys);
    assert |s.job.tiles| == |s.job.tiles.Keys| && |stored| == |stored.Keys|;
    actions := ConsumerIsARun(s, p, m);
  }
}
