/**
 A job cannot be requeued forever: after MAX_TILE_ATTEMPTS completed sweeps nothing is
 outstanding, and the next sweep decides.  Sweeps may overlap, and results may arrive anywhere.
 */
module TileConvergence {
  import opened Collections
  import opened JobRecords
  import opened TileProtocol
  import opened TileRequeues

  /** Neither held nor given up. */
  ghost predicate IsOutstanding(s: State, t: TileId) {
    t in Range(s.cfg.expected) && t !in s.job.tiles && t !in s.job.abandoned
  }

  /** Sweep w got a ticket for t that let it requeue t. */
  ghost predicate Served(s: State, t: TileId, w: nat) {
    exists k :: k in s.hist.tickets && k.tile == t && s.hist.tickets[k] == w && k.value < s.cfg.maxAttempts
  }

  /** The tiles a sweep has still to look at. */
  function Rest(pc: Proc): seq<TileId>
  {
    match pc
    case Looping(_, rest) => rest
    case Probing(_, rest, _) => rest
    case Producing(_, rest, _) => rest
    case Abandoning(_, rest, t) => [t] + rest
    case _ => []
  }

  ghost predicate ProcSettled(s: State, pc: Proc)
  {
    && (pc.ReadingAbandoned? ==> pc.received <= s.job.tiles.Keys)
    && (SweepOf(pc).Some? ==>
          forall t :: IsOutstanding(s, t) ==> t in Rest(pc) || Served(s, t, SweepOf(pc).value))
  }

  ghost predicate Settled(s: State)
  {
    && (s.job.status == Processing ==>
          && s.hist.gen == 0 && s.hist.resets == 0
          && (forall p :: p in s.procs ==> ProcSettled(s, s.procs[p]))
          && (forall t, w :: IsOutstanding(s, t) && w in s.hist.done ==> Served(s, t, w)))
    && (forall p :: p in s.procs && (s.procs[p].Deleting? || s.procs[p].DeletingAttempts?) ==>
          s.job.status != Processing)
  }

  /**
   What every action does to a job while it is still `processing` afterwards: tiles and
   abandoned ids stay, tickets stay, and the status was `processing` before.
   */
  ghost predicate Advances(s: State, s': State)
  {
    s'.job.status == Processing ==>
      && s.job.status == Processing
      && s'.cfg == s.cfg
      && s.job.tiles.Keys <= s'.job.tiles.Keys
      && s.job.abandoned <= s'.job.abandoned
      && s'.hist.gen == s.hist.gen && s'.hist.resets == s.hist.resets
      && (forall k :: k in s.hist.tickets ==> k in s'.hist.tickets && s'.hist.tickets[k] == s.hist.tickets[k])
  }

  lemma OutstandingShrinks(s: State, s': State, t: TileId)
    requires Advances(s, s') && s'.job.status == Processing
    requires IsOutstanding(s', t)
    ensures IsOutstanding(s, t)
  {
    assert t in s.job.tiles.Keys ==> t in s'.job.tiles.Keys;
  }

  lemma ServedStays(s: State, s': State, t: TileId, w: nat)
    requires Advances(s, s') && s'.job.status == Processing
    requires Served(s, t, w)
    ensures Served(s', t, w)
  {
    var k :| k in s.hist.tickets && k.tile == t && s.hist.tickets[k] == w && k.value < s.cfg.maxAttempts;
    assert k in s'.hist.tickets;
  }

  lemma ProcSettledStays(s: State, s': State, pc: Proc)
    requires Advances(s, s') && s'.job.status == Processing
    requires ProcSettled(s, pc)
    ensures ProcSettled(s', pc)
  {
    if SweepOf(pc).Some? {
      var w := SweepOf(pc).value;
      forall t | IsOutstanding(s', t)
        ensures t in Rest(pc) || Served(s', t, w)
      {
        OutstandingShrinks(s, s', t);
        if Served(s, t, w) {
          ServedStays(s, s', t, w);
        }
      }
    }
  }

  lemma SettledGoto(s: State, s': State, p: ProcId, pc: Proc)
    requires Settled(s) && Advances(s, s')
    requires s'.procs == s.procs[p := pc] && s'.hist.done == s.hist.done
    requires s'.job.status == Processing ==> ProcSettled(s', pc)
    requires pc.Deleting? || pc.DeletingAttempts? ==> s'.job.status != Processing
    ensures Settled(s')
  {
    if s'.job.status == Processing {
      forall q | q in s'.procs ensures ProcSettled(s', s'.procs[q]) {
        if q != p { ProcSettledStays(s, s', s.procs[q]); }
      }
      forall t, w | IsOutstanding(s', t) && w in s'.hist.done ensures Served(s', t, w) {
        OutstandingShrinks(s, s', t);
        ServedStays(s, s', t, w);
      }
    }
  }

  lemma SettledKeep(s: State, s': State)
    requires Settled(s) && Advances(s, s')
    requires s'.procs == s.procs && s'.hist.done == s.hist.done
    ensures Settled(s')
  {
    if s'.job.status == Processing {
      forall q | q in s'.procs ensures ProcSettled(s', s'.procs[q]) {
        ProcSettledStays(s, s', s.procs[q]);
      }
      forall t, w | IsOutstanding(s', t) && w in s'.hist.done ensures Served(s', t, w) {
        OutstandingShrinks(s, s', t);
        ServedStays(s, s', t, w);
      }
    }
  }

  /** A sweep starts with everything that is outstanding now on its list. */
  lemma SettledBegin(s: State, p: ProcId, received: set<TileId>)
    requires Settled(s)
    requires s.job.status == Processing ==> received <= s.job.tiles.Keys
    ensures Settled(Goto(Effect(s, ReadingAbandoned(received), {}), p, Successor(s, ReadingAbandoned(received), true)))
  {
    var pc := Successor(s, ReadingAbandoned(received), true);
    var s' := Goto(Effect(s, ReadingAbandoned(received), {}), p, pc);
    assert Advances(s, s');
    if s'.job.status == Processing {
      forall t | IsOutstanding(s', t) && SweepOf(pc).Some?
        ensures t in Rest(pc)
      {
        assert t in s.job.tiles <==> t in s.job.tiles.Keys;
      }
    }
    SettledGoto(s, s', p, pc);
  }

  lemma SettledIncr(s: State, p: ProcId, when: real)
    requires Settled(s) && Ticketed(s) && p in s.procs && s.procs[p].Looping? && s.procs[p].rest != []
    ensures Settled(ReaperLoop(s, p, s.procs[p], true, when))
  {
    var pc := s.procs[p];
    var t := pc.rest[0];
    var ticket := Ticket(t, s.hist.resets, Attempts(s.job, t) + 1);
    var s' := ReaperLoop(s, p, pc, true, when);
    assert ticket in s.hist.tickets ==> Issued(s, ticket);
    assert Advances(s, s');
    if s'.job.status == Processing {
      var pc' := s'.procs[p];
      forall u | IsOutstanding(s', u)
        ensures u in Rest(pc') || Served(s', u, pc.sweep)
      {
        OutstandingShrinks(s, s', u);
        assert ProcSettled(s, pc);
        if Served(s, u, pc.sweep) {
          ServedStays(s, s', u, pc.sweep);
        } else if u == t {
          assert ticket in s'.hist.tickets && s'.hist.tickets[ticket] == pc.sweep;
        } else {
          assert pc.rest == [t] + pc.rest[1..];
        }
      }
    }
    SettledGoto(s, s', p, s'.procs[p]);
  }

  lemma SettledFinish(s: State, p: ProcId, when: real)
    requires Settled(s) && p in s.procs && s.procs[p].Looping? && s.procs[p].rest == []
    ensures Settled(ReaperLoop(s, p, s.procs[p], true, when))
  {
    var pc := s.procs[p];
    var s' := ReaperLoop(s, p, pc, true, when);
    assert Advances(s, s');
    SettledGoto(s, s'.(hist := s.hist), p, Idle);
    if s'.job.status == Processing {
      forall q | q in s'.procs ensures ProcSettled(s', s'.procs[q]) {
        if q != p { ProcSettledStays(s, s', s.procs[q]); }
      }
      forall t, w | IsOutstanding(s', t) && w in s'.hist.done ensures Served(s', t, w) {
        OutstandingShrinks(s, s', t);
        assert ProcSettled(s, pc);
        assert Served(s, t, w);
        ServedStays(s, s', t, w);
      }
    }
  }

  lemma SettledReaperLoop(s: State, p: ProcId, yes: bool, when: real)
    requires Settled(s) && Ticketed(s) && p in s.procs
    requires var pc := s.procs[p]; pc.Looping? || pc.Probing? || pc.Producing? || pc.Abandoning?
    ensures Settled(ReaperLoop(s, p, s.procs[p], yes, when))
  {
    var pc := s.procs[p];
    if pc.Looping? {
      if pc.rest == [] { SettledFinish(s, p, when); } else { SettledIncr(s, p, when); }
    } else {
      var s' := ReaperLoop(s, p, pc, yes, when);
      assert Advances(s, s');
      if s'.job.status == Processing {
        var w := SweepOf(pc).value;
        forall t | IsOutstanding(s', t)
          ensures t in Rest(s'.procs[p]) || Served(s', t, w)
        {
          OutstandingShrinks(s, s', t);
          assert ProcSettled(s, pc);
          if Served(s, t, w) { ServedStays(s, s', t, w); }
        }
      }
      SettledGoto(s, s', p, s'.procs[p]);
    }
  }

  lemma EffectAdvances(s: State, pc: Proc, picked: set<TileId>)
    requires pc.Deleting? || pc.DeletingAttempts? ==> s.job.status != Processing
    requires !pc.ReadingAbandoned?
    ensures Advances(s, Effect(s, pc, picked))
    ensures Effect(s, pc, picked).procs == s.procs && Effect(s, pc, picked).hist.done == s.hist.done
    ensures pc.Rendering? ==> Effect(s, pc, picked).job.status != Processing
  {
  }

  lemma SettledStep(s: State, a: Action)
    requires Settled(s) && Ticketed(s) && Enabled(s, a) && a.Step?
    ensures Settled(Apply(s, a))
  {
    var p, picked, pc := a.p, a.picked, Pc(s, a.p);
    if pc.Looping? || pc.Probing? || pc.Producing? || pc.Abandoning? {
      SettledReaperLoop(s, p, a.yes, a.when);
    } else if pc.ReadingAbandoned? {
      assert s.job.status == Processing ==> ProcSettled(s, pc);
      SettledBegin(s, p, pc.received);
    } else {
      EffectAdvances(s, pc, picked);
      SettledGoto(s, Apply(s, a), p, Successor(s, pc, a.yes));
    }
  }

  lemma SettledApply(s: State, a: Action)
    requires Settled(s) && Ticketed(s) && Enabled(s, a)
    ensures Settled(Apply(s, a))
  {
    match a
    case Dispatch(_) => SettledKeep(s, Apply(s, a));
    case Work(_, _) => SettledKeep(s, Apply(s, a));
    case Crash(p) => SettledGoto(s, Apply(s, a), p, Idle);
    case Receive(p, t, info, seconds) => SettledGoto(s, Apply(s, a), p, Storing(t, info, seconds));
    case Reap(p) => SettledGoto(s, Apply(s, a), p, ReadingClock);
    case Reconstruct(p) => SettledGoto(s, Apply(s, a), p, CountingTiles);
    case Step(_, _, _, _) => SettledStep(s, a);
    case Resend(p, picked) =>
      EffectAdvances(s, Pc(s, p), picked);
      SettledKeep(s, Apply(s, a));
  }

  lemma {:induction false} SettledRun(states: seq<State>, actions: seq<Action>, i: nat)
    requires IsRun(states, actions) && i < |states|
    ensures Settled(states[i])
  {
    if i > 0 {
      SettledRun(states, actions, i - 1);
      TicketedRun(states, actions, i - 1);
      assert StepAt(states, actions, i - 1);
      SettledApply(states[i - 1], actions[i - 1]);
    }
  }

  lemma ApplyAdvances(s: State, a: Action)
    requires Settled(s) && Ticketed(s) && Enabled(s, a)
    ensures Advances(s, Apply(s, a))
  {
    if a.Step? && Pc(s, a.p).Looping? && Pc(s, a.p).rest != [] {
      var t := Pc(s, a.p).rest[0];
      var ticket := Ticket(t, s.hist.resets, Attempts(s.job, t) + 1);
      assert ticket in s.hist.tickets ==> Issued(s, ticket);
    } else if a.Resend? || (a.Step? && SweepOf(Pc(s, a.p)).None? && !Pc(s, a.p).ReadingAbandoned?) {
      EffectAdvances(s, Pc(s, a.p), a.picked);
    }
  }

  // ---------------------------------------------------------------- main results

  /**
   Nothing ever sets a job back to `processing`, and while it is processing no tile and no
   abandoned id is lost.
   */
  lemma {:induction false} ProcessingNeverReturns(states: seq<State>, actions: seq<Action>, i: nat, j: nat)
    requires IsRun(states, actions) && i <= j < |states|
    requires states[j].job.status == Processing
    ensures states[i].job.status == Processing
    ensures states[i].job.tiles.Keys <= states[j].job.tiles.Keys
    ensures states[i].job.abandoned <= states[j].job.abandoned
    decreases j - i
  {
    if i < j {
      RunAdvances(states, actions, j - 1);
      ProcessingNeverReturns(states, actions, i, j - 1);
    }
  }

  lemma RunAdvances(states: seq<State>, actions: seq<Action>, i: nat)
    requires IsRun(states, actions) && i < |actions|
    ensures Advances(states[i], states[i + 1])
  {
    SettledRun(states, actions, i);
    TicketedRun(states, actions, i);
    assert StepAt(states, actions, i);
    ApplyAdvances(states[i], actions[i]);
  }

  /** The number of sweeps that finished their loop over the retryable tiles during the first i actions. */
  function CompletedSweeps(states: seq<State>, actions: seq<Action>, i: nat): nat
    requires i <= |actions| && |states| == |actions| + 1
  {
    if i == 0 then 0
    else
      var a := actions[i - 1];
      CompletedSweeps(states, actions, i - 1) +
      if a.Step? && Pc(states[i - 1], a.p).Looping? && Pc(states[i - 1], a.p).rest == [] then 1 else 0
  }

  lemma {:induction false} DoneCountsSweeps(states: seq<State>, actions: seq<Action>, i: nat)
    requires IsRun(states, actions) && i < |states|
    ensures |states[i].hist.done| == CompletedSweeps(states, actions, i)
  {
    if i > 0 {
      DoneCountsSweeps(states, actions, i - 1);
      TicketedRun(states, actions, i - 1);
      assert StepAt(states, actions, i - 1);
      DoneStep(states[i - 1], actions[i - 1]);
    }
  }

  lemma DoneStep(s: State, a: Action)
    requires Ticketed(s) && Enabled(s, a)
    ensures |Apply(s, a).hist.done| ==
              |s.hist.done| + if a.Step? && Pc(s, a.p).Looping? && Pc(s, a.p).rest == [] then 1 else 0
  {
    if a.Step? && Pc(s, a.p).Looping? && Pc(s, a.p).rest == [] {
      assert ProcTicketed(s, s.procs[a.p]);
    }
  }

  /**
   Main result.  Once MAX_TILE_ATTEMPTS sweeps have completed (one, if MAX_TILE_ATTEMPTS is below
   one), however they overlapped and whatever arrived meanwhile, a job still `processing` has no
   outstanding tile.  The number does not depend on how many tiles the job has.
   */
  lemma NothingOutstanding(states: seq<State>, actions: seq<Action>, i: nat, t: TileId)
    requires IsRun(states, actions) && i < |states|
    requires states[i].job.status == Processing
    requires CompletedSweeps(states, actions, i) >= 1
    requires CompletedSweeps(states, actions, i) >= states[i].cfg.maxAttempts
    requires 0 <= t < states[i].cfg.expected
    ensures t in states[i].job.tiles || t in states[i].job.abandoned
  {
    SettledRun(states, actions, i);
    TicketedRun(states, actions, i);
    DoneCountsSweeps(states, actions, i);
    var s := states[i];
    if IsOutstanding(s, t) {
      var most := if s.cfg.maxAttempts <= 1 then 0 else s.cfg.maxAttempts - 1;
      var slots := EpochSlots(t, 0, most);
      forall w | w in s.hist.done
        ensures exists k :: k in slots && k in s.hist.tickets && s.hist.tickets[k] == w
      {
        assert Served(s, t, w);
        var k :| k in s.hist.tickets && k.tile == t && s.hist.tickets[k] == w && k.value < s.cfg.maxAttempts;
        assert Issued(s, k);
        assert k in slots;
      }
      OwnersFitSlots(s.hist.done, slots, s.hist.tickets);
      assert false;
    }
  }

  // ---------------------------------------------------------------- the next sweep

  /** Enough sweeps have completed: MAX_TILE_ATTEMPTS, and at least one. */
  predicate Ripe(states: seq<State>, actions: seq<Action>, i: nat)
    requires i <= |actions| && |states| == |actions| + 1
  {
    CompletedSweeps(states, actions, i) >= 1 && CompletedSweeps(states, actions, i) >= states[i].cfg.maxAttempts
  }

  lemma {:induction false} RipeStays(states: seq<State>, actions: seq<Action>, i: nat, j: nat)
    requires IsRun(states, actions) && i <= j < |states| && Ripe(states, actions, i)
    ensures Ripe(states, actions, j)
  {
    if i < j {
      RipeStays(states, actions, i, j - 1);
      TicketedRun(states, actions, j - 1);
      TicketedRun(states, actions, j);
    }
  }

  predicate InLoop(pc: Proc) {
    pc.Looping? || pc.Probing? || pc.Producing? || pc.Abandoning?
  }

  /** Every expected tile is held or abandoned. */
  ghost predicate AllSettled(expected: nat, received: set<TileId>, abandoned: set<TileId>) {
    forall t :: 0 <= t < expected ==> t in received || t in abandoned
  }

  /**
   How far such a sweep of p has come.  `held`: it found every tile held.  `late`: the job had left
   `processing` when it read the abandoned set.
   */
  ghost predicate Deciding(s: State, p: ProcId, held: bool, late: bool)
  {
    match Pc(s, p)
    case ReadingTiles => true
    case ReadingAbandoned(received) => s.job.status == Processing ==> AllSettled(s.cfg.expected, received, s.job.abandoned)
    case Degrading => true
    case Sweeping => s.job.status != Processing
    case Idle => s.job.status != Processing || held
    case Looping(_, _) => late && s.job.status != Processing
    case Probing(_, _, _) => late && s.job.status != Processing
    case Producing(_, _, _) => late && s.job.status != Processing
    case Abandoning(_, _, _) => late && s.job.status != Processing
    case _ => false
  }

  /** p reads the tiles and finds all of them. */
  predicate FindsAll(s: State, a: Action, p: ProcId) {
    a.Step? && a.p == p && Pc(s, p).ReadingTiles? && Range(s.cfg.expected) <= s.job.tiles.Keys
  }

  /** p reads the abandoned set when the job has already left `processing`. */
  predicate ReadsLate(s: State, a: Action, p: ProcId) {
    a.Step? && a.p == p && Pc(s, p).ReadingAbandoned? && s.job.status != Processing
  }

  lemma NothingToRetry(expected: nat, received: set<TileId>, abandoned: set<TileId>)
    ensures Outstanding(expected, received, abandoned) == [] <==> AllSettled(expected, received, abandoned)
  {
    var retryable := Outstanding(expected, received, abandoned);
    if retryable != [] {
      assert retryable[0] in retryable;
    } else {
      assert forall t :: 0 <= t < expected && t !in received && t !in abandoned ==> t in retryable;
    }
  }

  /** Steps of other processes. */
  lemma OthersDecide(s: State, a: Action, p: ProcId, held: bool, late: bool)
    requires Settled(s) && Ticketed(s) && Enabled(s, a) && Deciding(s, p, held, late)
    requires Pc(Apply(s, a), p) == Pc(s, p) && Apply(s, a).cfg == s.cfg
    ensures Deciding(Apply(s, a), p, held, late)
  {
    ApplyAdvances(s, a);
  }

  /** The sweep's own steps, up to the reading of the abandoned set. */
  lemma ReadsDecide(s: State, a: Action, p: ProcId, held: bool, late: bool)
    requires Enabled(s, a) && Deciding(s, p, held, late) && a.Step? && a.p == p
    requires Pc(s, p).ReadingTiles? || Pc(s, p).ReadingAbandoned?
    requires s.job.status == Processing ==> AllSettled(s.cfg.expected, s.job.tiles.Keys, s.job.abandoned)
    ensures Deciding(Apply(s, a), p, held || FindsAll(s, a, p), late || ReadsLate(s, a, p))
  {
    if Pc(s, p).ReadingAbandoned? && s.job.status == Processing {
      NothingToRetry(s.cfg.expected, Pc(s, p).received, s.job.abandoned);
    }
  }

  lemma WritesDecide(s: State, a: Action, p: ProcId, held: bool, late: bool)
    requires Enabled(s, a) && Deciding(s, p, held, late) && a.Step? && a.p == p
    requires !Pc(s, p).ReadingTiles? && !Pc(s, p).ReadingAbandoned?
    ensures Deciding(Apply(s, a), p, held, late)
  {
  }

  /** The part of the run from step i to step m is one sweep of p that is not crashed. */
  ghost predicate OneSweep(states: seq<State>, actions: seq<Action>, i: nat, m: nat, p: ProcId)
    requires i <= m <= |actions| && |states| == |actions| + 1
  {
    && Pc(states[i], p).ReadingTiles?
    && (forall k :: i <= k < m ==> !Pc(states[k], p).Idle? && actions[k] != Crash(p))
  }

  ghost predicate FoundAll(states: seq<State>, actions: seq<Action>, i: nat, m: nat, p: ProcId)
    requires i <= m <= |actions| && |states| == |actions| + 1
  {
    exists k :: i <= k < m && FindsAll(states[k], actions[k], p)
  }

  ghost predicate ReadLate(states: seq<State>, actions: seq<Action>, i: nat, m: nat, p: ProcId)
    requires i <= m <= |actions| && |states| == |actions| + 1
  {
    exists k :: i <= k < m && ReadsLate(states[k], actions[k], p)
  }

  lemma DecidingStep(states: seq<State>, actions: seq<Action>, i: nat, m: nat, p: ProcId, held: bool, late: bool)
    requires IsRun(states, actions) && i <= m < |actions| && Ripe(states, actions, i)
    requires Deciding(states[m], p, held, late) && !Pc(states[m], p).Idle? && actions[m] != Crash(p)
    ensures Deciding(states[m + 1], p, held || FindsAll(states[m], actions[m], p), late || ReadsLate(states[m], actions[m], p))
  {
    var s, a := states[m], actions[m];
    SettledRun(states, actions, m);
    TicketedRun(states, actions, m);
    assert StepAt(states, actions, m);
    if a.Step? && a.p == p {
      if Pc(s, p).ReadingTiles? || Pc(s, p).ReadingAbandoned? {
        RipeSettles(states, actions, i, m);
        ReadsDecide(s, a, p, held, late);
      } else {
        WritesDecide(s, a, p, held, late);
      }
    } else {
      OthersMove(s, a, p);
      OthersDecide(s, a, p, held, late);
    }
  }

  lemma OthersMove(s: State, a: Action, p: ProcId)
    requires Enabled(s, a) && !Pc(s, p).Idle? && a != Crash(p) && !(a.Step? && a.p == p)
    ensures Pc(Apply(s, a), p) == Pc(s, p) && Apply(s, a).cfg == s.cfg
  {
  }

  lemma RipeSettles(states: seq<State>, actions: seq<Action>, i: nat, m: nat)
    requires IsRun(states, actions) && i <= m < |states| && Ripe(states, actions, i)
    ensures states[m].job.status == Processing ==>
              AllSettled(states[m].cfg.expected, states[m].job.tiles.Keys, states[m].job.abandoned)
  {
    if states[m].job.status == Processing {
      RipeStays(states, actions, i, m);
      forall t | 0 <= t < states[m].cfg.expected
        ensures t in states[m].job.tiles.Keys || t in states[m].job.abandoned
      {
        NothingOutstanding(states, actions, m, t);
      }
    }
  }

  lemma {:induction false} SweepDecides(states: seq<State>, actions: seq<Action>, i: nat, m: nat, p: ProcId)
    requires IsRun(states, actions) && i <= m < |states| && Ripe(states, actions, i) && OneSweep(states, actions, i, m, p)
    ensures Deciding(states[m], p, FoundAll(states, actions, i, m, p), ReadLate(states, actions, i, m, p))
    decreases m
  {
    if i < m {
      var held, late := FoundAll(states, actions, i, m - 1, p), ReadLate(states, actions, i, m - 1, p);
      SweepDecides(states, actions, i, m - 1, p);
      DecidingStep(states, actions, i, m - 1, p, held, late);
      assert FoundAll(states, actions, i, m, p) <==> held || FindsAll(states[m - 1], actions[m - 1], p);
      assert ReadLate(states, actions, i, m, p) <==> late || ReadsLate(states[m - 1], actions[m - 1], p);
    }
  }

  /**
   Main result.  A sweep that passes the grace check once max(MAX_TILE_ATTEMPTS, 1) sweeps have
   completed, and is not crashed, is the last one to matter: when it ends it has found every tile
   held, or the job has left `processing`.  It retries and requeues nothing, unless the job had
   left `processing` before the sweep read the abandoned set.
   */
  lemma NextSweepDecides(states: seq<State>, actions: seq<Action>, i: nat, j: nat, p: ProcId)
    requires IsRun(states, actions) && i <= j < |states| && Ripe(states, actions, i) && OneSweep(states, actions, i, j, p)
    ensures Pc(states[j], p).Idle? ==> FoundAll(states, actions, i, j, p) || states[j].job.status != Processing
    ensures forall m :: i <= m <= j && InLoop(Pc(states[m], p)) ==>
              states[m].job.status != Processing && ReadLate(states, actions, i, m, p)
  {
    SweepDecides(states, actions, i, j, p);
    forall m | i <= m <= j && InLoop(Pc(states[m], p))
      ensures states[m].job.status != Processing && ReadLate(states, actions, i, m, p)
    {
      SweepDecides(states, actions, i, m, p);
    }
  }
}
