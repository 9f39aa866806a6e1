/**
 When a finished status stays.  Only three commands write the status of a job, and after it has
 left `processing` only a process that had already decided to write, or is about to, can send one.
 */
module TileFinality {
  import opened Collections
  import opened JobRecords
  import opened TileProtocol
  import opened TileCode

  /** The status that the command of `pc` writes. */
  function Written(cfg: Config, pc: Proc): Option<Status> {
    match pc
    case Flipping => Some(if cfg.ml then Completed else Ready)
    case Degrading => Some(Degraded)
    case Rendering => Some(Completed)
    case _ => None
  }

  /** The status that the command of this action writes. */
  function WrittenBy(s: State, a: Action): Option<Status> {
    if a.Step? || a.Resend? then Written(s.cfg, Pc(s, a.p)) else None
  }

  /** In every state an action changes the status exactly by such a write. */
  lemma StatusStep(s: State, a: Action)
    requires Enabled(s, a)
    ensures Apply(s, a).job.status == if WrittenBy(s, a).Some? then WrittenBy(s, a).value else s.job.status
  {
  }

  /** A process that may still come to write a status without looking for `processing` again. */
  predicate MayWrite(pc: Proc) {
    || pc.Flipping?
    || pc.ReadingClock? || pc.ReadingTiles? || pc.ReadingAbandoned? || pc.Degrading?
    || pc.CountingTiles? || pc.Rendering?
  }

  ghost predicate NobodyMayWrite(s: State) {
    forall p :: p in s.procs ==> !MayWrite(s.procs[p])
  }

  /** A process comes to write only from a place where it may, or by starting. */
  lemma NoNewWriter(s: State, a: Action, p: ProcId)
    requires Enabled(s, a) && s.job.status != Processing && !a.Reconstruct?
    requires MayWrite(Pc(Apply(s, a), p))
    ensures MayWrite(Pc(s, p))
  {
  }

  lemma FinishedStep(s: State, a: Action)
    requires Enabled(s, a) && s.job.status != Processing && NobodyMayWrite(s) && !a.Reconstruct?
    ensures Apply(s, a).job.status == s.job.status && NobodyMayWrite(Apply(s, a))
  {
    StatusStep(s, a);
    assert WrittenBy(s, a).Some? ==> MayWrite(Pc(s, a.p));
    forall p | p in Apply(s, a).procs
      ensures !MayWrite(Apply(s, a).procs[p])
    {
      if MayWrite(Pc(Apply(s, a), p)) { NoNewWriter(s, a, p); }
    }
  }

  /**
   Main result.  A status other than `processing` stays for good, whatever is delivered, resent or
   crashes, once no process is between its check and its write, and unless a /reconstruct starts.
   */
  lemma {:induction false} FinishedStays(states: seq<State>, actions: seq<Action>, i: nat, j: nat)
    requires IsRun(states, actions) && i <= j < |states|
    requires states[i].job.status != Processing && NobodyMayWrite(states[i])
    requires forall k :: i <= k < j ==> !actions[k].Reconstruct?
    ensures states[j].job.status == states[i].job.status && NobodyMayWrite(states[j])
  {
    if i < j {
      FinishedStays(states, actions, i, j - 1);
      assert StepAt(states, actions, j - 1);
      FinishedStep(states[j - 1], actions[j - 1]);
    }
  }

  // ---------------------------------------------------------------- what a process can still write

  /** What process p writes if it goes on from here without interruption. */
  function WillWrite(s: State, p: ProcId): Option<Status> {
    var received := s.job.tiles.Keys;
    var pc := Pc(s, p);
    match pc
    case Flipping => Written(s.cfg, pc)
    case Degrading => Written(s.cfg, pc)
    case Rendering => Written(s.cfg, pc)
    case CountingTiles => if |s.job.tiles| >= s.cfg.expected then Some(Completed) else None
    case ReadingAbandoned(earlier) => if Outstanding(s.cfg.expected, earlier, s.job.abandoned) == [] then Some(Degraded) else None
    case ReadingTiles => if GivesUp(s) then Some(Degraded) else None
    case ReadingClock => if GivesUp(s) then Some(Degraded) else None
    case _ => None
  }

  /** A tile is missing, and every missing tile is abandoned. */
  predicate GivesUp(s: State) {
    && !(Range(s.cfg.expected) <= s.job.tiles.Keys)
    && Outstanding(s.cfg.expected, s.job.tiles.Keys, s.job.abandoned) == []
  }

  ghost predicate OwnSteps(actions: seq<Action>, p: ProcId) {
    forall a :: a in actions ==> a.Step? && a.p == p
  }

  /** p will not change the status by itself. */
  predicate Harmless(s: State, p: ProcId) {
    WillWrite(s, p) == None || WillWrite(s, p) == Some(s.job.status)
  }

  /** In a finished job a process that will not change the status by itself does not come to. */
  lemma HarmlessStep(s: State, a: Action)
    requires Enabled(s, a) && a.Step? && s.job.status != Processing && Harmless(s, a.p)
    ensures Apply(s, a).job.status == s.job.status && Harmless(Apply(s, a), a.p)
  {
    var pc := Pc(s, a.p);
    if pc.ReadingClock? || pc.ReadingTiles? || pc.ReadingAbandoned? {
      HarmlessSweep(s, a);
    } else if Written(s.cfg, pc).Some? {
      HarmlessWrite(s, a);
    } else if pc.Looping? || pc.Probing? || pc.Producing? || pc.Abandoning? {
      HarmlessLoop(s, a);
    } else {
      HarmlessOther(s, a);
    }
  }

  lemma HarmlessSweep(s: State, a: Action)
    requires Enabled(s, a) && a.Step? && Harmless(s, a.p) && s.job.status != Processing
    requires var pc := Pc(s, a.p); pc.ReadingClock? || pc.ReadingTiles? || pc.ReadingAbandoned?
    ensures Apply(s, a).job == s.job && Harmless(Apply(s, a), a.p)
  {
  }

  lemma HarmlessWrite(s: State, a: Action)
    requires Enabled(s, a) && a.Step? && Harmless(s, a.p)
    requires var pc := Pc(s, a.p); pc.Flipping? || pc.Degrading? || pc.Rendering?
    ensures Apply(s, a).job.status == s.job.status && Harmless(Apply(s, a), a.p)
  {
  }

  lemma HarmlessLoop(s: State, a: Action)
    requires Enabled(s, a) && a.Step?
    requires var pc := Pc(s, a.p); pc.Looping? || pc.Probing? || pc.Producing? || pc.Abandoning?
    ensures Apply(s, a).job.status == s.job.status && Harmless(Apply(s, a), a.p)
  {
  }

  lemma HarmlessOther(s: State, a: Action)
    requires Enabled(s, a) && a.Step? && Harmless(s, a.p) && s.job.status != Processing
    requires var pc := Pc(s, a.p);
             && !pc.ReadingClock? && !pc.ReadingTiles? && !pc.ReadingAbandoned? && Written(s.cfg, pc).None?
             && !pc.Looping? && !pc.Probing? && !pc.Producing? && !pc.Abandoning?
    ensures Apply(s, a).job.status == s.job.status && Harmless(Apply(s, a), a.p)
  {
    assert Apply(s, a).procs[a.p] == Successor(s, Pc(s, a.p), a.yes);
  }

  lemma {:induction false} OwnStepsKeep(s: State, p: ProcId, actions: seq<Action>)
    requires s.job.status != Processing && OwnSteps(actions, p) && From(s, actions).Some? && Harmless(s, p)
    ensures From(s, actions).value.job.status == s.job.status && Harmless(From(s, actions).value, p)
  {
    if actions != [] {
      var n := |actions| - 1;
      assert actions[n] in actions && forall a :: a in actions[..n] ==> a in actions;
      OwnStepsKeep(s, p, actions[..n]);
      HarmlessStep(From(s, actions[..n]).value, actions[n]);
    }
  }

  /** The process gets there. */
  lemma OwnStepsWrite(s: State, p: ProcId) returns (actions: seq<Action>, u: State)
    requires WillWrite(s, p).Some?
    ensures OwnSteps(actions, p) && From(s, actions) == Some(u)
    ensures u.job.status == WillWrite(s, p).value
  {
    actions, u := [], s;
    if Pc(s, p).ReadingClock? {
      actions, u := Take(s, actions, u, Do(p));
      assert u == With(s, p, s.job, s.hist, ReadingTiles);
    }
    if Pc(u, p).ReadingTiles? {
      actions, u := TilesWrite(s, actions, u, p);
    } else if Pc(u, p).ReadingAbandoned? {
      actions, u := AbandonedWrite(s, actions, u, p);
    } else {
      actions, u := OthersWrite(s, actions, u, p);
    }
  }

  lemma TilesWrite(s: State, before: seq<Action>, u: State, p: ProcId) returns (actions: seq<Action>, u': State)
    requires From(s, before) == Some(u) && OwnSteps(before, p) && p in u.procs && u.procs[p].ReadingTiles? && GivesUp(u)
    ensures From(s, actions) == Some(u') && OwnSteps(actions, p) && u'.job.status == Degraded
  {
    actions, u' := Take(s, before, u, Do(p));
    assert u' == With(u, p, u.job, u.hist, ReadingAbandoned(u.job.tiles.Keys));
    actions, u' := AbandonedWrite(s, actions, u', p);
  }

  lemma AbandonedWrite(s: State, before: seq<Action>, u: State, p: ProcId) returns (actions: seq<Action>, u': State)
    requires From(s, before) == Some(u) && OwnSteps(before, p) && p in u.procs && u.procs[p].ReadingAbandoned?
    requires Outstanding(u.cfg.expected, u.procs[p].received, u.job.abandoned) == []
    ensures From(s, actions) == Some(u') && OwnSteps(actions, p) && u'.job.status == Degraded
  {
    actions, u' := Take(s, before, u, Do(p));
    assert u' == With(u, p, u.job, u.hist, Degrading);
    actions, u' := Take(s, actions, u', Do(p));
  }

  lemma OthersWrite(s: State, before: seq<Action>, u: State, p: ProcId) returns (actions: seq<Action>, u': State)
    requires From(s, before) == Some(u) && OwnSteps(before, p) && WillWrite(u, p).Some?
    requires var pc := Pc(u, p); pc.Flipping? || pc.Degrading? || pc.Rendering? || pc.CountingTiles?
    ensures From(s, actions) == Some(u') && OwnSteps(actions, p) && u'.job.status == WillWrite(u, p).value
  {
    actions, u' := before, u;
    if Pc(u, p).CountingTiles? {
      actions, u' := Take(s, actions, u', Do(p));
      assert u' == With(u, p, u.job, u.hist, Rendering);
    }
    actions, u' := Take(s, actions, u', Do(p));
  }

  /**
   Main result.  In a finished job process p can overwrite the status by its own next steps exactly
   when WillWrite says so: it is about to flip, degrade or complete the job, or it is in a sweep
   that finds every missing tile abandoned, or in a /reconstruct that finds enough tiles.
   */
  lemma OverwritesExactly(s: State, p: ProcId)
    requires s.job.status != Processing
    ensures (exists actions :: OwnSteps(actions, p) && From(s, actions).Some?
                               && From(s, actions).value.job.status != s.job.status)
            <==> WillWrite(s, p).Some? && WillWrite(s, p).value != s.job.status
  {
    if WillWrite(s, p).Some? && WillWrite(s, p).value != s.job.status {
      var actions, u := OwnStepsWrite(s, p);
    } else {
      assert Harmless(s, p);
      forall actions | OwnSteps(actions, p) && From(s, actions).Some?
        ensures From(s, actions).value.job.status == s.job.status
      {
        OwnStepsKeep(s, p, actions);
      }
    }
  }
}
