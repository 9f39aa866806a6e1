/** When two replicas can both take themselves for the leader, over every run of LeaderLease. */
module LeaderExclusion {
  import opened Collections
  import opened LeaderLease

  /** Of two replicas, the one whose term is over. */
  function Older(a: Replica, b: Replica): Replica {
    if a.term < b.term then a else b
  }

  function Younger(a: Replica, b: Replica): Replica {
    if a.term < b.term then b else a
  }

  /** The reply of rep's own release, which executed before t, was lost; rep goes on until its deadline. */
  predicate ReleasedUnseen(rep: Replica, t: real) {
    rep.pc.ReleaseLost? && rep.pc.at <= t && rep.expiresAt <= rep.pc.at + TTL
  }

  /**
   Main result.  When two replicas answer is_leader() with True at the same time, then the later of
   their two SETs executed at most `delay` ago, whether the older lease expired or was released; or
   the older leader released the lock after an error and never got the reply, and then it goes on
   until its own deadline, less than TTL after the later SET.
   */
  lemma LeadersOverlapOnlyWithinDelay(states: seq<State>, actions: seq<Action>, i: nat, r: Token, q: Token)
    requires IsRun(states, actions) && i < |states|
    requires r != q && IsLeader(states[i], r) && IsLeader(states[i], q)
    ensures var s := states[i];
            var older, younger := Older(s.replicas[r], s.replicas[q]), Younger(s.replicas[r], s.replicas[q]);
            && older.term < younger.term
            && (ReleasedUnseen(older, younger.acquiredAt) || (s.delay > 0.0 && s.now <= younger.acquiredAt + s.delay))
            && (ReleasedUnseen(older, younger.acquiredAt) ==> s.now < older.expiresAt <= younger.acquiredAt + TTL)
  {
    InvRun(states, actions, i);
    var s := states[i];
    assert Sane(s, s.replicas[r]) && Sane(s, s.replicas[q]);
    if s.replicas[r].term < s.replicas[q].term {
      assert OverBy(s.delay, s.replicas[r], s.replicas[q].acquiredAt);
    } else {
      assert OverBy(s.delay, s.replicas[q], s.replicas[r].acquiredAt);
    }
  }

  /** No reply of a release gets lost. */
  ghost predicate SeesReleases(states: seq<State>, actions: seq<Action>)
    requires IsRun(states, actions)
  {
    forall k :: 0 <= k < |actions| ==> !LosesRelease(states[k], actions[k])
  }

  predicate LosesRelease(s: State, a: Action) {
    a.Lose? && a.r in s.replicas && s.replicas[a.r].pc.ReleaseDone?
  }

  lemma {:induction false} NothingUnseen(states: seq<State>, actions: seq<Action>, i: nat, r: Token)
    requires IsRun(states, actions) && SeesReleases(states, actions) && i < |states| && r in states[i].replicas
    ensures !states[i].replicas[r].pc.ReleaseLost?
  {
    if i > 0 {
      assert StepAt(states, actions, i - 1);
      assert !LosesRelease(states[i - 1], actions[i - 1]);
      if r in states[i - 1].replicas {
        NothingUnseen(states, actions, i - 1, r);
      }
    }
  }

  lemma AcquireStep(s: State, a: Action, r: Token)
    requires Enabled(s, a) && r in Apply(s, a).replicas && Apply(s, a).replicas[r].term > 0
    ensures var rep' := Apply(s, a).replicas[r];
            || (&& r in s.replicas && s.replicas[r].term > 0 && rep'.acquiredAt == s.replicas[r].acquiredAt)
            || (&& a == Execute(r) && r in s.replicas && s.replicas[r].pc.SetSent? && !Held(s)
                && HeldBy(Apply(s, a), r) && rep'.acquiredAt == s.now)
  {
  }

  /** acquiredAt is what it says: the time of the replica's last successful SET. */
  lemma {:induction false} AcquiredAtIsTrue(states: seq<State>, actions: seq<Action>, i: nat, r: Token) returns (k: nat)
    requires IsRun(states, actions) && i < |states| && r in states[i].replicas && states[i].replicas[r].term > 0
    ensures k < i && actions[k] == Execute(r) && r in states[k].replicas && states[k].replicas[r].pc.SetSent?
    ensures !Held(states[k]) && HeldBy(states[k + 1], r)
    ensures states[k].now == states[i].replicas[r].acquiredAt
  {
    var s, a := states[i - 1], actions[i - 1];
    assert StepAt(states, actions, i - 1);
    AcquireStep(s, a, r);
    if r in s.replicas && s.replicas[r].term > 0 && states[i].replicas[r].acquiredAt == s.replicas[r].acquiredAt {
      k := AcquiredAtIsTrue(states, actions, i - 1, r);
    } else {
      k := i - 1;
    }
  }

  // ---------------------------------------------------------------- the delay is what matters

  lemma Extend(states: seq<State>, actions: seq<Action>, a: Action) returns (states': seq<State>, actions': seq<Action>)
    requires IsRun(states, actions) && Enabled(states[|actions|], a)
    ensures IsRun(states', actions') && actions' == actions + [a] && states'[0] == states[0]
    ensures states'[|actions'|] == Apply(states[|actions|], a)
  {
    states', actions' := states + [Apply(states[|actions|], a)], actions + [a];
    forall i | 0 <= i < |actions'| ensures StepAt(states', actions', i) {
      if i < |actions| {
        assert StepAt(states, actions, i);
      }
    }
  }

  /** A fresh system. */
  function Fresh(delay: real): State {
    State(delay, 0.0, None, map[], 0, 0.0)
  }

  /** Replica 0 becomes leader; its reply takes `lag`. */
  lemma FirstLeads(delay: real, lag: real) returns (states: seq<State>, actions: seq<Action>)
    requires 0.0 <= lag <= delay
    ensures IsRun(states, actions) && states[0] == Fresh(delay) && forall a :: a in actions ==> !a.Lose?
    ensures states[|actions|] == State(delay, lag, Some(Lock(0, TTL)),
                                       map[0 := Replica(Sleeping, true, lag + TTL, 1, 0.0),
                                           1 := Replica(Sleeping, false, 0.0, 0, 0.0)], 1, 0.0)
  {
    states, actions := [Fresh(delay)], [];
    states, actions := Extend(states, actions, Join(0));
    states, actions := Extend(states, actions, Join(1));
    states, actions := Extend(states, actions, Send(0));
    states, actions := Extend(states, actions, Execute(0));
    if lag > 0.0 {
      states, actions := Extend(states, actions, Tick(lag));
    }
    states, actions := Extend(states, actions, Reply(0));
  }

  /** Replica 1 finds the lock free and becomes leader at once. */
  lemma SecondLeads(states: seq<State>, actions: seq<Action>) returns (states': seq<State>, actions': seq<Action>)
    requires IsRun(states, actions)
    requires var s := states[|actions|];
             && 1 in s.replicas && s.replicas[1].pc.Sleeping? && !s.replicas[1].flag && !Held(s)
             && forall q :: q in s.replicas ==> Pending(s.replicas[q].pc).None?
    ensures IsRun(states', actions') && states'[0] == states[0]
    ensures (forall a :: a in actions ==> !a.Lose?) ==> forall a :: a in actions' ==> !a.Lose?
    ensures var s, s' := states[|actions|], states'[|actions'|];
            && s'.now == s'.acquiredAt == s.now
            && s'.replicas == s.replicas[1 := Replica(Sleeping, true, s.now + TTL, s.term + 1, s.now)]
  {
    states', actions' := Extend(states, actions, Send(1));
    states', actions' := Extend(states', actions', Execute(1));
    states', actions' := Extend(states', actions', Reply(1));
    var s, s' := states[|actions|], states'[|actions'|];
    assert s'.replicas == s.replicas[1 := s'.replicas[1]];
  }

  /**
   The bound is not an artefact: as soon as replies take any time at all, there is a run in which
   two replicas are leader at once, with no reply lost.  The first one's deadline is read when its
   reply arrives, so it lies that much behind the expiry of the key.
   */
  lemma TwoLeadersWheneverDelayed(delay: real) returns (states: seq<State>, actions: seq<Action>, i: nat)
    requires delay > 0.0
    ensures IsRun(states, actions) && i < |states| && states[0].delay == delay && SeesReleases(states, actions)
    ensures IsLeader(states[i], 0) && IsLeader(states[i], 1)
  {
    var lag := if delay < 1.0 then delay else 1.0;
    states, actions := FirstLeads(delay, lag);
    states, actions := Extend(states, actions, Tick(TTL - lag));
    states, actions := SecondLeads(states, actions);
    i := |actions|;
    assert forall k :: 0 <= k < |actions| ==> actions[k] in actions;
  }

  /**
   A lost reply of a release costs up to a whole lease, whatever the delay: the first leader's
   renewal fails, its release executes, and it goes on leading beside its successor.
   */
  lemma LostReleaseMakesTwoLeaders(delay: real, overlap: real) returns (states: seq<State>, actions: seq<Action>, i: nat)
    requires delay >= 0.0 && 0.0 < overlap < TTL
    ensures IsRun(states, actions) && i < |states| && states[0].delay == delay
    ensures IsLeader(states[i], 0) && IsLeader(states[i], 1)
    ensures states[i].now == states[i].replicas[1].acquiredAt + overlap
  {
    states, actions := FirstLeads(delay, 0.0);
    states, actions := Extend(states, actions, Send(0));
    states, actions := Extend(states, actions, Fail(0));
    states, actions := Extend(states, actions, Execute(0));
    states, actions := Extend(states, actions, Lose(0));
    states, actions := SecondLeads(states, actions);
    states, actions := Extend(states, actions, Tick(overlap));
    i := |actions|;
  }

  /** Two replicas lead at once somewhere in this run. */
  ghost predicate TwoLeaders(states: seq<State>) {
    exists i, r, q :: 0 <= i < |states| && r != q && IsLeader(states[i], r) && IsLeader(states[i], q)
  }

  /**
   Main result.  Mutual exclusion holds in all runs with a given delay that lose no reply of a
   release exactly when the delay is zero.
   */
  lemma ExclusiveExactlyWithoutDelay(delay: real)
    requires delay >= 0.0
    ensures (forall states: seq<State>, actions: seq<Action> ::
               IsRun(states, actions) && SeesReleases(states, actions) && states[0].delay == delay ==> !TwoLeaders(states))
            <==> delay == 0.0
  {
    if delay > 0.0 {
      var states, actions, i := TwoLeadersWheneverDelayed(delay);
      assert TwoLeaders(states);
    } else {
      forall states: seq<State>, actions: seq<Action>
        | IsRun(states, actions) && SeesReleases(states, actions) && states[0].delay == delay
        ensures !TwoLeaders(states)
      {
        if TwoLeaders(states) {
          var i, r, q :| 0 <= i < |states| && r != q && IsLeader(states[i], r) && IsLeader(states[i], q);
          LeadersOverlapOnlyWithinDelay(states, actions, i, r, q);
          NothingUnseen(states, actions, i, r);
          NothingUnseen(states, actions, i, q);
          InvRun(states, actions, i);
        }
      }
    }
  }
}
