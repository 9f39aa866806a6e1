/**
 app/leader.py: leader election over one Redis lock, as a timed protocol.

 Any number of replicas send SET NX PX, the renewal script and the release script; sending a
 command, its execution by Redis, and the assignment that follows the reply are separate events.
 Clocks run at equal rate.  A reply that arrives is processed within `delay` of the execution;
 it may also be lost, and then an exception follows at any later time.  A command executes
 between its sending and the return to the client, never afterwards.
 */
module LeaderLease {
  import opened Collections

  /** LEADER_TTL_MS, in seconds. */
  const TTL := 2.0

  /** The random token of one process. */
  type Token = nat

  datatype Pc =
    | Sleeping
    | SetSent | SetDone(at: real, acquired: bool) | SetLost
    | RenewSent | RenewDone(at: real, renewed: bool) | RenewLost
    | ReleaseSent | ReleaseDone(at: real) | ReleaseLost(at: real)
    | Dead

  /** `flag` and `expiresAt` are _is_leader and _expires_at; `term` and `acquiredAt` are history. */
  datatype Replica = Replica(pc: Pc, flag: bool, expiresAt: real, term: nat, acquiredAt: real)

  datatype Lock = Lock(owner: Token, expires: real)

  /** `term` numbers the successful SETs, the last of which executed at `acquiredAt`. */
  datatype State = State(
    delay: real, now: real, lock: Option<Lock>, replicas: map<Token, Replica>,
    term: nat, acquiredAt: real)

  datatype Action =
    | Tick(dt: real)
    | Join(r: Token)
    | Send(r: Token)
    | Execute(r: Token)
    | Reply(r: Token)
    | Lose(r: Token)
    | Fail(r: Token)
    | Crash(r: Token)

  predicate Initial(s: State) {
    s.delay >= 0.0 && s.lock == None && s.replicas == map[] && s.term == 0 && s.acquiredAt <= s.now
  }

  predicate IsLeader(s: State, r: Token) {
    r in s.replicas && s.replicas[r].flag && s.now < s.replicas[r].expiresAt
  }

  /** The value that GET finds: an expired key is no key. */
  predicate Held(s: State) {
    s.lock.Some? && s.now < s.lock.value.expires
  }

  predicate HeldBy(s: State, r: Token) {
    Held(s) && s.lock.value.owner == r
  }

  /** When the command executed whose reply is still under way. */
  function Pending(pc: Pc): Option<real> {
    match pc
    case SetDone(at, _) => Some(at)
    case RenewDone(at, _) => Some(at)
    case ReleaseDone(at) => Some(at)
    case _ => None
  }

  /** Every reply under way may take until time t. */
  predicate InTime(s: State, t: real) {
    forall q :: q in s.replicas && Pending(s.replicas[q].pc).Some? ==> t <= Pending(s.replicas[q].pc).value + s.delay
  }

  /** A reply that has used up its delay is processed before anything else executes. */
  predicate NoneDue(s: State) {
    forall q :: q in s.replicas && Pending(s.replicas[q].pc).Some? ==> s.now < Pending(s.replicas[q].pc).value + s.delay
  }

  predicate Enabled(s: State, a: Action)
  {
    match a
    case Tick(dt) => dt > 0.0 && InTime(s, s.now + dt)
    case Join(r) => r !in s.replicas
    case Send(r) => r in s.replicas && s.replicas[r].pc.Sleeping?
    case Execute(r) =>
      && r in s.replicas && NoneDue(s)
      && (s.replicas[r].pc.SetSent? || s.replicas[r].pc.RenewSent? || s.replicas[r].pc.ReleaseSent?)
    case Reply(r) => r in s.replicas && Pending(s.replicas[r].pc).Some?
    case Lose(r) => r in s.replicas && Pending(s.replicas[r].pc).Some?
    case Fail(r) => r in s.replicas && !s.replicas[r].pc.Sleeping? && !s.replicas[r].pc.Dead?
    case Crash(r) => r in s.replicas
  }

  /** The command of r executes on the server. */
  function Executed(s: State, r: Token): State
    requires r in s.replicas
  {
    var rep := s.replicas[r];
    match rep.pc
    case SetSent =>
      if Held(s) then s.(replicas := s.replicas[r := rep.(pc := SetDone(s.now, false))])
      else
        s.(lock := Some(Lock(r, s.now + TTL)), term := s.term + 1, acquiredAt := s.now,
           replicas := s.replicas[r := rep.(pc := SetDone(s.now, true), term := s.term + 1, acquiredAt := s.now)])
    case RenewSent =>
      if HeldBy(s, r) then
        s.(lock := Some(Lock(r, s.now + TTL)), replicas := s.replicas[r := rep.(pc := RenewDone(s.now, true))])
      else s.(replicas := s.replicas[r := rep.(pc := RenewDone(s.now, false))])
    case ReleaseSent =>
      s.(lock := if HeldBy(s, r) then None else s.lock, replicas := s.replicas[r := rep.(pc := ReleaseDone(s.now))])
    case _ => s
  }

  /** The client has its reply: the assignments of the loop body. */
  function Replied(now: real, rep: Replica): Replica
  {
    match rep.pc
    case SetDone(_, acquired) =>
      if acquired then rep.(pc := Sleeping, flag := true, expiresAt := now + TTL) else rep.(pc := Sleeping)
    case RenewDone(_, renewed) =>
      if renewed then rep.(pc := Sleeping, expiresAt := now + TTL)
      else rep.(pc := Sleeping, flag := false, expiresAt := 0.0)
    case ReleaseDone(_) => rep.(pc := Sleeping, flag := false, expiresAt := 0.0)
    case _ => rep
  }

  /** An exception: release first if leader, then step down. */
  function Failed(rep: Replica): Replica
  {
    if rep.flag && (rep.pc.RenewSent? || rep.pc.RenewDone? || rep.pc.RenewLost?) then rep.(pc := ReleaseSent)
    else rep.(pc := Sleeping, flag := false, expiresAt := 0.0)
  }

  /** The reply never arrives; the client waits until it gives up. */
  function Lost(pc: Pc): Pc
  {
    match pc
    case SetDone(_, _) => SetLost
    case RenewDone(_, _) => RenewLost
    case ReleaseDone(at) => ReleaseLost(at)
    case _ => pc
  }

  function Apply(s: State, a: Action): State
    requires Enabled(s, a)
  {
    match a
    case Tick(dt) => s.(now := s.now + dt)
    case Join(r) => s.(replicas := s.replicas[r := Replica(Sleeping, false, 0.0, 0, s.now)])
    case Send(r) =>
      var rep := s.replicas[r];
      s.(replicas := s.replicas[r := rep.(pc := if rep.flag then RenewSent else SetSent)])
    case Execute(r) => Executed(s, r)
    case Reply(r) => s.(replicas := s.replicas[r := Replied(s.now, s.replicas[r])])
    case Lose(r) =>
      s.(replicas := s.replicas[r := s.replicas[r].(pc := Lost(s.replicas[r].pc))])
    case Fail(r) => s.(replicas := s.replicas[r := Failed(s.replicas[r])])
    case Crash(r) => s.(replicas := s.replicas[r := s.replicas[r].(pc := Dead, flag := false)])
  }

  /** actions[i] leads from states[i] to states[i + 1]. */
  ghost predicate StepAt(states: seq<State>, actions: seq<Action>, i: nat)
    requires i < |actions| && |states| == |actions| + 1
  {
    Enabled(states[i], actions[i]) && states[i + 1] == Apply(states[i], actions[i])
  }

  ghost predicate IsRun(states: seq<State>, actions: seq<Action>)
  {
    && |states| == |actions| + 1
    && Initial(states[0])
    && forall i :: 0 <= i < |actions| ==> StepAt(states, actions, i)
  }

  // ---------------------------------------------------------------- the invariant

  /** Program counters, flags and clocks of one replica. */
  ghost predicate Sane(s: State, rep: Replica)
  {
    && rep.term <= s.term && rep.acquiredAt <= s.now
    && (rep.term > 0 ==> rep.acquiredAt <= s.acquiredAt)
    && (rep.flag ==> rep.term > 0)
    && (rep.pc.SetSent? || rep.pc.SetDone? || rep.pc.SetLost? || rep.pc.Dead? ==> !rep.flag)
    && (rep.pc.RenewSent? || rep.pc.RenewDone? || rep.pc.RenewLost? ==> rep.flag)
    && (rep.pc.ReleaseSent? || rep.pc.ReleaseDone? || rep.pc.ReleaseLost? ==> rep.flag)
    && (rep.flag ==> rep.expiresAt <= s.now + TTL)
    && (Released(rep.pc).Some? ==> Released(rep.pc).value <= s.now && rep.expiresAt <= Released(rep.pc).value + TTL)
    && (rep.pc.SetDone? && rep.pc.acquired ==> rep.term > 0)
    && (Pending(rep.pc).Some? ==> Pending(rep.pc).value <= s.now <= Pending(rep.pc).value + s.delay)
  }

  /** When the release executed whose reply the client has not seen. */
  function Released(pc: Pc): Option<real> {
    match pc
    case ReleaseDone(at) => Some(at)
    case ReleaseLost(at) => Some(at)
    case _ => None
  }

  /** A grant of the lock whose reply is still under way. */
  predicate Granted(pc: Pc) {
    (pc.SetDone? && pc.acquired) || (pc.RenewDone? && pc.renewed)
  }

  /**
   Everything rep may still believe ends at most `delay` after time t, or ends with a release under
   way since before t, or the reply of a release before t was lost.
   */
  ghost predicate OverBy(delay: real, rep: Replica, t: real)
  {
    && (rep.flag ==>
          || rep.expiresAt <= t + delay
          || (rep.pc.ReleaseDone? && rep.pc.at <= t < rep.pc.at + delay)
          || (rep.pc.ReleaseLost? && rep.pc.at <= t))
    && (Granted(rep.pc) ==> Pending(rep.pc).value + TTL <= t)
  }

  /** The holder of the current term: its beliefs are covered by the key, or it has released it. */
  ghost predicate Current(s: State, rep: Replica)
  {
    if s.lock.Some? then
      && (rep.flag ==> rep.expiresAt <= s.lock.value.expires + s.delay)
      && (Granted(rep.pc) ==> Pending(rep.pc).value + TTL <= s.lock.value.expires)
    else
      && (rep.flag ==> Released(rep.pc).Some?)
      && !Granted(rep.pc)
  }

  ghost predicate Inv(s: State)
  {
    && s.delay >= 0.0 && s.acquiredAt <= s.now
    && (forall r :: r in s.replicas ==> Sane(s, s.replicas[r]))
    && (s.lock.Some? ==>
          && s.lock.value.owner in s.replicas && s.replicas[s.lock.value.owner].term == s.term && s.term > 0
          && s.lock.value.expires <= s.now + TTL)
    && (forall r, q :: r in s.replicas && q in s.replicas && r != q && s.replicas[r].term == s.replicas[q].term ==>
          s.replicas[r].term == 0)
    && (forall r :: r in s.replicas && s.replicas[r].term == s.term > 0 ==> Current(s, s.replicas[r]))
    && (forall r :: r in s.replicas && 0 < s.replicas[r].term < s.term ==> OverBy(s.delay, s.replicas[r], s.acquiredAt))
    && (forall r, q :: r in s.replicas && q in s.replicas && 0 < s.replicas[r].term < s.replicas[q].term ==>
          OverBy(s.delay, s.replicas[r], s.replicas[q].acquiredAt))
  }

  /** Only replica r changes, and it keeps its term: earlier terms stay over. */
  lemma PairsKept(s: State, s': State, r: Token)
    requires Inv(s) && r in s.replicas && s'.delay == s.delay
    requires s'.replicas.Keys == s.replicas.Keys && forall q :: q in s.replicas && q != r ==> s'.replicas[q] == s.replicas[q]
    requires s'.replicas[r].term == s.replicas[r].term && s'.replicas[r].acquiredAt == s.replicas[r].acquiredAt
    requires s.replicas[r].term == s.term
             || forall t :: t <= s.now && OverBy(s.delay, s.replicas[r], t) ==> OverBy(s.delay, s'.replicas[r], t)
    ensures forall p, q :: p in s'.replicas && q in s'.replicas && 0 < s'.replicas[p].term < s'.replicas[q].term ==>
              OverBy(s'.delay, s'.replicas[p], s'.replicas[q].acquiredAt)
  {
    forall p, q | p in s'.replicas && q in s'.replicas && 0 < s'.replicas[p].term < s'.replicas[q].term
      ensures OverBy(s'.delay, s'.replicas[p], s'.replicas[q].acquiredAt)
    {
      assert OverBy(s.delay, s.replicas[p], s.replicas[q].acquiredAt);
      assert Sane(s, s.replicas[q]);
    }
  }

  /** The same for program counters and for the current holder, which alone may change the lock. */
  lemma OthersKept(s: State, s': State, r: Token)
    requires Inv(s) && r in s.replicas && r in s'.replicas
    requires s' == s.(lock := s'.lock, replicas := s.replicas[r := s'.replicas[r]])
    requires s'.lock == s.lock || s.replicas[r].term == s.term > 0
    requires s'.replicas[r].term == s.replicas[r].term && Sane(s, s'.replicas[r])
    requires s.replicas[r].term == s.term > 0 ==> Current(s', s'.replicas[r])
    ensures forall q :: q in s'.replicas ==> Sane(s', s'.replicas[q])
    ensures forall q :: q in s'.replicas && s'.replicas[q].term == s'.term > 0 ==> Current(s', s'.replicas[q])
  {
    forall q | q in s'.replicas
      ensures Sane(s', s'.replicas[q])
      ensures s'.replicas[q].term == s'.term > 0 ==> Current(s', s'.replicas[q])
    {
      assert Sane(s, if q == r then s'.replicas[r] else s.replicas[q]);
    }
  }

  /** One replica changes, keeping its term: the obligations that remain. */
  lemma InvUpdate(s: State, s': State, r: Token)
    requires Inv(s) && r in s.replicas
    requires r in s'.replicas && s' == s.(replicas := s.replicas[r := s'.replicas[r]])
    requires var rep, rep' := s.replicas[r], s'.replicas[r];
             && rep'.term == rep.term && rep'.acquiredAt == rep.acquiredAt
             && Sane(s, rep')
             && (rep.term == s.term > 0 ==> Current(s, rep'))
             && (forall t :: t <= s.now && OverBy(s.delay, rep, t) ==> OverBy(s.delay, rep', t))
    ensures Inv(s')
  {
    OthersKept(s, s', r);
    PairsKept(s, s', r);
  }

  lemma InvReply(s: State, r: Token)
    requires Inv(s) && Enabled(s, Reply(r))
    ensures Inv(Apply(s, Reply(r)))
  {
    assert Sane(s, s.replicas[r]);
    InvUpdate(s, Apply(s, Reply(r)), r);
  }

  lemma InvFail(s: State, r: Token)
    requires Inv(s) && Enabled(s, Fail(r))
    ensures Inv(Apply(s, Fail(r)))
  {
    assert Sane(s, s.replicas[r]);
    InvUpdate(s, Apply(s, Fail(r)), r);
  }

  lemma InvTick(s: State, dt: real)
    requires Inv(s) && Enabled(s, Tick(dt))
    ensures Inv(Apply(s, Tick(dt)))
  {
    var s' := Apply(s, Tick(dt));
    forall q | q in s'.replicas ensures Sane(s', s'.replicas[q]) {
      assert Sane(s, s.replicas[q]);
    }
    forall q | q in s'.replicas && s'.replicas[q].term == s'.term > 0 ensures Current(s', s'.replicas[q]) {
      assert Current(s, s.replicas[q]);
    }
  }

  lemma InvJoin(s: State, r: Token)
    requires Inv(s) && Enabled(s, Join(r))
    ensures Inv(Apply(s, Join(r)))
  {
    var s' := Apply(s, Join(r));
    forall q | q in s'.replicas ensures Sane(s', s'.replicas[q]) {
      if q != r { assert Sane(s, s.replicas[q]); }
    }
    forall q | q in s'.replicas && s'.replicas[q].term == s'.term > 0 ensures Current(s', s'.replicas[q]) {
      assert Current(s, s.replicas[q]);
    }
  }

  /** While the lock is free, every replica's tenure is over by now plus the delay. */
  lemma OverByNow(s: State, q: Token)
    requires Inv(s) && NoneDue(s) && !Held(s)
    requires q in s.replicas && s.replicas[q].term > 0
    ensures OverBy(s.delay, s.replicas[q], s.now)
  {
    var rep := s.replicas[q];
    assert Sane(s, rep);
    if rep.term == s.term {
      assert Current(s, rep);
    } else {
      assert OverBy(s.delay, rep, s.acquiredAt);
    }
  }

  lemma InvAcquire(s: State, r: Token)
    requires Inv(s) && Enabled(s, Execute(r)) && s.replicas[r].pc.SetSent? && !Held(s)
    ensures Inv(Executed(s, r))
  {
    var s' := Executed(s, r);
    AcquirerSane(s, r);
    forall q | q in s.replicas && q != r
      ensures s'.replicas[q] == s.replicas[q] && Sane(s', s.replicas[q]) && s.replicas[q].term < s'.term
      ensures s.replicas[q].term > 0 ==> OverBy(s.delay, s.replicas[q], s.now)
    {
      assert Sane(s, s.replicas[q]);
      if s.replicas[q].term > 0 { OverByNow(s, q); }
    }
    AcquirePairs(s, r);
  }

  lemma AcquirerSane(s: State, r: Token)
    requires Inv(s) && Enabled(s, Execute(r)) && s.replicas[r].pc.SetSent? && !Held(s)
    ensures var s' := Executed(s, r); Sane(s', s'.replicas[r]) && Current(s', s'.replicas[r])
  {
    assert Sane(s, s.replicas[r]);
  }

  lemma AcquirePairs(s: State, r: Token)
    requires Inv(s) && Enabled(s, Execute(r)) && s.replicas[r].pc.SetSent? && !Held(s)
    ensures var s' := Executed(s, r);
            forall p, q :: p in s'.replicas && q in s'.replicas && 0 < s'.replicas[p].term < s'.replicas[q].term ==>
              OverBy(s'.delay, s'.replicas[p], s'.replicas[q].acquiredAt)
  {
    var s' := Executed(s, r);
    forall p, q | p in s'.replicas && q in s'.replicas && 0 < s'.replicas[p].term < s'.replicas[q].term
      ensures OverBy(s'.delay, s'.replicas[p], s'.replicas[q].acquiredAt)
    {
      if q == r {
        OverByNow(s, p);
      } else {
        assert Sane(s, s.replicas[q]);
        assert p != r;
        assert OverBy(s.delay, s.replicas[p], s.replicas[q].acquiredAt);
      }
    }
  }

  /** A successful renewal: only the holder of the current term can see its own token in the key. */
  lemma InvRenew(s: State, r: Token)
    requires Inv(s) && Enabled(s, Execute(r)) && s.replicas[r].pc.RenewSent? && HeldBy(s, r)
    ensures Inv(Executed(s, r))
  {
    var s' := Executed(s, r);
    assert Sane(s, s.replicas[r]) && Current(s, s.replicas[r]);
    OthersKept(s, s', r);
    PairsKept(s, s', r);
  }

  /** The release script deletes only the caller's own key. */
  lemma InvRelease(s: State, r: Token)
    requires Inv(s) && Enabled(s, Execute(r)) && s.replicas[r].pc.ReleaseSent? && HeldBy(s, r)
    ensures Inv(Executed(s, r))
  {
    var s' := Executed(s, r);
    assert Sane(s, s.replicas[r]);
    OthersKept(s, s', r);
    PairsKept(s, s', r);
  }

  lemma InvExecute(s: State, r: Token)
    requires Inv(s) && Enabled(s, Execute(r))
    ensures Inv(Executed(s, r))
  {
    var pc := s.replicas[r].pc;
    if pc.SetSent? && !Held(s) {
      InvAcquire(s, r);
    } else if pc.RenewSent? && HeldBy(s, r) {
      InvRenew(s, r);
    } else if pc.ReleaseSent? && HeldBy(s, r) {
      InvRelease(s, r);
    } else {
      assert Sane(s, s.replicas[r]);
      InvUpdate(s, Executed(s, r), r);
    }
  }

  lemma InvApply(s: State, a: Action)
    requires Inv(s) && Enabled(s, a)
    ensures Inv(Apply(s, a))
  {
    match a
    case Tick(dt) => InvTick(s, dt);
    case Join(r) => InvJoin(s, r);
    case Execute(r) => InvExecute(s, r);
    case Reply(r) => InvReply(s, r);
    case Fail(r) => InvFail(s, r);
    case Send(r) => InvLocal(s, a, r);
    case Lose(r) => InvLocal(s, a, r);
    case Crash(r) => InvLocal(s, a, r);
  }

  /** Steps by which a replica only moves on. */
  lemma InvLocal(s: State, a: Action, r: Token)
    requires Inv(s) && Enabled(s, a) && (a == Send(r) || a == Lose(r) || a == Crash(r))
    ensures Inv(Apply(s, a))
  {
    assert Sane(s, s.replicas[r]);
    InvUpdate(s, Apply(s, a), r);
  }

  lemma DelayIsConstant(s: State, a: Action)
    requires Enabled(s, a)
    ensures Apply(s, a).delay == s.delay
  {
  }

  lemma InvInitially(s: State)
    requires Initial(s)
    ensures Inv(s)
  {
  }

  lemma {:induction false} InvRun(states: seq<State>, actions: seq<Action>, i: nat)
    requires IsRun(states, actions) && i < |states|
    ensures Inv(states[i]) && states[i].delay == states[0].delay
  {
    if i > 0 {
      InvRun(states, actions, i - 1);
      assert StepAt(states, actions, i - 1);
      InvApply(states[i - 1], actions[i - 1]);
      DelayIsConstant(states[i - 1], actions[i - 1]);
    } else {
      InvInitially(states[0]);
    }
  }
}
