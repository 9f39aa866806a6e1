/** What is_leader() answers, and what the election loop sends next, told by the replies that came before. */
module LeaderHistory {
  import opened Collections
  import opened LeaderLease

  /** Step k brings r the reply that it has acquired or renewed the lock. */
  predicate Gains(states: seq<State>, actions: seq<Action>, k: nat, r: Token)
    requires k < |actions| && |states| == |actions| + 1
  {
    && actions[k] == Reply(r) && r in states[k].replicas
    && var pc := states[k].replicas[r].pc;
       (pc.SetDone? && pc.acquired) || (pc.RenewDone? && pc.renewed)
  }

  /** Step k brings r the reply that its renewal was refused. */
  predicate IsRefused(states: seq<State>, actions: seq<Action>, k: nat, r: Token)
    requires k < |actions| && |states| == |actions| + 1
  {
    && actions[k] == Reply(r) && r in states[k].replicas
    && states[k].replicas[r].pc.RenewDone? && !states[k].replicas[r].pc.renewed
  }

  /**
   Step k ends r's leadership: a refused renewal, the end of a release, an exception elsewhere than
   in a renewal (after which r first tries to release the lock), or a crash.
   */
  predicate StepsDown(states: seq<State>, actions: seq<Action>, k: nat, r: Token)
    requires k < |actions| && |states| == |actions| + 1
  {
    && r in states[k].replicas
    && var pc := states[k].replicas[r].pc;
       || IsRefused(states, actions, k, r)
       || (actions[k] == Reply(r) && pc.ReleaseDone?)
       || (actions[k] == Fail(r) && !pc.RenewSent? && !pc.RenewDone? && !pc.RenewLost?)
       || actions[k] == Crash(r)
  }

  /** Nothing has ended r's leadership after step k. */
  ghost predicate StaysUp(states: seq<State>, actions: seq<Action>, k: nat, j: nat, r: Token)
    requires j <= |actions| && |states| == |actions| + 1
  {
    forall m :: k < m < j ==> !StepsDown(states, actions, m, r)
  }

  /** r takes itself for the holder of the lock. */
  ghost predicate Believes(states: seq<State>, actions: seq<Action>, j: nat, r: Token)
    requires j <= |actions| && |states| == |actions| + 1
  {
    exists k :: 0 <= k < j && Gains(states, actions, k, r) && StaysUp(states, actions, k, j, r)
  }

  /** ... since less than TTL ago. */
  ghost predicate Leads(states: seq<State>, actions: seq<Action>, j: nat, r: Token)
    requires j <= |actions| && |states| == |actions| + 1
  {
    exists k :: 0 <= k < j && Gains(states, actions, k, r) && StaysUp(states, actions, k, j, r)
                && states[j].now < states[k].now + TTL
  }

  /** The last such reply, if nothing ended r's leadership since. */
  function LastGain(states: seq<State>, actions: seq<Action>, j: nat, r: Token): (k: Option<nat>)
    requires j <= |actions| && |states| == |actions| + 1
    ensures k.Some? ==> k.value < j
  {
    if j == 0 then None
    else if Gains(states, actions, j - 1, r) then Some(j - 1)
    else if StepsDown(states, actions, j - 1, r) then None
    else LastGain(states, actions, j - 1, r)
  }

  lemma {:induction false} LastGainIsLast(states: seq<State>, actions: seq<Action>, j: nat, r: Token)
    requires j <= |actions| && |states| == |actions| + 1
    ensures var last := LastGain(states, actions, j, r);
            && (last.Some? ==> Gains(states, actions, last.value, r) && StaysUp(states, actions, last.value, j, r))
            && (forall k :: 0 <= k < j && Gains(states, actions, k, r) && StaysUp(states, actions, k, j, r) ==>
                  last.Some? && k <= last.value)
  {
    if j > 0 {
      LastGainIsLast(states, actions, j - 1, r);
      forall k | 0 <= k < j - 1 && StaysUp(states, actions, k, j, r)
        ensures StaysUp(states, actions, k, j - 1, r) && !StepsDown(states, actions, j - 1, r)
      {
      }
    }
  }

  lemma {:induction false} TimePasses(states: seq<State>, actions: seq<Action>, a: nat, b: nat)
    requires IsRun(states, actions) && a <= b < |states|
    ensures states[a].now <= states[b].now
  {
    if a < b {
      TimePasses(states, actions, a, b - 1);
      assert StepAt(states, actions, b - 1);
    }
  }

  /** Flag and deadline of r are those of the last gain. */
  ghost predicate Remembers(states: seq<State>, actions: seq<Action>, j: nat, r: Token)
    requires j <= |actions| && |states| == |actions| + 1
  {
    var last := LastGain(states, actions, j, r);
    && (last.Some? <==> r in states[j].replicas && states[j].replicas[r].flag)
    && (last.Some? ==> states[j].replicas[r].expiresAt == states[last.value].now + TTL)
  }

  lemma {:induction false} RemembersRun(states: seq<State>, actions: seq<Action>, j: nat, r: Token)
    requires IsRun(states, actions) && j < |states|
    ensures Remembers(states, actions, j, r)
  {
    if j > 0 {
      RemembersRun(states, actions, j - 1, r);
      InvRun(states, actions, j - 1);
      assert StepAt(states, actions, j - 1);
      if r in states[j - 1].replicas {
        assert Sane(states[j - 1], states[j - 1].replicas[r]);
        OwnStep(states, actions, j - 1, r);
      } else {
        NewcomerStep(states[j - 1], actions[j - 1], r);
      }
    }
  }

  lemma NewcomerStep(s: State, a: Action, r: Token)
    requires Enabled(s, a) && r !in s.replicas
    ensures r in Apply(s, a).replicas ==> !Apply(s, a).replicas[r].flag
  {
  }

  lemma OwnStep(states: seq<State>, actions: seq<Action>, k: nat, r: Token)
    requires k < |actions| && |states| == |actions| + 1 && StepAt(states, actions, k)
    requires r in states[k].replicas && Sane(states[k], states[k].replicas[r])
    ensures r in states[k + 1].replicas
    ensures var rep, rep' := states[k].replicas[r], states[k + 1].replicas[r];
            if Gains(states, actions, k, r) then rep'.flag && rep'.expiresAt == states[k].now + TTL
            else if StepsDown(states, actions, k, r) then !rep'.flag
            else rep'.flag == rep.flag && (rep.flag ==> rep'.expiresAt == rep.expiresAt)
  {
  }

  /**
   Main result.  In every run a replica is leader exactly when it got a reply that it had acquired or
   renewed the lock less than TTL ago, and nothing has ended its leadership since.
   */
  lemma LeaderExactly(states: seq<State>, actions: seq<Action>, j: nat, r: Token)
    requires IsRun(states, actions) && j < |states|
    ensures IsLeader(states[j], r) <==> Leads(states, actions, j, r)
  {
    RemembersRun(states, actions, j, r);
    LastGainIsLast(states, actions, j, r);
    var last := LastGain(states, actions, j, r);
    forall k | last.Some? && 0 <= k <= last.value
      ensures states[k].now <= states[last.value].now
    {
      TimePasses(states, actions, k, last.value);
    }
  }

  lemma FlagExactly(states: seq<State>, actions: seq<Action>, j: nat, r: Token)
    requires IsRun(states, actions) && j < |states|
    ensures r in states[j].replicas && states[j].replicas[r].flag <==> Believes(states, actions, j, r)
  {
    RemembersRun(states, actions, j, r);
    LastGainIsLast(states, actions, j, r);
  }

  /** Main result.  What the loop sends is a renewal if the replica takes itself for the holder, and a SET otherwise. */
  lemma SendsExactly(states: seq<State>, actions: seq<Action>, j: nat, r: Token)
    requires IsRun(states, actions) && j < |actions| && actions[j] == Send(r)
    ensures r in states[j + 1].replicas
    ensures states[j + 1].replicas[r].pc == if Believes(states, actions, j, r) then RenewSent else SetSent
  {
    FlagExactly(states, actions, j, r);
    assert StepAt(states, actions, j);
  }

  /** Step m brings r the reply that it has acquired the lock. */
  predicate Acquires(states: seq<State>, actions: seq<Action>, m: nat, r: Token)
    requires m < |actions| && |states| == |actions| + 1
  {
    && actions[m] == Reply(r) && r in states[m].replicas
    && states[m].replicas[r].pc.SetDone? && states[m].replicas[r].pc.acquired
  }

  /**
   Main result.  From the reply that refuses a renewal to the next reply that grants a SET, the
   replica is not leader, and whatever it sends is a SET.
   */
  lemma {:induction false} RefusedMeansFollower(states: seq<State>, actions: seq<Action>, k: nat, j: nat, r: Token)
    requires IsRun(states, actions) && k < j < |states| && IsRefused(states, actions, k, r)
    requires forall m :: k < m < j ==> !Acquires(states, actions, m, r)
    ensures !IsLeader(states[j], r) && !Believes(states, actions, j, r)
    ensures forall m :: k < m < j && actions[m] == Send(r) ==>
              r in states[m + 1].replicas && states[m + 1].replicas[r].pc.SetSent?
  {
    if k + 1 < j {
      RefusedMeansFollower(states, actions, k, j - 1, r);
      if actions[j - 1] == Send(r) {
        SendsExactly(states, actions, j - 1, r);
      }
    }
    StillFollower(states, actions, j - 1, r);
    FlagExactly(states, actions, j, r);
  }

  /** Only the grant of a SET makes a replica that is not the holder take itself for it. */
  lemma StillFollower(states: seq<State>, actions: seq<Action>, m: nat, r: Token)
    requires IsRun(states, actions) && m < |actions|
    requires IsRefused(states, actions, m, r) || (!Believes(states, actions, m, r) && !Acquires(states, actions, m, r))
    ensures !Believes(states, actions, m + 1, r)
  {
    RemembersRun(states, actions, m, r);
    LastGainIsLast(states, actions, m, r);
    LastGainIsLast(states, actions, m + 1, r);
    InvRun(states, actions, m);
    if r in states[m].replicas {
      assert Sane(states[m], states[m].replicas[r]);
    }
  }

  // ---------------------------------------------------------------- what the replies say

  /** The reply of a SET or a renewal is under way to r. */
  predicate AwaitsReply(s: State, r: Token) {
    r in s.replicas && (s.replicas[r].pc.SetDone? || s.replicas[r].pc.RenewDone?)
  }

  /** Step e executes the SET or the renewal of r whose reply is under way at state k. */
  ghost predicate ExecutedAt(states: seq<State>, actions: seq<Action>, e: nat, k: nat, r: Token)
    requires k <= |actions| && |states| == |actions| + 1
  {
    && e < k && actions[e] == Execute(r) && r in states[e].replicas && r in states[k].replicas
    && (states[e].replicas[r].pc.SetSent? <==> states[k].replicas[r].pc.SetDone?)
    && (states[e].replicas[r].pc.RenewSent? <==> states[k].replicas[r].pc.RenewDone?)
    && r in states[e + 1].replicas && states[k].replicas[r].pc == states[e + 1].replicas[r].pc
  }

  lemma {:induction false} ReplyUnderWay(states: seq<State>, actions: seq<Action>, k: nat, r: Token) returns (e: nat)
    requires IsRun(states, actions) && k < |states| && AwaitsReply(states[k], r)
    ensures ExecutedAt(states, actions, e, k, r)
  {
    var before := states[k - 1];
    assert StepAt(states, actions, k - 1);
    if actions[k - 1] == Execute(r) {
      e := k - 1;
    } else {
      StillUnderWay(before, actions[k - 1], r);
      e := ReplyUnderWay(states, actions, k - 1, r);
    }
  }

  lemma StillUnderWay(s: State, a: Action, r: Token)
    requires Enabled(s, a) && a != Execute(r) && AwaitsReply(Apply(s, a), r)
    ensures AwaitsReply(s, r) && s.replicas[r].pc == Apply(s, a).replicas[r].pc
  {
  }

  /**
   Main result.  Every reply to a SET or a renewal tells what its execution did: it grants the lock
   exactly when no live key was there (SET) or r's own live key was there (renewal), and then, and
   only then, the execution left r's key there for another TTL.
   */
  lemma RepliesAreTrue(states: seq<State>, actions: seq<Action>, k: nat, r: Token) returns (e: nat)
    requires IsRun(states, actions) && k < |actions| && actions[k] == Reply(r) && AwaitsReply(states[k], r)
    ensures ExecutedAt(states, actions, e, k, r)
    ensures states[k].replicas[r].pc.SetDone? ==> (Gains(states, actions, k, r) <==> !Held(states[e]))
    ensures states[k].replicas[r].pc.RenewDone? ==> (Gains(states, actions, k, r) <==> HeldBy(states[e], r))
    ensures if Gains(states, actions, k, r) then states[e + 1].lock == Some(Lock(r, states[e].now + TTL))
            else states[e + 1].lock == states[e].lock
  {
    e := ReplyUnderWay(states, actions, k, r);
    assert StepAt(states, actions, e);
  }

  // ---------------------------------------------------------------- one execution and one reply per command

  predicate UnderWay(pc: Pc) {
    pc.SetSent? || pc.RenewSent? || pc.ReleaseSent?
  }

  /** What r is doing after a step that executed its command, or brought it a reply. */
  lemma ExecuteAndReply(states: seq<State>, actions: seq<Action>, k: nat, r: Token)
    requires IsRun(states, actions) && k < |actions|
    ensures actions[k] == Execute(r) ==>
              r in states[k + 1].replicas && Pending(states[k + 1].replicas[r].pc) == Some(states[k].now)
    ensures actions[k] == Reply(r) ==> r in states[k + 1].replicas && states[k + 1].replicas[r].pc.Sleeping?
  {
    assert StepAt(states, actions, k);
  }

  /**
   Main result.  A command executes once: between two executions of r it got a reply or gave up.  And
   it is answered once: between two replies there is an execution.
   */
  lemma OneExecutionOneReply(states: seq<State>, actions: seq<Action>, a: nat, b: nat, r: Token)
    requires IsRun(states, actions) && a < b < |actions|
    ensures actions[a] == Execute(r) && actions[b] == Execute(r) ==>
              exists m :: a < m < b && (actions[m] == Reply(r) || actions[m] == Fail(r))
    ensures actions[a] == Reply(r) && actions[b] == Reply(r) ==> exists m :: a < m < b && actions[m] == Execute(r)
  {
    ExecuteAndReply(states, actions, a, r);
    assert StepAt(states, actions, b);
    if actions[a] == Execute(r) && forall m :: a < m < b ==> actions[m] != Reply(r) && actions[m] != Fail(r) {
      StillWaiting(states, actions, a + 1, b, r);
    }
    if actions[a] == Reply(r) && forall m :: a < m < b ==> actions[m] != Execute(r) {
      StillUnanswered(states, actions, a + 1, b, r);
    }
  }

  lemma {:induction false} StillWaiting(states: seq<State>, actions: seq<Action>, a: nat, b: nat, r: Token)
    requires IsRun(states, actions) && a <= b <= |actions| && r in states[a].replicas
    requires !states[a].replicas[r].pc.Sleeping? && !UnderWay(states[a].replicas[r].pc)
    requires forall m :: a <= m < b ==> actions[m] != Reply(r) && actions[m] != Fail(r)
    ensures r in states[b].replicas && !states[b].replicas[r].pc.Sleeping? && !UnderWay(states[b].replicas[r].pc)
  {
    if a < b {
      StillWaiting(states, actions, a, b - 1, r);
      assert StepAt(states, actions, b - 1);
    }
  }

  lemma {:induction false} StillUnanswered(states: seq<State>, actions: seq<Action>, a: nat, b: nat, r: Token)
    requires IsRun(states, actions) && a <= b <= |actions| && r in states[a].replicas
    requires Pending(states[a].replicas[r].pc).None?
    requires forall m :: a <= m < b ==> actions[m] != Execute(r)
    ensures r in states[b].replicas && Pending(states[b].replicas[r].pc).None?
  {
    if a < b {
      StillUnanswered(states, actions, a, b - 1, r);
      assert StepAt(states, actions, b - 1);
    }
  }

  /** A crashed process does nothing more; one that starts again has another token. */
  lemma {:induction false} CrashedStaysDown(states: seq<State>, actions: seq<Action>, i: nat, j: nat, r: Token)
    requires IsRun(states, actions) && i <= j < |states| && r in states[i].replicas && states[i].replicas[r].pc.Dead?
    ensures r in states[j].replicas && states[j].replicas[r].pc.Dead? && !IsLeader(states[j], r)
  {
    InvRun(states, actions, j);
    if i < j {
      CrashedStaysDown(states, actions, i, j - 1, r);
      assert StepAt(states, actions, j - 1);
    }
    assert Sane(states[j], states[j].replicas[r]);
  }
}
