/** A leader that renews in time stays, and one that stops is replaced in time, over every run of LeaderLease. */
module LeaderContinuity {
  import opened Collections
  import opened LeaderLease
  import opened LeaderHistory

  /** Step k executes a SET or a renewal of r, with success. */
  predicate Extends(states: seq<State>, actions: seq<Action>, k: nat, r: Token)
    requires k < |actions| && |states| == |actions| + 1
  {
    && actions[k] == Execute(r) && r in states[k].replicas
    && (states[k].replicas[r].pc.RenewSent? || states[k].replicas[r].pc.SetSent?)
    && states[k + 1].lock == Some(Lock(r, states[k].now + TTL))
  }

  predicate Releases(states: seq<State>, actions: seq<Action>, k: nat, r: Token)
    requires k < |actions| && |states| == |actions| + 1
  {
    actions[k] == Execute(r) && r in states[k].replicas && states[k].replicas[r].pc.ReleaseSent?
  }

  /** Step k executes r's renewal script, whatever it finds. */
  predicate Renews(states: seq<State>, actions: seq<Action>, k: nat, r: Token)
    requires k < |actions| && |states| == |actions| + 1
  {
    actions[k] == Execute(r) && r in states[k].replicas && states[k].replicas[r].pc.RenewSent?
  }

  /** When the last renewal by r executed, seen from states[m]; the time of step i - 1 if there was none since. */
  function LastRenewal(states: seq<State>, actions: seq<Action>, i: nat, m: nat, r: Token): real
    requires 0 < i <= m <= |actions| && |states| == |actions| + 1
    decreases m
  {
    if m == i || Renews(states, actions, m - 1, r) then states[m - 1].now
    else LastRenewal(states, actions, i, m - 1, r)
  }

  /** At every point from i to j the last renewal executed less than TTL ago. */
  ghost predicate KeepsRenewing(states: seq<State>, actions: seq<Action>, i: nat, j: nat, r: Token)
    requires 0 < i <= j <= |actions| && |states| == |actions| + 1
  {
    forall m :: i <= m <= j ==> states[m].now < LastRenewal(states, actions, i, m, r) + TTL
  }

  /** While r's key is live, only r's own release can take it away. */
  lemma HolderStep(s: State, a: Action, r: Token)
    requires Enabled(s, a) && HeldBy(s, r) && s.lock.value.expires <= s.now + TTL
    requires !(a == Execute(r) && s.replicas[r].pc.ReleaseSent?)
    ensures var s' := Apply(s, a);
            s'.lock.Some? && s'.lock.value.owner == r && s'.lock.value.expires >= s.lock.value.expires
  {
  }

  lemma HolderRun(states: seq<State>, actions: seq<Action>, k: nat, r: Token)
    requires IsRun(states, actions) && k < |actions|
    requires HeldBy(states[k], r) && !Releases(states, actions, k, r)
    ensures states[k + 1].lock.Some? && states[k + 1].lock.value.owner == r
    ensures states[k + 1].lock.value.expires >= states[k].lock.value.expires
  {
    InvRun(states, actions, k);
    assert StepAt(states, actions, k);
    HolderStep(states[k], actions[k], r);
  }

  /** A renewal that finds r's own live key extends it. */
  lemma RenewRun(states: seq<State>, actions: seq<Action>, k: nat, r: Token)
    requires IsRun(states, actions) && k < |actions| && HeldBy(states[k], r) && Renews(states, actions, k, r)
    ensures Extends(states, actions, k, r)
  {
    assert StepAt(states, actions, k);
  }

  /**
   Main result.  A replica that once extends the lock, whose renewals then execute less than TTL
   apart, and which does not release the lock itself, is never displaced: it owns the live key all
   along, and every one of those renewals succeeds.
   */
  lemma {:induction false} NeverDisplaced(states: seq<State>, actions: seq<Action>, i: nat, j: nat, r: Token)
    requires IsRun(states, actions) && 0 < i <= j <= |actions|
    requires Extends(states, actions, i - 1, r)
    requires KeepsRenewing(states, actions, i, j, r)
    requires forall k :: i <= k < j ==> !Releases(states, actions, k, r)
    ensures HeldBy(states[j], r)
    ensures states[j].lock.value.expires >= LastRenewal(states, actions, i, j, r) + TTL
    ensures forall k :: i <= k < j && Renews(states, actions, k, r) ==> Extends(states, actions, k, r)
    decreases j
  {
    assert states[j].now < LastRenewal(states, actions, i, j, r) + TTL;
    if i < j {
      NeverDisplaced(states, actions, i, j - 1, r);
      HolderRun(states, actions, j - 1, r);
      if Renews(states, actions, j - 1, r) {
        RenewRun(states, actions, j - 1, r);
      }
    }
  }

  /** A key that is not renewed stays as it is, or passes to another replica. */
  lemma {:induction false} NotRenewed(states: seq<State>, actions: seq<Action>, i: nat, j: nat, r: Token, expires: real)
    requires IsRun(states, actions) && i <= j < |states|
    requires states[i].lock.Some? && states[i].lock.value.owner == r ==> states[i].lock.value.expires <= expires
    requires forall k :: i <= k < j ==> !Extends(states, actions, k, r)
    ensures states[j].lock.Some? && states[j].lock.value.owner == r ==> states[j].lock.value.expires <= expires
    decreases j
  {
    if i < j {
      NotRenewed(states, actions, i, j - 1, r, expires);
      assert !Extends(states, actions, j - 1, r);
      assert StepAt(states, actions, j - 1);
    }
  }

  /** Step k executes a SET of q. */
  predicate Attempt(states: seq<State>, actions: seq<Action>, k: nat, q: Token)
    requires k < |actions| && |states| == |actions| + 1
  {
    actions[k] == Execute(q) && q in states[k].replicas && states[k].replicas[q].pc.SetSent?
  }

  /** After the expiry of r's last extension an attempt leaves the lock live in another replica's hands. */
  lemma AttemptTakesOver(states: seq<State>, actions: seq<Action>, i: nat, j: nat, r: Token, q: Token)
    requires IsRun(states, actions) && 0 < i <= j < |actions|
    requires Extends(states, actions, i - 1, r)
    requires forall k :: i <= k < j ==> !Extends(states, actions, k, r)
    requires q != r && Attempt(states, actions, j, q) && states[i - 1].now + TTL <= states[j].now
    ensures Held(states[j + 1]) && states[j + 1].lock.value.owner != r
    ensures states[j + 1].now == states[j].now
  {
    NotRenewed(states, actions, i, j, r, states[i - 1].now + TTL);
    assert StepAt(states, actions, j);
  }

  // ---------------------------------------------------------------- the loop of another replica goes on

  /** Step k executes a command of q: a SET, a renewal or a release. */
  predicate Command(actions: seq<Action>, k: nat, q: Token)
    requires k < |actions|
  {
    actions[k] == Execute(q)
  }

  predicate CommandWithin(actions: seq<Action>, a: nat, b: nat, q: Token)
    requires b <= |actions|
  {
    exists k :: a <= k < b && Command(actions, k, q)
  }

  /** From step i to step n, q's election loop executes some command in every stretch longer than `retry`. */
  ghost predicate KeepsGoing(states: seq<State>, actions: seq<Action>, i: nat, n: nat, q: Token, retry: real)
    requires i <= n <= |actions| && |states| == |actions| + 1
  {
    forall a, b :: i <= a <= b <= n && states[b].now > states[a].now + retry ==> CommandWithin(actions, a, b, q)
  }

  /** The first command of q in a stretch. */
  lemma {:induction false} FirstCommand(actions: seq<Action>, a: nat, b: nat, q: Token) returns (c: nat)
    requires b <= |actions| && CommandWithin(actions, a, b, q)
    ensures a <= c < b && Command(actions, c, q) && !CommandWithin(actions, a, c, q)
    decreases b
  {
    if CommandWithin(actions, a, b - 1, q) {
      c := FirstCommand(actions, a, b - 1, q);
    } else {
      c := b - 1;
    }
  }

  /** The first state later than t. */
  lemma {:induction false} FirstLater(states: seq<State>, a: nat, b: nat, t: real) returns (c: nat)
    requires a <= b < |states| && states[a].now <= t < states[b].now
    ensures a < c <= b && states[c - 1].now <= t < states[c].now
    decreases b
  {
    if states[b - 1].now > t {
      c := FirstLater(states, a, b - 1, t);
    } else {
      c := b;
    }
  }

  /** The next command of q comes within `retry`. */
  lemma NextCommand(states: seq<State>, actions: seq<Action>, i: nat, n: nat, q: Token, retry: real, p: nat) returns (c: nat)
    requires IsRun(states, actions) && i <= p <= n <= |actions| && retry > 0.0 && KeepsGoing(states, actions, i, n, q, retry)
    requires states[n].now > states[p].now + retry
    ensures p <= c < n && Command(actions, c, q) && !CommandWithin(actions, p, c, q)
    ensures states[c].now <= states[p].now + retry
  {
    var b := FirstLater(states, p, n, states[p].now + retry);
    assert CommandWithin(actions, p, b, q);
    c := FirstCommand(actions, p, b, q);
    TimePasses(states, actions, c, b - 1);
  }

  /** The first command of q at or after time t comes before t + retry. */
  lemma CommandAfter(states: seq<State>, actions: seq<Action>, i: nat, n: nat, q: Token, retry: real, t: real) returns (c: nat)
    requires IsRun(states, actions) && i <= n <= |actions| && retry > 0.0 && KeepsGoing(states, actions, i, n, q, retry)
    requires states[i].now < t && t + retry < states[n].now
    ensures i <= c < n && Command(actions, c, q) && t <= states[c].now < t + retry
  {
    var b := FirstAtLeast(states, i, n, t);
    c := NextCommand(states, actions, i, n, q, retry, b - 1);
    assert StepAt(states, actions, b - 1);
    TimePasses(states, actions, b, if c < b then b else c);
  }

  lemma {:induction false} FirstAtLeast(states: seq<State>, a: nat, b: nat, t: real) returns (c: nat)
    requires a <= b < |states| && states[a].now < t <= states[b].now
    ensures a < c <= b && states[c - 1].now < t <= states[c].now
    decreases b
  {
    if states[b - 1].now >= t {
      c := FirstAtLeast(states, a, b - 1, t);
    } else {
      c := b;
    }
  }

  // ---------------------------------------------------------------- failover

  /** A replica that does not take itself for the holder executes nothing but SETs. */
  lemma FollowerAttempts(states: seq<State>, actions: seq<Action>, c: nat, q: Token)
    requires IsRun(states, actions) && c < |actions| && Command(actions, c, q) && !Believes(states, actions, c, q)
    ensures Attempt(states, actions, c, q)
  {
    FlagExactly(states, actions, c, q);
    InvRun(states, actions, c);
    assert StepAt(states, actions, c);
    assert Sane(states[c], states[c].replicas[q]);
  }

  /**
   Main result.  Replica r stops extending its lock, and the loop of another replica q, which does
   not take itself for the holder, executes some command at least every `retry`.  Then it attempts
   a SET before the last renewal plus TTL plus `retry`, which leaves the lock live in other hands
   than r's.
   */
  lemma Failover(states: seq<State>, actions: seq<Action>, i: nat, n: nat, r: Token, q: Token, retry: real) returns (j: nat)
    requires IsRun(states, actions) && 0 < i <= n <= |actions| && retry > 0.0
    requires Extends(states, actions, i - 1, r)
    requires forall k :: i <= k < n ==> !Extends(states, actions, k, r)
    requires q != r && KeepsGoing(states, actions, i, n, q, retry)
    requires forall m :: i <= m < n ==> !Believes(states, actions, m, q)
    requires states[n].now > states[i - 1].now + TTL + retry
    ensures i <= j < n && Attempt(states, actions, j, q)
    ensures Held(states[j + 1]) && states[j + 1].lock.value.owner != r
    ensures states[j + 1].now < states[i - 1].now + TTL + retry
  {
    assert StepAt(states, actions, i - 1);
    j := CommandAfter(states, actions, i, n, q, retry, states[i - 1].now + TTL);
    FollowerAttempts(states, actions, j, q);
    AttemptTakesOver(states, actions, i, j, r, q);
  }

  /** The next command of such a replica is a SET, or a SET after a release. */
  predicate NearSet(rep: Replica, release: bool) {
    || (!rep.flag && !(rep.pc.SetDone? && rep.pc.acquired))
    || rep.pc.ReleaseDone? || rep.pc.ReleaseLost?
    || (release && (rep.pc.ReleaseSent? || rep.pc.RenewLost? || (rep.pc.RenewDone? && !rep.pc.renewed)))
  }

  lemma NearStep(s: State, a: Action, q: Token, release: bool)
    requires Enabled(s, a) && q in s.replicas && NearSet(s.replicas[q], release) && a != Execute(q)
    ensures q in Apply(s, a).replicas && NearSet(Apply(s, a).replicas[q], release)
  {
  }

  lemma {:induction false} NearRun(states: seq<State>, actions: seq<Action>, a: nat, c: nat, q: Token, release: bool)
    requires IsRun(states, actions) && a <= c <= |actions| && !CommandWithin(actions, a, c, q)
    requires q in states[a].replicas && NearSet(states[a].replicas[q], release)
    ensures q in states[c].replicas && NearSet(states[c].replicas[q], release)
  {
    if a < c {
      assert forall k :: a <= k < c - 1 ==> !Command(actions, k, q);
      NearRun(states, actions, a, c - 1, q, release);
      assert StepAt(states, actions, c - 1) && !Command(actions, c - 1, q);
      NearStep(states[c - 1], actions[c - 1], q, release);
    }
  }

  /** The lock is live in other hands than r's. */
  predicate TakenOver(s: State, r: Token) {
    Held(s) && s.lock.value.owner != r
  }

  /** What one command of q, executed after r's lock has expired, achieves. */
  lemma OneCommand(states: seq<State>, actions: seq<Action>, i: nat, c: nat, r: Token, q: Token)
    requires IsRun(states, actions) && 0 < i <= c < |actions| && Extends(states, actions, i - 1, r)
    requires forall k :: i <= k < c ==> !Extends(states, actions, k, r)
    requires q != r && Command(actions, c, q) && states[i - 1].now + TTL <= states[c].now
    ensures q in states[c].replicas && q in states[c + 1].replicas && states[c + 1].now == states[c].now
    ensures TakenOver(states[c + 1], r) || NearSet(states[c + 1].replicas[q], true)
    ensures NearSet(states[c].replicas[q], true) ==> TakenOver(states[c + 1], r) || NearSet(states[c + 1].replicas[q], false)
    ensures NearSet(states[c].replicas[q], false) ==> TakenOver(states[c + 1], r)
  {
    assert StepAt(states, actions, c);
    InvRun(states, actions, c);
    assert Sane(states[c], states[c].replicas[q]);
    if states[c].replicas[q].pc.SetSent? {
      AttemptTakesOver(states, actions, i, c, r, q);
    }
  }

  /**
   Main result.  Whatever q believes when r's lock expires, its next three commands are enough: a
   refused renewal, perhaps a release, and a SET.
   */
  lemma FailoverAnyway(states: seq<State>, actions: seq<Action>, i: nat, n: nat, r: Token, q: Token, retry: real) returns (j: nat)
    requires IsRun(states, actions) && 0 < i <= n <= |actions| && retry > 0.0
    requires Extends(states, actions, i - 1, r)
    requires forall k :: i <= k < n ==> !Extends(states, actions, k, r)
    requires q != r && KeepsGoing(states, actions, i, n, q, retry)
    requires states[n].now > states[i - 1].now + TTL + 3.0 * retry
    ensures i < j <= n && TakenOver(states[j], r)
    ensures states[j].now < states[i - 1].now + TTL + 3.0 * retry
  {
    assert StepAt(states, actions, i - 1);
    var c := CommandAfter(states, actions, i, n, q, retry, states[i - 1].now + TTL);
    OneCommand(states, actions, i, c, r, q);
    j := c + 1;
    if !TakenOver(states[j], r) {
      c := SecondCommand(states, actions, i, n, r, q, retry, c + 1, true);
      j := c + 1;
      if !TakenOver(states[j], r) {
        c := SecondCommand(states, actions, i, n, r, q, retry, c + 1, false);
        j := c + 1;
      }
    }
  }

  lemma SecondCommand(states: seq<State>, actions: seq<Action>, i: nat, n: nat, r: Token, q: Token, retry: real, p: nat, release: bool)
    returns (c: nat)
    requires IsRun(states, actions) && 0 < i <= p <= n <= |actions| && retry > 0.0
    requires Extends(states, actions, i - 1, r)
    requires forall k :: i <= k < n ==> !Extends(states, actions, k, r)
    requires q != r && KeepsGoing(states, actions, i, n, q, retry)
    requires q in states[p].replicas && NearSet(states[p].replicas[q], release)
    requires states[i - 1].now + TTL <= states[p].now && states[n].now > states[p].now + retry
    ensures p <= c < n && states[p].now <= states[c + 1].now <= states[p].now + retry
    ensures q in states[c + 1].replicas
    ensures TakenOver(states[c + 1], r) || (release && NearSet(states[c + 1].replicas[q], false))
  {
    c := NextCommand(states, actions, i, n, q, retry, p);
    NearRun(states, actions, p, c, q, release);
    TimePasses(states, actions, p, c);
    OneCommand(states, actions, i, c, r, q);
  }
}
