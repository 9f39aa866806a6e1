/**
 How often the completion of an ML job is announced (metric and blob sweep), command by command.
 */
module TileAnnouncements {
  import opened Collections
  import opened JobRecords
  import opened TileProtocol
  import opened TileConvergence
  import opened TileCode
  import opened TileWitnesses
  import Consumers

  /** A consumer of the ML pipeline writes `completed`, and so goes on to announce it. */
  predicate FlipsIn(s: State, a: Action) {
    s.cfg.ml && a.Step? && Pc(s, a.p).Flipping?
  }

  predicate AnnouncesIn(s: State, a: Action) {
    a.Step? && Pc(s, a.p).Announcing?
  }

  /** A crash between the status and the metric. */
  predicate ForgetsIn(s: State, a: Action) {
    a.Crash? && Pc(s, a.p).Announcing?
  }

  function Flips(states: seq<State>, actions: seq<Action>, i: nat): nat
    requires i <= |actions| && |states| == |actions| + 1
  {
    if i == 0 then 0 else Flips(states, actions, i - 1) + if FlipsIn(states[i - 1], actions[i - 1]) then 1 else 0
  }

  /** How often jobs_finished_total{pipeline="ml", status="completed"} was incremented for the job. */
  function Announcements(states: seq<State>, actions: seq<Action>, i: nat): nat
    requires i <= |actions| && |states| == |actions| + 1
  {
    if i == 0 then 0 else Announcements(states, actions, i - 1) + if AnnouncesIn(states[i - 1], actions[i - 1]) then 1 else 0
  }

  function Forgotten(states: seq<State>, actions: seq<Action>, i: nat): nat
    requires i <= |actions| && |states| == |actions| + 1
  {
    if i == 0 then 0 else Forgotten(states, actions, i - 1) + if ForgetsIn(states[i - 1], actions[i - 1]) then 1 else 0
  }

  /** The processes about to announce. */
  function Waiting(s: State): set<ProcId> {
    set p | p in s.procs && s.procs[p].Announcing?
  }

  lemma WaitingMoves(s: State, s': State, p: ProcId, pc: Proc)
    requires s'.procs == s.procs[p := pc]
    ensures |Waiting(s')| == |Waiting(s)| + (if pc.Announcing? then 1 else 0) - (if Pc(s, p).Announcing? then 1 else 0)
  {
    if pc.Announcing? {
      assert Waiting(s') == Waiting(s) + {p};
    } else {
      assert Waiting(s') == Waiting(s) - {p};
    }
  }

  /** Where a process comes to announce, and where it stops waiting to. */
  lemma Moves(s: State, a: Action) returns (pc: Proc)
    requires Enabled(s, a) && !a.Dispatch? && !a.Work? && !a.Resend?
    ensures Apply(s, a).procs == s.procs[a.p := pc]
    ensures pc.Announcing? <==> FlipsIn(s, a)
    ensures Pc(s, a.p).Announcing? <==> AnnouncesIn(s, a) || ForgetsIn(s, a)
  {
    pc := Apply(s, a).procs[a.p];
  }

  lemma WaitingStep(s: State, a: Action)
    requires Enabled(s, a)
    ensures |Waiting(Apply(s, a))| == |Waiting(s)| + (if FlipsIn(s, a) then 1 else 0)
                                      - (if AnnouncesIn(s, a) || ForgetsIn(s, a) then 1 else 0)
  {
    if a.Dispatch? || a.Work? || a.Resend? {
      assert Waiting(Apply(s, a)) == Waiting(s);
    } else {
      var pc := Moves(s, a);
      WaitingMoves(s, Apply(s, a), a.p, pc);
    }
  }

  /**
   Main result.  Every completion written by a consumer is announced once, unless the consumer
   crashes in between or has still to do it.
   */
  lemma {:induction false} AnnouncementsAddUp(states: seq<State>, actions: seq<Action>, i: nat)
    requires IsRun(states, actions) && i < |states|
    ensures Flips(states, actions, i) ==
              Announcements(states, actions, i) + Forgotten(states, actions, i) + |Waiting(states[i])|
  {
    if i == 0 {
      assert Waiting(states[0]) == {};
    } else {
      AnnouncementsAddUp(states, actions, i - 1);
      assert StepAt(states, actions, i - 1);
      WaitingStep(states[i - 1], actions[i - 1]);
    }
  }

  // ---------------------------------------------------------------- how many announcements

  /** The consumers that have found the job complete and are about to write the status. */
  function AboutToFlip(s: State): set<ProcId> {
    set p | p in s.procs && s.procs[p].Flipping?
  }

  /** At no point up to state i are more than n consumers about to write the status. */
  ghost predicate AtMostFlipping(states: seq<State>, i: nat, n: nat)
    requires i < |states|
  {
    forall k :: 0 <= k <= i ==> |AboutToFlip(states[k])| <= n
  }

  /** Who is about to write the status either was before, or found the job `processing`. */
  lemma NewFlipper(s: State, a: Action, p: ProcId)
    requires Enabled(s, a) && Pc(Apply(s, a), p).Flipping?
    requires s.job.status != Processing || FlipsIn(s, a)
    ensures Pc(s, p).Flipping? && !(FlipsIn(s, a) && a.p == p)
  {
  }

  /** After the first flip each further one uses up one of the consumers about to flip. */
  lemma FlipStep(s: State, a: Action)
    requires Enabled(s, a)
    requires s.job.status != Processing || FlipsIn(s, a)
    ensures |AboutToFlip(Apply(s, a))| + (if FlipsIn(s, a) then 1 else 0) <= |AboutToFlip(s)|
  {
    var s' := Apply(s, a);
    var before := if FlipsIn(s, a) then AboutToFlip(s) - {a.p} else AboutToFlip(s);
    forall p | p in AboutToFlip(s')
      ensures p in before
    {
      NewFlipper(s, a, p);
    }
    SubsetSize(AboutToFlip(s'), before);
  }

  lemma FlipFinishes(s: State, a: Action)
    requires Enabled(s, a) && FlipsIn(s, a)
    ensures Apply(s, a).job.status != Processing
  {
  }

  lemma {:induction false} FlipsUseUp(states: seq<State>, actions: seq<Action>, i: nat, n: nat)
    requires IsRun(states, actions) && i < |states| && AtMostFlipping(states, i, n)
    ensures Flips(states, actions, i) > 0 ==>
              states[i].job.status != Processing && Flips(states, actions, i) + |AboutToFlip(states[i])| <= n
  {
    if i > 0 {
      FlipsUseUp(states, actions, i - 1, n);
      RunAdvances(states, actions, i - 1);
      assert StepAt(states, actions, i - 1);
      var s, a := states[i - 1], actions[i - 1];
      if FlipsIn(s, a) {
        FlipFinishes(s, a);
        FlipStep(s, a);
      } else if Flips(states, actions, i - 1) > 0 {
        FlipStep(s, a);
      }
    }
  }

  /**
   Main result.  With at most n consumers about to write the status at every point, completion is
   written and announced at most n times, whatever is redelivered, resent or crashes.
   */
  lemma AnnouncementsAreBounded(states: seq<State>, actions: seq<Action>, i: nat, n: nat)
    requires IsRun(states, actions) && i < |states| && AtMostFlipping(states, i, n)
    ensures Announcements(states, actions, i) <= Flips(states, actions, i) <= n
  {
    FlipsUseUp(states, actions, i, n);
    AnnouncementsAddUp(states, actions, i);
  }

  /**
   So with one consumer at a time, as leadership is meant to ensure, it is announced at most once:
   exactly once when it was written, its writer did not crash, and nobody is still to announce.
   */
  lemma AnnouncedAtMostOnce(states: seq<State>, actions: seq<Action>, i: nat)
    requires IsRun(states, actions) && i < |states| && AtMostFlipping(states, i, 1)
    ensures Announcements(states, actions, i) <= 1
    ensures Waiting(states[i]) == {} && Forgotten(states, actions, i) == 0 ==>
              (Announcements(states, actions, i) == 1 <==> Flips(states, actions, i) > 0)
  {
    AnnouncementsAreBounded(states, actions, i, 1);
    AnnouncementsAddUp(states, actions, i);
  }

  // ---------------------------------------------------------------- the bound is reached

  /** An ML job of one tile. */
  function BeginMl(): State {
    Begin(1).(cfg := Config(1, 1, true))
  }

  /** Consumers 0..k-1 have found the job complete and are about to write the status. */
  ghost predicate AllFlipping(u: State, k: nat) {
    && u.cfg == BeginMl().cfg && u.job.status == Processing && (0, INFO) in u.results
    && (forall p: ProcId :: p in u.procs <==> p < k)
    && (forall p :: p in u.procs ==> u.procs[p].Flipping?)
    && u.job.tiles.Keys == (if k == 0 then {} else {0})
  }

  lemma OneMoreFlips(s: State, before: seq<Action>, u: State, k: nat) returns (actions: seq<Action>, u': State)
    requires From(s, before) == Some(u) && AllFlipping(u, k)
    ensures From(s, actions) == Some(u') && AllFlipping(u', k + 1)
  {
    actions, u' := ReceiveRun(s, before, u, k, Consumers.Message("", 0, INFO, 0.0));
    actions, u' := StoreRun(s, actions, u', k);
    assert u'.job.tiles.Keys == {0};
    if u'.procs[k].Pushing? {
      actions, u' := CountRun(s, actions, u', k);
    }
    assert |u'.job.tiles| == |u'.job.tiles.Keys|;
    actions, u' := CheckRun(s, actions, u', k);
  }

  lemma {:induction false} AllGetThere(k: nat) returns (actions: seq<Action>, u: State)
    ensures From(BeginMl(), actions) == Some(u) && AllFlipping(u, k)
  {
    var s := BeginMl();
    if k == 0 {
      actions, u := Take(s, [], s, Dispatch(0));
      actions, u := Take(s, actions, u, Work(0, INFO));
      assert u.job.tiles.Keys == {};
    } else {
      actions, u := AllGetThere(k - 1);
      actions, u := OneMoreFlips(s, actions, u, k - 1);
    }
  }

  /** Announcements by these actions. */
  function AnnouncedBy(s: State, actions: seq<Action>): nat {
    if actions == [] then 0
    else
      var n := |actions| - 1;
      var before := From(s, actions[..n]);
      AnnouncedBy(s, actions[..n]) + if before.Some? && AnnouncesIn(before.value, actions[n]) then 1 else 0
  }

  lemma {:induction false} AnnouncedAreCounted(s: State, states: seq<State>, actions: seq<Action>, i: nat)
    requires IsRun(states, actions) && i <= |actions|
    requires forall k :: 0 <= k <= |actions| ==> From(s, actions[..k]) == Some(states[k])
    ensures Announcements(states, actions, i) == AnnouncedBy(s, actions[..i])
  {
    if i > 0 {
      AnnouncedAreCounted(s, states, actions, i - 1);
      assert actions[..i][..i - 1] == actions[..i - 1];
    }
  }

  /** Consumers j..n-1 have still to write the status. */
  ghost predicate StillFlipping(u: State, j: nat, n: nat) {
    u.cfg.ml && (forall p: ProcId :: p in u.procs <==> p < n) && forall p :: j <= p < n ==> u.procs[p].Flipping?
  }

  /** Consumer j writes the status and announces it. */
  lemma OneAnnounces(s: State, before: seq<Action>, u: State, j: nat, n: nat) returns (actions: seq<Action>, u': State)
    requires From(s, before) == Some(u) && StillFlipping(u, j, n) && j < n
    ensures From(s, actions) == Some(u') && StillFlipping(u', j + 1, n)
    ensures AnnouncedBy(s, actions) == AnnouncedBy(s, before) + 1
  {
    var once, v := Take(s, before, u, Do(j));
    assert v == With(u, j, HSetStatus(u.job, Completed), u.hist, Announcing);
    actions, u' := Take(s, once, v, Do(j));
    assert u' == With(v, j, v.job, v.hist, Sweeping);
    assert once[..|before|] == before && actions[..|once|] == once;
  }

  lemma {:induction false} SomeAnnounce(s: State, before: seq<Action>, u: State, j: nat, n: nat)
    returns (actions: seq<Action>, u': State)
    requires From(s, before) == Some(u) && StillFlipping(u, 0, n) && j <= n
    ensures From(s, actions) == Some(u') && StillFlipping(u', j, n)
    ensures AnnouncedBy(s, actions) == AnnouncedBy(s, before) + j
  {
    if j == 0 {
      actions, u' := before, u;
    } else {
      actions, u' := SomeAnnounce(s, before, u, j - 1, n);
      actions, u' := OneAnnounces(s, actions, u', j - 1, n);
    }
  }

  lemma ProcsGrow(s: State, a: Action)
    requires Enabled(s, a)
    ensures s.procs.Keys <= Apply(s, a).procs.Keys
  {
  }

  /** Nobody flips who does not take part. */
  lemma {:induction false} AtMostEveryone(states: seq<State>, actions: seq<Action>, i: nat, n: nat)
    requires IsRun(states, actions) && i < |states|
    requires forall p: ProcId :: p in states[i].procs <==> p < n
    ensures AtMostFlipping(states, i, n)
  {
    forall k | 0 <= k <= i
      ensures |AboutToFlip(states[k])| <= n
    {
      ProcsStay(states, actions, k, i);
      SubsetSize(AboutToFlip(states[k]), Interval(0, n));
    }
  }

  lemma {:induction false} ProcsStay(states: seq<State>, actions: seq<Action>, k: nat, i: nat)
    requires IsRun(states, actions) && k <= i < |states|
    ensures states[k].procs.Keys <= states[i].procs.Keys
  {
    if k < i {
      ProcsStay(states, actions, k, i - 1);
      assert StepAt(states, actions, i - 1);
      ProcsGrow(states[i - 1], actions[i - 1]);
    }
  }

  /** Nothing is announced while the job is `processing`. */
  lemma NothingAnnounced(s: State, actions: seq<Action>, u: State, n: nat)
    requires Initial(s) && From(s, actions) == Some(u) && u.job.status == Processing
    requires forall p: ProcId :: p in u.procs <==> p < n
    ensures AnnouncedBy(s, actions) == 0
  {
    var states := FromIsARun(s, actions);
    AtMostEveryone(states, actions, |actions|, n);
    FlipsUseUp(states, actions, |actions|, n);
    AnnouncementsAddUp(states, actions, |actions|);
    AnnouncedAreCounted(s, states, actions, |actions|);
    assert actions[..|actions|] == actions;
  }

  /**
   Main result.  The bound is reached: for every n there is a run in which at most n consumers are
   about to write the status at any point, and completion is announced n times.
   */
  lemma AnnouncementBoundIsReached(n: nat) returns (states: seq<State>, actions: seq<Action>)
    ensures IsRun(states, actions) && AtMostFlipping(states, |actions|, n)
    ensures Announcements(states, actions, |actions|) == n
  {
    var before, u := AllGetThere(n);
    NothingAnnounced(BeginMl(), before, u, n);
    var u': State;
    actions, u' := SomeAnnounce(BeginMl(), before, u, n, n);
    states := FromIsARun(BeginMl(), actions);
    AtMostEveryone(states, actions, |actions|, n);
    AnnouncedAreCounted(BeginMl(), states, actions, |actions|);
    assert actions[..|actions|] == actions;
  }

  /** No run in which at most n consumers are about to write at any point announces completion more than m times. */
  ghost predicate AnnouncementLimitHolds(n: nat, m: nat) {
    forall states: seq<State>, actions: seq<Action> ::
      IsRun(states, actions) && AtMostFlipping(states, |actions|, n) ==> Announcements(states, actions, |actions|) <= m
  }

  /** Main result.  That is so exactly when n is at most m: one announcement takes one consumer at a time. */
  lemma AnnouncementLimitExactly(n: nat, m: nat)
    ensures AnnouncementLimitHolds(n, m) <==> n <= m
  {
    if n <= m {
      forall states: seq<State>, actions: seq<Action>
        | IsRun(states, actions) && AtMostFlipping(states, |actions|, n)
        ensures Announcements(states, actions, |actions|) <= m
      {
        AnnouncementsAreBounded(states, actions, |actions|, n);
      }
    } else {
      var states, actions := AnnouncementBoundIsReached(n);
    }
  }
}
