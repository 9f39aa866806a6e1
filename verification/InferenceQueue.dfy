/**
 inference/main.py: the poller and batcher threads of one inference worker, with the pause and
 resume that bound the queue between them.

 The machine below interleaves the two threads one queue or consumer operation at a time.
 Rebalances happen inside poll(), where librdkafka runs the callbacks.
 */
module InferenceQueue {
  import opened Collections

  type Partition = nat

  /** A Kafka message; `valid` when its value is JSON. */
  datatype Item = Item(partition: Partition, offset: nat, valid: bool)

  /** INFERENCE_MAX_QUEUE, INFERENCE_RESUME_QUEUE and INFERENCE_BATCH_SIZE. */
  datatype Limits = Limits(max: int, resume: int, batch: int)

  /** What the threads and the Kafka consumer share; `held` are the paused partitions. */
  datatype Core = Core(
    pending: seq<Item>, paused: bool, owned: set<Partition>, held: set<Partition>,
    toCommit: seq<Item>, committed: seq<Item>)

  /** Where poll_loop is. */
  datatype Poller =
    | Top                  // before _drain_commits or _apply_backpressure
    | Sized(qsize: nat)    // qsize() has been read
    | Pausing              // consumer.pause() returned, self.paused still False
    | Resuming             // consumer.resume() returned, self.paused still True
    | Polling              // inside consumer.poll()
    | Holding(item: Item)  // poll() returned a task that is not yet put

  /** Where batch_loop is. */
  datatype Batcher = Collecting(batch: seq<Item>) | Working(batch: seq<Item>)

  /** `arrived`, `batches` and `flushed` are history: tasks ever put, batches ever processed, tasks whose results all left. */
  datatype State = State(
    core: Core, poller: Poller, batcher: Batcher,
    arrived: seq<Item>, batches: seq<seq<Item>>, flushed: set<Item>)

  datatype Action =
    | Commit(failed: bool)
    | ReadSize
    | Pause(failed: bool, reached: set<Partition>)
    | SetPaused
    | Resume(failed: bool, reached: set<Partition>)
    | ClearPaused
    | NoChange
    | Assign(partitions: set<Partition>)
    | Revoke(partitions: set<Partition>)
    | Return(item: Item)
    | ReturnNothing
    | Put
    | Get
    | CloseBatch
    | Finish(allFlushed: bool)

  function Start(): State {
    State(Core([], false, {}, {}, [], []), Top, Collecting([]), [], [], {})
  }

  predicate MustPause(l: Limits, core: Core, qsize: nat) {
    !core.paused && qsize >= l.max
  }

  predicate MustResume(l: Limits, core: Core, qsize: nat) {
    core.paused && qsize <= l.resume
  }

  predicate Enabled(l: Limits, s: State, a: Action) {
    match a
    case Commit(_) => s.poller.Top? && s.core.toCommit != []
    case ReadSize => s.poller.Top?
    case Pause(_, _) => s.poller.Sized? && MustPause(l, s.core, s.poller.qsize)
    case SetPaused => s.poller.Pausing?
    case Resume(_, _) => s.poller.Sized? && MustResume(l, s.core, s.poller.qsize)
    case ClearPaused => s.poller.Resuming?
    case NoChange => s.poller.Sized? && !MustPause(l, s.core, s.poller.qsize) && !MustResume(l, s.core, s.poller.qsize)
    case Assign(_) => s.poller.Polling?
    case Revoke(_) => s.poller.Polling?
    case Return(item) => s.poller.Polling? && item.partition in s.core.owned && item.partition !in s.core.held
    case ReturnNothing => s.poller.Polling?
    case Put => s.poller.Holding?
    case Get => s.batcher.Collecting? && |s.batcher.batch| < l.batch && s.core.pending != []
    case CloseBatch => s.batcher.Collecting? && s.batcher.batch != []
    case Finish(_) => s.batcher.Working?
  }

  /** on_assign: assign() replaces the assignment, resumed; a paused worker pauses it again. */
  function Assigned(core: Core, partitions: set<Partition>): Core {
    core.(owned := partitions, held := if core.paused then partitions else {})
  }

  /** A failing pause() or resume() may have reached some partitions; the exception restarts the loop. */
  function Apply(l: Limits, s: State, a: Action): State
    requires Enabled(l, s, a)
  {
    var c := s.core;
    match a
    case Commit(failed) =>
      s.(core := c.(toCommit := c.toCommit[1..], committed := c.committed + if failed then [] else [c.toCommit[0]]))
    case ReadSize => s.(poller := Sized(|c.pending|))
    case Pause(failed, reached) =>
      s.(core := c.(held := c.held + if failed then reached * c.owned else c.owned),
         poller := if failed then Top else Pausing)
    case SetPaused => s.(core := c.(paused := true), poller := Polling)
    case Resume(failed, reached) =>
      s.(core := c.(held := c.held - if failed then reached else c.owned),
         poller := if failed then Top else Resuming)
    case ClearPaused => s.(core := c.(paused := false), poller := Polling)
    case NoChange => s.(poller := Polling)
    case Assign(partitions) => s.(core := Assigned(c, partitions))
    case Revoke(partitions) => s.(core := c.(owned := c.owned - partitions, held := c.held - partitions))
    case Return(item) =>
      if item.valid then s.(poller := Holding(item))
      else s.(core := c.(committed := c.committed + [item]), poller := Top)
    case ReturnNothing => s.(poller := Top)
    case Put => s.(core := c.(pending := c.pending + [s.poller.item]), poller := Top, arrived := s.arrived + [s.poller.item])
    case Get => s.(core := c.(pending := c.pending[1..]), batcher := Collecting(s.batcher.batch + [c.pending[0]]))
    case CloseBatch => s.(batcher := Working(s.batcher.batch))
    case Finish(allFlushed) =>
      s.(core := c.(toCommit := c.toCommit + if allFlushed then s.batcher.batch else []),
         batcher := Collecting([]),
         batches := s.batches + [s.batcher.batch],
         flushed := s.flushed + if allFlushed then Members(s.batcher.batch) else {})
  }

  function Members(items: seq<Item>): (r: set<Item>)
    ensures forall x :: x in r <==> x in items
  {
    set x | x in items
  }

  /** The state that the actions lead to from s, or None when one of them cannot happen. */
  function From(l: Limits, s: State, actions: seq<Action>): Option<State>
  {
    if actions == [] then Some(s)
    else
      var before := From(l, s, actions[..|actions| - 1]);
      var a := actions[|actions| - 1];
      if before.Some? && Enabled(l, before.value, a) then Some(Apply(l, before.value, a)) else None
  }

  function Run(l: Limits, actions: seq<Action>): Option<State> {
    From(l, Start(), actions)
  }

  // ---------------------------------------------------------------- the queue is bounded

  function Larger(a: int, b: int): int {
    if a > b then a else b
  }

  /** How long the queue can get: INFERENCE_MAX_QUEUE when INFERENCE_RESUME_QUEUE is below it. */
  function Bound(l: Limits): nat {
    Larger(0, Larger(l.max, l.resume + 1))
  }

  predicate AllHeld(core: Core) {
    core.owned <= core.held
  }

  /**
   What each place of the poller knows.  The batcher can only shorten the queue meanwhile.
   `sound` means that no resume() has failed so far.
   */
  predicate Throttled(l: Limits, s: State, sound: bool) {
    var n := |s.core.pending|;
    && n <= Bound(l)
    && (s.core.paused && !s.poller.Resuming? ==> AllHeld(s.core) || (!sound && n <= l.resume))
    && match s.poller
       case Top => true
       case Sized(qsize) => n <= qsize && (s.core.paused && qsize > l.resume ==> AllHeld(s.core))
       case Pausing => !s.core.paused && AllHeld(s.core)
       case Resuming => s.core.paused && n <= l.resume
       case Polling => (s.core.paused ==> AllHeld(s.core)) && (!s.core.paused ==> n < Bound(l))
       case Holding(_) => !s.core.paused && n < Bound(l)
  }

  predicate FailedResume(a: Action) {
    a.Resume? && a.failed
  }

  lemma StaysThrottled(l: Limits, s: State, a: Action, sound: bool)
    requires Throttled(l, s, sound) && Enabled(l, s, a)
    ensures Throttled(l, Apply(l, s, a), sound && !FailedResume(a))
  {
    var s' := Apply(l, s, a);
    match a {
      case Put => assert |s'.core.pending| == |s.core.pending| + 1;
      case Get => assert |s'.core.pending| == |s.core.pending| - 1;
      case Resume(_, _) => assert |s'.core.pending| <= l.resume;
      case Assign(_) => assert s'.core.paused ==> AllHeld(s'.core);
      case Revoke(_) => assert s'.core.paused ==> AllHeld(s'.core);
      case _ =>
        assert s'.core.owned == s.core.owned;
    }
  }

  /**
   Main result.  In every interleaving of poller, batcher, rebalances and failing pause() and
   resume() calls the queue stays within the bound; poll() never returns a task while the worker
   is paused; and unless a resume() fails, a paused worker has every assigned partition paused.
   */
  lemma {:induction false} QueueIsBounded(l: Limits, actions: seq<Action>)
    requires Run(l, actions).Some?
    ensures var s := Run(l, actions).value;
            && |s.core.pending| <= Bound(l)
            && (l.resume < l.max ==> |s.core.pending| <= Larger(0, l.max))
            && (s.poller.Polling? && s.core.paused ==> AllHeld(s.core))
            && ((forall a :: a in actions ==> !FailedResume(a)) && s.core.paused && !s.poller.Resuming? ==> AllHeld(s.core))
    ensures exists sound: bool :: Throttled(l, Run(l, actions).value, sound)
                                  && ((forall a :: a in actions ==> !FailedResume(a)) ==> sound)
  {
    if actions == [] {
      assert Throttled(l, Start(), true);
    } else {
      var n := |actions| - 1;
      QueueIsBounded(l, actions[..n]);
      var s := Run(l, actions[..n]).value;
      assert forall a :: a in actions[..n] ==> a in actions;
      var sound: bool :| Throttled(l, s, sound) && ((forall a :: a in actions[..n] ==> !FailedResume(a)) ==> sound);
      StaysThrottled(l, s, actions[n], sound);
      assert actions[n] in actions;
      assert Throttled(l, Apply(l, s, actions[n]), sound && !FailedResume(actions[n]));
    }
  }

  // ---------------------------------------------------------------- the bound is reached

  /** An idle, resumed worker with one partition and n tasks that nobody takes. */
  predicate Filled(s: State, n: nat) {
    && s.poller.Top? && s.batcher == Collecting([]) && |s.core.pending| == n
    && !s.core.paused && s.core.owned == {0} && s.core.held == {}
  }

  lemma Then(l: Limits, actions: seq<Action>, a: Action)
    requires Run(l, actions).Some? && Enabled(l, Run(l, actions).value, a)
    ensures Run(l, actions + [a]) == Some(Apply(l, Run(l, actions).value, a))
  {
    Onward(l, Start(), actions, a);
  }

  lemma Onward(l: Limits, s: State, actions: seq<Action>, a: Action)
    requires From(l, s, actions).Some? && Enabled(l, From(l, s, actions).value, a)
    ensures From(l, s, actions + [a]) == Some(Apply(l, From(l, s, actions).value, a))
  {
    assert (actions + [a])[..|actions|] == actions;
  }

  /** One more task gets in, through a pause and a resume when the queue is at the high mark. */
  lemma OneMore(l: Limits, actions: seq<Action>, n: nat) returns (longer: seq<Action>)
    requires Run(l, actions).Some? && Filled(Run(l, actions).value, n) && n < Bound(l)
    ensures Run(l, longer).Some? && Filled(Run(l, longer).value, n + 1)
  {
    Then(l, actions, ReadSize);
    longer := actions + [ReadSize];
    if n >= l.max {
      Then(l, longer, Pause(false, {}));
      longer := longer + [Pause(false, {})];
      Then(l, longer, SetPaused);
      longer := longer + [SetPaused];
      Then(l, longer, ReturnNothing);
      longer := longer + [ReturnNothing];
      Then(l, longer, ReadSize);
      longer := longer + [ReadSize];
      Then(l, longer, Resume(false, {}));
      longer := longer + [Resume(false, {})];
      Then(l, longer, ClearPaused);
      longer := longer + [ClearPaused];
    } else {
      Then(l, longer, NoChange);
      longer := longer + [NoChange];
    }
    var item := Item(0, n, true);
    Then(l, longer, Return(item));
    longer := longer + [Return(item)];
    Then(l, longer, Put);
    longer := longer + [Put];
  }

  lemma {:induction false} FillsUp(l: Limits, n: nat) returns (actions: seq<Action>)
    requires n <= Bound(l) && Bound(l) > 0
    ensures Run(l, actions).Some? && Filled(Run(l, actions).value, n)
  {
    if n == 0 {
      actions := Connected(l);
    } else {
      var before := FillsUp(l, n - 1);
      actions := OneMore(l, before, n - 1);
    }
  }

  /** Partition 0 gets assigned in the first poll(). */
  lemma Connected(l: Limits) returns (actions: seq<Action>)
    requires Bound(l) > 0
    ensures Run(l, actions).Some? && Filled(Run(l, actions).value, 0)
  {
    actions := [];
    Then(l, actions, ReadSize);
    actions := actions + [ReadSize];
    if 0 >= l.max {
      Then(l, actions, Pause(false, {}));
      actions := actions + [Pause(false, {})];
      Then(l, actions, SetPaused);
      actions := actions + [SetPaused];
      Then(l, actions, Assign({0}));
      actions := actions + [Assign({0})];
      Then(l, actions, ReturnNothing);
      actions := actions + [ReturnNothing];
      Then(l, actions, ReadSize);
      actions := actions + [ReadSize];
      Then(l, actions, Resume(false, {}));
      actions := actions + [Resume(false, {})];
      Then(l, actions, ClearPaused);
      actions := actions + [ClearPaused];
    } else {
      Then(l, actions, NoChange);
      actions := actions + [NoChange];
      Then(l, actions, Assign({0}));
      actions := actions + [Assign({0})];
    }
    Then(l, actions, ReturnNothing);
    actions := actions + [ReturnNothing];
  }

  /**
   Main result.  The bound is exact: every configuration has a run that fills the queue up to it.
   So INFERENCE_MAX_QUEUE bounds the queue in all runs exactly when
   INFERENCE_RESUME_QUEUE < INFERENCE_MAX_QUEUE or nothing is ever resumed.
   */
  lemma BoundIsExact(l: Limits)
    ensures exists actions :: Run(l, actions).Some? && |Run(l, actions).value.core.pending| == Bound(l)
    ensures (forall actions :: Run(l, actions).Some? ==> |Run(l, actions).value.core.pending| <= Larger(0, l.max))
            <==> l.resume < l.max || l.resume < 0
  {
    ghost var longest: seq<Action> := [];
    if Bound(l) > 0 {
      longest := FillsUp(l, Bound(l));
    }
    assert Run(l, longest).Some? && |Run(l, longest).value.core.pending| == Bound(l);
    if l.resume < l.max || l.resume < 0 {
      forall actions | Run(l, actions).Some?
        ensures |Run(l, actions).value.core.pending| <= Larger(0, l.max)
      {
        QueueIsBounded(l, actions);
      }
    }
  }

  // ---------------------------------------------------------------- batches and commits

  function Flat(batches: seq<seq<Item>>): seq<Item>
  {
    if batches == [] then [] else Flat(batches[..|batches| - 1]) + batches[|batches| - 1]
  }

  /** The batches processed, the one being built, and the queue. */
  function InPlaces(s: State): seq<Item> {
    Flat(s.batches) + (s.batcher.batch + s.core.pending)
  }

  ghost predicate BatchSizes(l: Limits, s: State) {
    && (forall b :: b in s.batches ==> 0 < |b| <= l.batch)
    && (s.batcher.batch != [] ==> |s.batcher.batch| <= l.batch)
    && (s.batcher.Working? ==> s.batcher.batch != [])
  }

  /** Commits only follow results. */
  ghost predicate CommitsFollow(s: State) {
    && (forall x :: x in s.core.toCommit ==> x in s.flushed)
    && (forall x :: x in s.core.committed ==> x in s.flushed || !x.valid)
  }

  lemma PlacesStep(l: Limits, s: State, a: Action)
    requires Enabled(l, s, a)
    ensures InPlaces(Apply(l, s, a)) == InPlaces(s) + if a.Put? then [s.poller.item] else []
  {
    match a {
      case Get => Shift(s.batcher.batch, s.core.pending);
      case Finish(_) =>
        FlatLast(s.batches, s.batcher.batch);
        Regroup(Flat(s.batches), s.batcher.batch, s.core.pending);
      case Put =>
        Grow(Flat(s.batches), s.batcher.batch + s.core.pending, [s.poller.item]);
        Grow(s.batcher.batch, s.core.pending, [s.poller.item]);
      case _ =>
    }
  }

  lemma Shift<T>(taken: seq<T>, rest: seq<T>)
    requires rest != []
    ensures taken + rest == taken + [rest[0]] + rest[1..]
  {
  }

  lemma Grow<T>(a: seq<T>, b: seq<T>, c: seq<T>)
    ensures a + b + c == a + (b + c)
  {
  }

  lemma Regroup<T>(a: seq<T>, b: seq<T>, c: seq<T>)
    ensures a + (b + c) == a + b + ([] + c)
  {
  }

  lemma SizesStep(l: Limits, s: State, a: Action)
    requires Enabled(l, s, a) && BatchSizes(l, s)
    ensures BatchSizes(l, Apply(l, s, a))
  {
  }

  lemma FlatLast(batches: seq<seq<Item>>, batch: seq<Item>)
    ensures Flat(batches + [batch]) == Flat(batches) + batch
  {
    assert (batches + [batch])[..|batches|] == batches;
  }

  lemma StillFollow(l: Limits, s: State, a: Action)
    requires CommitsFollow(s) && Enabled(l, s, a)
    ensures CommitsFollow(Apply(l, s, a))
  {
    if a.Commit? {
      assert s.core.toCommit[0] in s.core.toCommit;
      assert forall x :: x in s.core.toCommit[1..] ==> x in s.core.toCommit;
    }
  }

  /**
   Main result.  The batches, the one being built and the queue are, in this order, exactly the
   tasks that arrived: none is lost, doubled or overtaken.  No batch is empty or larger than
   INFERENCE_BATCH_SIZE, and a task is committed only after a batch that held it flushed all its
   results, unless it was no JSON.
   */
  lemma {:induction false} BatchesAreFifo(l: Limits, actions: seq<Action>)
    requires Run(l, actions).Some?
    ensures var s := Run(l, actions).value;
            s.arrived == InPlaces(s) && BatchSizes(l, s) && CommitsFollow(s)
  {
    if actions != [] {
      var n := |actions| - 1;
      BatchesAreFifo(l, actions[..n]);
      PlacesStep(l, Run(l, actions[..n]).value, actions[n]);
      SizesStep(l, Run(l, actions[..n]).value, actions[n]);
      StillFollow(l, Run(l, actions[..n]).value, actions[n]);
    }
  }

  // ---------------------------------------------------------------- what is committed

  /** What the commits queued so far become; fails[i] is whether the i-th commit raises. */
  function Landed(queued: seq<Item>, fails: seq<bool>, n: nat): seq<Item>
    requires n <= |queued| && n <= |fails|
  {
    if n == 0 then [] else Landed(queued, fails, n - 1) + if fails[n - 1] then [] else [queued[n - 1]]
  }

  /** The tasks of the batches that flushed all their results, in order. */
  function HandedOver(l: Limits, actions: seq<Action>): seq<Item>
    requires Run(l, actions).Some?
  {
    if actions == [] then []
    else
      var n := |actions| - 1;
      HandedOver(l, actions[..n]) + if actions[n] == Finish(true) then Run(l, actions[..n]).value.batcher.batch else []
  }

  /** Which commits were tried, in order, and whether each raised. */
  function Commits(actions: seq<Action>): (fails: seq<bool>)
  {
    if actions == [] then []
    else Commits(actions[..|actions| - 1]) + if actions[|actions| - 1].Commit? then [actions[|actions| - 1].failed] else []
  }

  function ValidOnly(items: seq<Item>): seq<Item>
  {
    if items == [] then []
    else ValidOnly(items[..|items| - 1]) + if items[|items| - 1].valid then [items[|items| - 1]] else []
  }

  lemma ValidOneMore(items: seq<Item>, x: Item)
    ensures ValidOnly(items + [x]) == ValidOnly(items) + if x.valid then [x] else []
  {
    assert (items + [x])[..|items|] == items;
  }

  /** Only JSON gets into the queue and on. */
  ghost predicate AllValid(s: State) {
    && (forall x :: x in s.core.pending ==> x.valid) && (forall x :: x in s.batcher.batch ==> x.valid)
    && (forall x :: x in s.core.toCommit ==> x.valid) && (s.poller.Holding? ==> s.poller.item.valid)
  }

  lemma StillValid(l: Limits, s: State, a: Action)
    requires AllValid(s) && Enabled(l, s, a)
    ensures AllValid(Apply(l, s, a))
  {
    if a.Commit? {
      assert forall x :: x in s.core.toCommit[1..] ==> x in s.core.toCommit;
    } else if a.Get? {
      assert forall x :: x in s.core.pending[1..] ==> x in s.core.pending;
      assert s.core.pending[0] in s.core.pending;
    }
  }

  lemma {:induction false} LandedPrefix(queued: seq<Item>, more: seq<Item>, fails: seq<bool>, last: seq<bool>, n: nat)
    requires n <= |queued| && n <= |fails|
    ensures Landed(queued + more, fails + last, n) == Landed(queued, fails, n)
  {
    if n > 0 {
      LandedPrefix(queued, more, fails, last, n - 1);
    }
  }

  /** The commits still to come and the tasks committed, against what was handed over and tried. */
  predicate Accounted(core: Core, handed: seq<Item>, fails: seq<bool>) {
    && |fails| <= |handed| && core.toCommit == handed[|fails|..]
    && ValidOnly(core.committed) == Landed(handed, fails, |fails|)
  }

  lemma CommitAccounted(core: Core, handed: seq<Item>, fails: seq<bool>, failed: bool)
    requires Accounted(core, handed, fails) && core.toCommit != [] && core.toCommit[0].valid
    ensures Accounted(core.(toCommit := core.toCommit[1..],
                            committed := core.committed + if failed then [] else [core.toCommit[0]]),
                      handed, fails + [failed])
  {
    var n := |fails|;
    assert core.toCommit[0] == handed[n] && handed[n..][1..] == handed[n + 1..];
    LandedPrefix(handed, [], fails, [failed], n);
    assert handed + [] == handed;
    if failed {
      assert core.committed + [] == core.committed;
    } else {
      ValidOneMore(core.committed, core.toCommit[0]);
    }
  }

  lemma FinishAccounted(core: Core, handed: seq<Item>, fails: seq<bool>, batch: seq<Item>)
    requires Accounted(core, handed, fails)
    ensures Accounted(core.(toCommit := core.toCommit + batch), handed + batch, fails)
  {
    LandedPrefix(handed, batch, fails, [], |fails|);
    assert fails + [] == fails;
    assert (handed + batch)[|fails|..] == handed[|fails|..] + batch;
  }

  lemma AccountedStep(l: Limits, s: State, a: Action, handed: seq<Item>, fails: seq<bool>)
    requires Enabled(l, s, a) && AllValid(s) && Accounted(s.core, handed, fails)
    ensures Accounted(Apply(l, s, a).core, handed + (if a == Finish(true) then s.batcher.batch else []),
                      fails + if a.Commit? then [a.failed] else [])
  {
    assert handed + [] == handed && fails + [] == fails;
    match a {
      case Commit(failed) => CommitAccounted(s.core, handed, fails, failed);
      case Finish(allFlushed) =>
        if allFlushed {
          FinishAccounted(s.core, handed, fails, s.batcher.batch);
        } else {
          assert s.core.toCommit + [] == s.core.toCommit;
        }
      case Return(item) =>
        if !item.valid { ValidOneMore(s.core.committed, item); }
      case _ =>
    }
  }

  /**
   Main result.  In every run the tasks of the batches that flushed all their results are handed to
   the poller in order; it tries to commit each of them once, in that order, and of the tasks that
   were JSON exactly those whose commit did not raise are committed.
   */
  lemma {:induction false} CommitsExactly(l: Limits, actions: seq<Action>)
    requires Run(l, actions).Some?
    ensures var s, handed, fails := Run(l, actions).value, HandedOver(l, actions), Commits(actions);
            && AllValid(s)
            && |fails| <= |handed| && s.core.toCommit == handed[|fails|..]
            && ValidOnly(s.core.committed) == Landed(handed, fails, |fails|)
  {
    if actions != [] {
      var n := |actions| - 1;
      CommitsExactly(l, actions[..n]);
      StillValid(l, Run(l, actions[..n]).value, actions[n]);
      AccountedStep(l, Run(l, actions[..n]).value, actions[n], HandedOver(l, actions[..n]), Commits(actions[..n]));
    }
  }

  // ---------------------------------------------------------------- the code, uninterrupted

  /** Taking k tasks, processing them and handing them over, uninterrupted, is a run of the machine. */
  lemma BatchIsARun(l: Limits, s: State, k: nat, allFlushed: bool) returns (actions: seq<Action>)
    requires s.batcher == Collecting([]) && 0 < k <= l.batch && k <= |s.core.pending|
    ensures var batch := s.core.pending[..k];
            From(l, s, actions) == Some(s.(core := s.core.(pending := s.core.pending[k..],
                                                           toCommit := s.core.toCommit + if allFlushed then batch else []),
                                           batches := s.batches + [batch],
                                           flushed := s.flushed + if allFlushed then Members(batch) else {}))
  {
    actions := GetsRun(l, s, k);
    Onward(l, s, actions, CloseBatch);
    actions := actions + [CloseBatch];
    Onward(l, s, actions, Finish(allFlushed));
    actions := actions + [Finish(allFlushed)];
  }

  lemma {:induction false} GetsRun(l: Limits, s: State, k: nat) returns (actions: seq<Action>)
    requires s.batcher == Collecting([]) && k <= l.batch && k <= |s.core.pending|
    ensures From(l, s, actions) == Some(s.(core := s.core.(pending := s.core.pending[k..]), batcher := Collecting(s.core.pending[..k])))
  {
    if k == 0 {
      actions := [];
      assert s.core.pending[0..] == s.core.pending;
    } else {
      actions := GetsRun(l, s, k - 1);
      assert s.core.pending[k - 1..][1..] == s.core.pending[k..];
      assert s.core.pending[..k - 1] + [s.core.pending[k - 1]] == s.core.pending[..k];
      Onward(l, s, actions, Get);
      actions := actions + [Get];
    }
  }

  /** What one rebalance inside poll() does: partitions taken away, or a new assignment. */
  datatype Rebalance = Lost(partitions: set<Partition>) | Gained(partitions: set<Partition>)

  /** The Kafka consumer; a commit or a poll answers as librdkafka does. */
  class Consumer {
    var owned: set<Partition>
    var held: set<Partition>
    var committed: seq<Item>

    constructor ()
      ensures owned == {} && held == {} && committed == []
    {
      owned, held, committed := {}, {}, [];
    }
  }

  function Drained(core: Core, fails: seq<bool>): Core
    requires |core.toCommit| <= |fails|
  {
    core.(toCommit := [], committed := core.committed + Landed(core.toCommit, fails, |core.toCommit|))
  }

  /** Where pause() or resume() raises, if it is called: the partitions that it reached before. */
  type Fault = Option<set<Partition>>

  /** The call is made and raises. */
  predicate Raises(l: Limits, core: Core, fault: Fault) {
    fault.Some? && (MustPause(l, core, |core.pending|) || MustResume(l, core, |core.pending|))
  }

  function Backpressured(l: Limits, core: Core, fault: Fault): Core {
    if MustPause(l, core, |core.pending|) then
      if fault.Some? then core.(held := core.held + fault.value * core.owned)
      else core.(held := core.held + core.owned, paused := true)
    else if MustResume(l, core, |core.pending|) then
      if fault.Some? then core.(held := core.held - fault.value)
      else core.(held := core.held - core.owned, paused := false)
    else core
  }

  function Rebalanced(core: Core, r: Rebalance): Core {
    match r
    case Lost(partitions) => core.(owned := core.owned - partitions, held := core.held - partitions)
    case Gained(partitions) => Assigned(core, partitions)
  }

  function RebalancedAll(core: Core, rs: seq<Rebalance>, n: nat): Core
    requires n <= |rs|
  {
    if n == 0 then core else Rebalanced(RebalancedAll(core, rs, n - 1), rs[n - 1])
  }

  /** poll() hands out a message only from an assigned partition that is not paused. */
  predicate Fetchable(core: Core, offer: Option<Item>) {
    offer.Some? && offer.value.partition in core.owned && offer.value.partition !in core.held
  }

  function Received(core: Core, offer: Option<Item>): Core {
    if !Fetchable(core, offer) then core
    else if offer.value.valid then core.(pending := core.pending + [offer.value])
    else core.(committed := core.committed + [offer.value])
  }

  /** One turn of poll_loop; an exception of pause() or resume() ends it before poll(). */
  function PollTurn(l: Limits, core: Core, fails: seq<bool>, fault: Fault, rs: seq<Rebalance>, offer: Option<Item>): Core
    requires |core.toCommit| <= |fails|
  {
    var drained := Drained(core, fails);
    var throttled := Backpressured(l, drained, fault);
    if Raises(l, drained, fault) then throttled else Received(RebalancedAll(throttled, rs, |rs|), offer)
  }

  /** One uninterrupted turn of poll_loop is a run of the machine, so the results above hold of the code below. */
  lemma TurnIsARun(l: Limits, s: State, fails: seq<bool>, fault: Fault, rs: seq<Rebalance>, offer: Option<Item>)
    returns (actions: seq<Action>)
    requires s.poller.Top? && |s.core.toCommit| <= |fails|
    ensures From(l, s, actions).Some?
    ensures var s' := From(l, s, actions).value;
            s' == s.(core := PollTurn(l, s.core, fails, fault, rs, offer), arrived := s'.arrived)
  {
    actions := DrainRun(l, s, fails, |s.core.toCommit|);
    assert s.core.toCommit[|s.core.toCommit|..] == [];
    if Raises(l, Drained(s.core, fails), fault) {
      actions := RaisingRun(l, s, actions, fault);
    } else {
      actions := BackpressureRun(l, s, actions, fault);
      actions := RebalanceRun(l, s, actions, rs, |rs|);
      actions := ReceiveRun(l, s, actions, offer);
    }
  }

  lemma RaisingRun(l: Limits, s: State, before: seq<Action>, fault: Fault) returns (actions: seq<Action>)
    requires From(l, s, before).Some? && From(l, s, before).value.poller.Top?
    requires Raises(l, From(l, s, before).value.core, fault)
    ensures var t := From(l, s, before).value;
            From(l, s, actions) == Some(t.(core := Backpressured(l, t.core, fault)))
  {
    var t := From(l, s, before).value;
    Onward(l, s, before, ReadSize);
    actions := before + [ReadSize];
    var a := if MustPause(l, t.core, |t.core.pending|) then Pause(true, fault.value) else Resume(true, fault.value);
    Onward(l, s, actions, a);
    actions := actions + [a];
  }

  lemma {:induction false} DrainRun(l: Limits, s: State, fails: seq<bool>, n: nat) returns (actions: seq<Action>)
    requires s.poller.Top? && n <= |s.core.toCommit| <= |fails|
    ensures From(l, s, actions) == Some(s.(core := s.core.(toCommit := s.core.toCommit[n..],
                                           committed := s.core.committed + Landed(s.core.toCommit, fails, n))))
  {
    if n == 0 {
      actions := [];
      assert s.core.toCommit[0..] == s.core.toCommit;
      assert s.core.committed + [] == s.core.committed;
    } else {
      actions := DrainRun(l, s, fails, n - 1);
      assert s.core.toCommit[n - 1..][1..] == s.core.toCommit[n..];
      Grow(s.core.committed, Landed(s.core.toCommit, fails, n - 1), if fails[n - 1] then [] else [s.core.toCommit[n - 1]]);
      Onward(l, s, actions, Commit(fails[n - 1]));
      actions := actions + [Commit(fails[n - 1])];
    }
  }

  lemma BackpressureRun(l: Limits, s: State, before: seq<Action>, fault: Fault) returns (actions: seq<Action>)
    requires From(l, s, before).Some? && From(l, s, before).value.poller.Top?
    requires !Raises(l, From(l, s, before).value.core, fault)
    ensures var t := From(l, s, before).value;
            From(l, s, actions) == Some(t.(core := Backpressured(l, t.core, fault), poller := Polling))
  {
    var t := From(l, s, before).value;
    Onward(l, s, before, ReadSize);
    actions := before + [ReadSize];
    if MustPause(l, t.core, |t.core.pending|) {
      Onward(l, s, actions, Pause(false, {}));
      actions := actions + [Pause(false, {})];
      Onward(l, s, actions, SetPaused);
      actions := actions + [SetPaused];
    } else if MustResume(l, t.core, |t.core.pending|) {
      Onward(l, s, actions, Resume(false, {}));
      actions := actions + [Resume(false, {})];
      Onward(l, s, actions, ClearPaused);
      actions := actions + [ClearPaused];
    } else {
      Onward(l, s, actions, NoChange);
      actions := actions + [NoChange];
    }
  }

  lemma {:induction false} RebalanceRun(l: Limits, s: State, before: seq<Action>, rs: seq<Rebalance>,
                                        n: nat) returns (actions: seq<Action>)
    requires n <= |rs| && From(l, s, before).Some? && From(l, s, before).value.poller.Polling?
    ensures var t := From(l, s, before).value;
            From(l, s, actions) == Some(t.(core := RebalancedAll(t.core, rs, n)))
  {
    if n == 0 {
      actions := before;
    } else {
      actions := RebalanceRun(l, s, before, rs, n - 1);
      var a := match rs[n - 1] case Lost(ps) => Revoke(ps) case Gained(ps) => Assign(ps);
      Onward(l, s, actions, a);
      actions := actions + [a];
    }
  }

  lemma ReceiveRun(l: Limits, s: State, before: seq<Action>, offer: Option<Item>) returns (actions: seq<Action>)
    requires From(l, s, before).Some? && From(l, s, before).value.poller.Polling?
    ensures From(l, s, actions).Some?
    ensures var t, t' := From(l, s, before).value, From(l, s, actions).value;
            t' == t.(core := Received(t.core, offer), poller := Top, arrived := t'.arrived)
  {
    if !Fetchable(From(l, s, before).value.core, offer) {
      Onward(l, s, before, ReturnNothing);
      actions := before + [ReturnNothing];
    } else {
      Onward(l, s, before, Return(offer.value));
      actions := before + [Return(offer.value)];
      if offer.value.valid {
        Onward(l, s, actions, Put);
        actions := actions + [Put];
      }
    }
  }

  class InferenceWorker {
    const consumer: Consumer
    var pending: seq<Item>
    var toCommit: seq<Item>
    var paused: bool

    constructor ()
      ensures View() == Start().core && fresh(consumer)
    {
      consumer := new Consumer();
      pending, toCommit, paused := [], [], false;
    }

    function View(): Core
      reads this, consumer
    {
      Core(pending, paused, consumer.owned, consumer.held, toCommit, consumer.committed)
    }

    method DrainCommits(fails: seq<bool>)
      requires |toCommit| <= |fails|
      modifies this`toCommit, consumer`committed
      ensures View() == Drained(old(View()), fails)
    {
      ghost var queued, committed := toCommit, consumer.committed;
      var i := 0;
      while toCommit != []
        invariant i <= |queued| && toCommit == queued[i..]
        invariant consumer.committed == committed + Landed(queued, fails, i)
        decreases |toCommit|
      {
        var msg := toCommit[0];
        toCommit := toCommit[1..];
        if !fails[i] {
          consumer.committed := consumer.committed + [msg];
        }
        i := i + 1;
      }
    }

    method ApplyBackpressure(l: Limits, fault: Fault) returns (raised: bool)
      modifies this`paused, consumer`held
      ensures View() == Backpressured(l, old(View()), fault) && raised == Raises(l, old(View()), fault)
    {
      var qsize := |pending|;
      raised := false;
      if !paused && qsize >= l.max {
        if fault.Some? {
          consumer.held := consumer.held + fault.value * consumer.owned;
          return true;
        }
        consumer.held := consumer.held + consumer.owned;
        paused := true;
      } else if paused && qsize <= l.resume {
        if fault.Some? {
          consumer.held := consumer.held - fault.value;
          return true;
        }
        consumer.held := consumer.held - consumer.owned;
        paused := false;
      }
    }

    method OnAssign(partitions: set<Partition>)
      modifies consumer`owned, consumer`held
      ensures View() == Assigned(old(View()), partitions)
    {
      consumer.owned, consumer.held := partitions, {};
      if paused {
        consumer.held := consumer.held + partitions;
      }
    }

    /** consumer.poll(): any number of rebalances, then perhaps a message. */
    method Poll(rs: seq<Rebalance>, offer: Option<Item>) returns (msg: Option<Item>)
      modifies consumer`owned, consumer`held
      ensures View() == RebalancedAll(old(View()), rs, |rs|)
      ensures msg == if Fetchable(View(), offer) then offer else None
    {
      var i := 0;
      while i < |rs|
        invariant i <= |rs|
        invariant View() == RebalancedAll(old(View()), rs, i)
      {
        match rs[i] {
          case Lost(partitions) =>
            consumer.owned, consumer.held := consumer.owned - partitions, consumer.held - partitions;
          case Gained(partitions) =>
            OnAssign(partitions);
        }
        i := i + 1;
      }
      msg := if offer.Some? && offer.value.partition in consumer.owned && offer.value.partition !in consumer.held
             then offer else None;
    }

    /** One turn of poll_loop. */
    method PollOnce(l: Limits, fails: seq<bool>, fault: Fault, rs: seq<Rebalance>, offer: Option<Item>)
      requires |toCommit| <= |fails|
      modifies this, consumer
      ensures View() == PollTurn(l, old(View()), fails, fault, rs, offer)
    {
      DrainCommits(fails);
      var raised := ApplyBackpressure(l, fault);
      if raised {
        return;
      }
      var msg := Poll(rs, offer);
      if msg.None? {
        return;
      }
      if !msg.value.valid {
        consumer.committed := consumer.committed + [msg.value];
        return;
      }
      pending := pending + [msg.value];
    }

    /**
     _collect_batch.  waits[i] is what happens around the i-th call of pending.get(); a
     shutdown ends the waits.  The batch is a prefix of everything queued.  Wait `first` brings the
     first task and sets the deadline; every later get() comes before the deadline and finds a task,
     except perhaps the last.  The batch is cut short only by an empty queue or by the deadline.
     */
    method CollectBatch(l: Limits, timeout: real, waits: seq<Wait>)
      returns (batch: seq<Item>, ghost used: nat, ghost first: nat)
      modifies this`pending
      ensures used <= |waits| && old(pending) + Arrivals(waits, used) == batch + pending
      ensures |batch| <= Larger(0, l.batch)
      ensures used < |waits| && |batch| < l.batch ==>
                batch != [] && first < used && (pending == [] || waits[used].now >= waits[first].after + timeout)
      ensures batch != [] ==> first < used && (first == 0 || old(pending) + Arrivals(waits, first) == [])
      ensures batch != [] ==> old(pending) + Arrivals(waits, first + 1) != []
      ensures batch == [] ==> used == 0 || pending == []
      ensures batch != [] ==> InTime(waits, first, used, waits[first].after + timeout)
      ensures batch != [] ==> |batch| == used - first || (|batch| == used - first - 1 && pending == [])
      ensures l.batch <= 0 ==> used == 0
    {
      ghost var queued := pending;
      batch, used, first := [], 0, 0;
      var i := 0;
      var deadline: Option<real> := None;
      while i < |waits| && |batch| < l.batch
        invariant i == used <= |waits|
        invariant Seen(queued, waits, i) == batch + pending
        invariant |batch| <= Larger(0, l.batch)
        invariant deadline.None? <==> batch == []
        invariant batch == [] && i > 0 ==> pending == []
        invariant batch != [] ==> first < i && deadline == Some(waits[first].after + timeout)
        invariant batch != [] ==> BringsFirst(queued, waits, first)
        invariant batch != [] ==> |batch| == i - first
        invariant l.batch <= 0 ==> i == 0
        invariant batch != [] ==> InTime(waits, first, i, waits[first].after + timeout)
      {
        if deadline.Some? && waits[i].now >= deadline.value {
          break;
        }
        InTimeNext(waits, first, i, deadline, waits[i].after + timeout);
        SeenNext(queued, waits, i, batch, pending);
        pending := pending + waits[i].arrivals;
        i, used := i + 1, used + 1;
        if pending == [] {
          if deadline.Some? {
            break;
          }
          continue;
        }
        Shift(batch, pending);
        batch, pending := batch + [pending[0]], pending[1..];
        if deadline.None? {
          deadline := Some(waits[i - 1].after + timeout);
          first := i - 1;
        }
      }
    }
  }

  /** Around one get(): the time read before it, the tasks that the poller put meanwhile, and the time after it. */
  datatype Wait = Wait(now: real, arrivals: seq<Item>, after: real)

  /** Everything queued by the time wait n begins. */
  ghost function Seen(queued: seq<Item>, waits: seq<Wait>, n: nat): seq<Item>
    requires n <= |waits|
  {
    queued + Arrivals(waits, n)
  }

  lemma SeenNext(queued: seq<Item>, waits: seq<Wait>, n: nat, batch: seq<Item>, pending: seq<Item>)
    requires n < |waits| && Seen(queued, waits, n) == batch + pending
    ensures Seen(queued, waits, n + 1) == batch + (pending + waits[n].arrivals)
  {
    Grow(queued, Arrivals(waits, n), waits[n].arrivals);
    Grow(batch, pending, waits[n].arrivals);
  }

  /** The waits after `first` and before n begin before the deadline. */
  ghost predicate InTime(waits: seq<Wait>, first: nat, n: nat, deadline: real)
    requires n <= |waits|
  {
    forall k :: first < k < n ==> waits[k].now < deadline
  }

  lemma InTimeNext(waits: seq<Wait>, first: nat, n: nat, deadline: Option<real>, own: real)
    requires n < |waits| && (deadline.Some? ==> InTime(waits, first, n, deadline.value) && waits[n].now < deadline.value)
    ensures deadline.Some? ==> InTime(waits, first, n + 1, deadline.value)
    ensures InTime(waits, n, n + 1, own)
  {
  }

  /** Nothing was queued before wait n, unless at the very beginning, and something was at its get(). */
  ghost predicate BringsFirst(queued: seq<Item>, waits: seq<Wait>, n: nat)
    requires n < |waits|
  {
    (n == 0 || Seen(queued, waits, n) == []) && Seen(queued, waits, n + 1) != []
  }

  function Arrivals(waits: seq<Wait>, n: nat): seq<Item>
    requires n <= |waits|
  {
    if n == 0 then [] else Arrivals(waits, n - 1) + waits[n - 1].arrivals
  }
}
