/**
 The code of Consumers and Reaper, run without interruption, is a run of TileProtocol: the
 machine whose interleavings the Tile modules reason about is made of these very steps.
 */
module TileCode {
  import opened Collections
  import opened JobRecords
  import opened TileProtocol
  import opened JobStore
  import Consumers
  import Dispatch
  import Reaper

  /** The state that the actions lead to from s, or None when one of them cannot happen. */
  function From(s: State, actions: seq<Action>): Option<State>
  {
    if actions == [] then Some(s)
    else
      var before := From(s, actions[..|actions| - 1]);
      var a := actions[|actions| - 1];
      if before.Some? && Enabled(before.value, a) then Some(Apply(before.value, a)) else None
  }

  lemma Take(s: State, actions: seq<Action>, u: State, a: Action) returns (longer: seq<Action>, u': State)
    requires From(s, actions) == Some(u) && Enabled(u, a)
    ensures u' == Apply(u, a) && From(s, longer) == Some(u') && longer == actions + [a]
  {
    longer, u' := actions + [a], Apply(u, a);
    assert longer[..|actions|] == actions;
  }

  /** One run after another. */
  lemma {:induction false} FromAppend(s: State, before: seq<Action>, u: State, more: seq<Action>)
    requires From(s, before) == Some(u)
    ensures From(s, before + more) == From(u, more)
  {
    if more == [] {
      assert before + more == before;
    } else {
      var n := |more| - 1;
      FromAppend(s, before, u, more[..n]);
      assert (before + more)[..|before| + n] == before + more[..n];
    }
  }

  lemma {:induction false} FromIsARun(s: State, actions: seq<Action>) returns (states: seq<State>)
    requires Initial(s) && From(s, actions).Some?
    ensures IsRun(states, actions) && states[0] == s
    ensures forall i :: 0 <= i <= |actions| ==> From(s, actions[..i]) == Some(states[i])
    ensures From(s, actions) == Some(states[|actions|])
  {
    if actions == [] {
      states := [s];
    } else {
      var n := |actions| - 1;
      var before := FromIsARun(s, actions[..n]);
      states := LongerRun(s, actions, before);
    }
  }

  lemma LongerRun(s: State, actions: seq<Action>, before: seq<State>) returns (states: seq<State>)
    requires actions != [] && From(s, actions).Some? && IsRun(before, actions[..|actions| - 1]) && before[0] == s
    requires forall i :: 0 <= i < |actions| ==> From(s, actions[..|actions| - 1][..i]) == Some(before[i])
    ensures IsRun(states, actions) && states[0] == s
    ensures forall i :: 0 <= i <= |actions| ==> From(s, actions[..i]) == Some(states[i])
    ensures From(s, actions) == Some(states[|actions|])
  {
    var n := |actions| - 1;
    states := before + [From(s, actions).value];
    assert actions[..n + 1] == actions && actions[..n][..n] == actions[..n];
    forall i | 0 <= i <= n
      ensures From(s, actions[..i]) == Some(states[i])
    {
      assert actions[..n][..i] == actions[..i];
    }
    forall i | 0 <= i < n
      ensures StepAt(states, actions, i)
    {
      assert StepAt(before, actions[..n], i);
    }
    assert StepAt(states, actions, n);
  }

  function Do(p: ProcId): Action {
    Step(p, true, {}, 0.0)
  }

  /** The same state, with process p at pc. */
  function With(s: State, p: ProcId, job: Job, hist: History, pc: Proc): State {
    s.(job := job, hist := hist, procs := s.procs[p := pc])
  }

  function Done(s: State): Status {
    if s.cfg.ml then Completed else Ready
  }

  // ---------------------------------------------------------------- consumers

  lemma ReceiveRun(s: State, before: seq<Action>, u: State, p: ProcId,
                   m: Consumers.Message) returns (actions: seq<Action>, u': State)
    requires From(s, before) == Some(u) && Pc(u, p).Idle? && (m.tile, m.info) in u.results
    ensures From(s, actions) == Some(u') && u' == With(u, p, u.job, u.hist, Storing(m.tile, m.info, m.seconds))
  {
    actions, u' := Take(s, before, u, Receive(p, m.tile, m.info, m.seconds));
  }

  /** HSET of the tile. */
  lemma StoreRun(s: State, before: seq<Action>, u: State, p: ProcId) returns (actions: seq<Action>, u': State)
    requires From(s, before) == Some(u) && p in u.procs && u.procs[p].Storing?
    ensures From(s, actions) == Some(u')
    ensures var pc := u.procs[p];
            u' == With(u, p, HSetTile(u.job, pc.t, pc.info), u'.hist,
                       if IsNewTile(u.job, pc.t) then Pushing((u.hist.gen, pc.t), pc.seconds) else Measuring)
    ensures u'.hist == u.hist.(stored := u'.hist.stored, created := u'.hist.created)
  {
    actions, u' := Take(s, before, u, Do(p));
  }

  /** RPUSH and HINCRBY of a first delivery. */
  lemma CountRun(s: State, before: seq<Action>, u: State, p: ProcId) returns (actions: seq<Action>, u': State)
    requires From(s, before) == Some(u) && p in u.procs && u.procs[p].Pushing?
    ensures From(s, actions) == Some(u')
    ensures u' == With(u, p, HIncrResults(RPushLatency(u.job, u.procs[p].seconds)), u'.hist, Measuring)
    ensures u'.hist == u.hist.(pushed := u'.hist.pushed, counted := u'.hist.counted)
  {
    var key, seconds := u.procs[p].key, u.procs[p].seconds;
    actions, u' := Take(s, before, u, Do(p));
    assert u' == With(u, p, RPushLatency(u.job, seconds), u'.hist, Counting(key));
    actions, u' := Take(s, actions, u', Do(p));
    assert u'.procs == u.procs[p := Measuring];
  }

  /** From the delivery of a message up to the HLEN. */
  lemma RecordRun(s: State, p: ProcId, m: Consumers.Message) returns (actions: seq<Action>, u: State)
    requires Pc(s, p).Idle? && (m.tile, m.info) in s.results
    ensures From(s, actions) == Some(u)
    ensures u == With(s, p, Recorded(s.job, m.tile, m.info, m.seconds), u.hist, Measuring)
  {
    actions, u := ReceiveRun(s, [], s, p, m);
    actions, u := StoreRun(s, actions, u, p);
    if IsNewTile(s.job, m.tile) {
      actions, u := CountRun(s, actions, u, p);
    }
    assert u.procs == s.procs[p := Measuring];
  }

  /** HLEN and the status check. */
  lemma CheckRun(s: State, before: seq<Action>, u: State, p: ProcId) returns (actions: seq<Action>, u': State)
    requires From(s, before) == Some(u) && p in u.procs && u.procs[p].Measuring?
    ensures From(s, actions) == Some(u')
    ensures u' == With(u, p, u.job, u.hist,
                       if u.job.status == Processing && |u.job.tiles| >= u.cfg.expected then Flipping else Idle)
  {
    actions, u' := Take(s, before, u, Do(p));
    assert u' == With(u, p, u.job, u.hist, Checking(|u.job.tiles|));
    actions, u' := Take(s, actions, u', Do(p));
    assert u'.procs == u.procs[p := u'.procs[p]];
  }

  /** _process_message of either pipeline, start to end. */
  lemma ConsumerIsARun(s: State, p: ProcId, m: Consumers.Message) returns (actions: seq<Action>)
    requires Pc(s, p).Idle? && (m.tile, m.info) in s.results
    requires Expected(s.job) == s.cfg.expected
    ensures From(s, actions).Some?
    ensures var s' := From(s, actions).value;
            && s'.job == Consumers.Processed(s.job, m, Done(s))
            && Pc(s', p).Idle? && (forall q :: q != p ==> Pc(s', q) == Pc(s, q))
            && s'.tasks == s.tasks && s'.results == s.results
            && s'.blobs == (if s.cfg.ml && Consumers.Finishes(s.job, m) then {} else s.blobs)
  {
    var u: State;
    actions, u := RecordRun(s, p, m);
    actions, u := CheckRun(s, actions, u, p);
    if Consumers.Finishes(s.job, m) {
      actions, u := FlipRun(s, actions, u, p);
    }
  }

  /** The completion transition, with the metric and the blob sweep of the ML pipeline. */
  lemma FlipRun(s: State, before: seq<Action>, u: State, p: ProcId) returns (actions: seq<Action>, u': State)
    requires From(s, before) == Some(u) && p in u.procs && u.procs[p].Flipping?
    ensures From(s, actions) == Some(u')
    ensures u' == With(u, p, HSetStatus(u.job, Done(u)), u.hist, Idle).(blobs := if u.cfg.ml then {} else u.blobs)
  {
    actions, u' := Take(s, before, u, Do(p));
    if u.cfg.ml {
      assert u' == With(u, p, HSetStatus(u.job, Done(u)), u.hist, Announcing);
      actions, u' := AnnounceRun(s, actions, u', p);
      assert u'.procs == u.procs[p := Idle];
    }
  }

  lemma AnnounceRun(s: State, before: seq<Action>, u: State, p: ProcId) returns (actions: seq<Action>, u': State)
    requires From(s, before) == Some(u) && p in u.procs && u.procs[p].Announcing?
    ensures From(s, actions) == Some(u') && u' == With(u, p, u.job, u.hist, Idle).(blobs := {})
  {
    actions, u' := Take(s, before, u, Do(p));
    assert u' == With(u, p, u.job, u.hist, Sweeping);
    actions, u' := BlobsRun(s, actions, u', p);
    assert u'.procs == u.procs[p := Idle];
  }

  // ---------------------------------------------------------------- reapers

  /** `blobs` are the tiles for which the reaper has a message to send. */
  ghost predicate Sends(messages: Reaper.Messages, expected: nat, blobs: set<TileId>) {
    forall t: TileId, attempt: int :: 0 <= t < expected ==>
      && (messages(t, attempt).Some? <==> t in blobs)
      && (messages(t, attempt).Some? ==> messages(t, attempt).value.task.tile == t)
  }

  function TilesOf(sent: seq<Dispatch.Record>): (r: set<TileId>)
    ensures forall t :: t in r <==> exists i :: 0 <= i < |sent| && sent[i].task.tile == t
  {
    set i | 0 <= i < |sent| :: sent[i].task.tile
  }

  /** u, after process p has come to pc having sent `sent`; the history is not compared. */
  predicate Arrived(s: State, u: State, p: ProcId, r: Reaper.Swept, pc: Proc) {
    u == s.(job := r.job, tasks := s.tasks + TilesOf(r.sent), hist := u.hist, procs := s.procs[p := pc])
  }

  /** One turn of the reaper's loop. */
  lemma RetriedRun(s: State, before: seq<Action>, u: State, p: ProcId, messages: Reaper.Messages)
    returns (actions: seq<Action>, u': State)
    requires From(s, before) == Some(u) && p in u.procs && u.procs[p].Looping? && u.procs[p].rest != []
    requires 0 <= u.procs[p].rest[0] < u.cfg.expected && Sends(messages, u.cfg.expected, u.blobs)
    ensures From(s, actions) == Some(u')
    ensures Arrived(u, u', p, Reaper.Retried(u.job, u.procs[p].rest[0], messages, u.cfg.maxAttempts),
                    Looping(u.procs[p].sweep, u.procs[p].rest[1..]))
  {
    var w, t, rest := u.procs[p].sweep, u.procs[p].rest[0], u.procs[p].rest[1..];
    var value := Attempts(u.job, t) + 1;
    var v: State;
    actions, v := IncrRun(s, before, u, p);
    assert messages(t, value + 1).Some? <==> t in u.blobs;
    if value + 1 > u.cfg.maxAttempts {
      actions, u' := GiveUpRun(s, actions, v, p);
    } else if t in u.blobs {
      actions, u' := SendRun(s, actions, v, p);
      TilesOfOne(messages(t, value + 1).value);
    } else {
      actions, v := MissRun(s, actions, v, p);
      actions, u' := GiveUpRun(s, actions, v, p);
    }
    assert u'.procs == u.procs[p := Looping(w, rest)];
  }

  /** INCR of the attempt counter. */
  lemma IncrRun(s: State, before: seq<Action>, u: State, p: ProcId) returns (actions: seq<Action>, u': State)
    requires From(s, before) == Some(u) && p in u.procs && u.procs[p].Looping? && u.procs[p].rest != []
    ensures From(s, actions) == Some(u')
    ensures var w, t, rest := u.procs[p].sweep, u.procs[p].rest[0], u.procs[p].rest[1..];
            var value := Attempts(u.job, t) + 1;
            u' == With(u, p, IncrAttempts(u.job, t), u'.hist,
                       if value + 1 > u.cfg.maxAttempts then Abandoning(w, rest, t)
                       else Probing(w, rest, Ticket(t, u.hist.resets, value)))
    ensures u'.hist == u.hist.(tickets := u'.hist.tickets)
  {
    actions, u' := Take(s, before, u, Do(p));
  }

  /** The blob is there, and the task is produced. */
  lemma SendRun(s: State, before: seq<Action>, u: State, p: ProcId) returns (actions: seq<Action>, u': State)
    requires From(s, before) == Some(u) && p in u.procs && u.procs[p].Probing? && u.procs[p].ticket.tile in u.blobs
    ensures From(s, actions) == Some(u')
    ensures u' == With(u, p, u.job, u'.hist, Looping(u.procs[p].sweep, u.procs[p].rest)).(tasks := u.tasks + {u.procs[p].ticket.tile})
    ensures u'.hist == u.hist.(requeued := u.hist.requeued + [u.procs[p].ticket])
  {
    actions, u' := Take(s, before, u, Do(p));
    assert u' == With(u, p, u.job, u.hist, Producing(u.procs[p].sweep, u.procs[p].rest, u.procs[p].ticket));
    actions, u' := Take(s, actions, u', Do(p));
    assert u'.procs == u.procs[p := u'.procs[p]];
  }

  /** The blob is gone. */
  lemma MissRun(s: State, before: seq<Action>, u: State, p: ProcId) returns (actions: seq<Action>, u': State)
    requires From(s, before) == Some(u) && p in u.procs && u.procs[p].Probing?
    ensures From(s, actions) == Some(u')
    ensures u' == With(u, p, u.job, u.hist, Abandoning(u.procs[p].sweep, u.procs[p].rest, u.procs[p].ticket.tile))
  {
    actions, u' := Take(s, before, u, Step(p, false, {}, 0.0));
  }

  /** SADD to the abandoned set. */
  lemma GiveUpRun(s: State, before: seq<Action>, u: State, p: ProcId) returns (actions: seq<Action>, u': State)
    requires From(s, before) == Some(u) && p in u.procs && u.procs[p].Abandoning?
    ensures From(s, actions) == Some(u')
    ensures u' == With(u, p, SAddAbandoned(u.job, u.procs[p].tile), u'.hist, Looping(u.procs[p].sweep, u.procs[p].rest))
    ensures u'.hist == u.hist.(gaveUp := u'.hist.gaveUp)
  {
    actions, u' := Take(s, before, u, Do(p));
  }

  lemma TilesOfOne(record: Dispatch.Record)
    ensures TilesOf([record]) == {record.task.tile}
  {
    assert [record][0].task.tile in TilesOf([record]);
  }

  lemma TilesOfBoth(a: seq<Dispatch.Record>, b: seq<Dispatch.Record>)
    ensures TilesOf(a + b) == TilesOf(a) + TilesOf(b)
  {
    var c := a + b;
    forall t | t in TilesOf(a) + TilesOf(b)
      ensures t in TilesOf(c)
    {
      if t in TilesOf(a) {
        var i :| 0 <= i < |a| && a[i].task.tile == t;
        assert c[i].task.tile == t;
      } else {
        var i :| 0 <= i < |b| && b[i].task.tile == t;
        assert c[|a| + i].task.tile == t;
      }
    }
    forall t | t in TilesOf(c)
      ensures t in TilesOf(a) + TilesOf(b)
    {
      var i :| 0 <= i < |c| && c[i].task.tile == t;
      assert if i < |a| then a[i].task.tile == t else b[i - |a|].task.tile == t;
    }
  }

  /** The first n turns of the loop. */
  lemma {:induction false} LoopRun(s: State, before: seq<Action>, u: State, p: ProcId, w: nat,
                                   tiles: seq<TileId>, n: nat, messages: Reaper.Messages)
    returns (actions: seq<Action>, u': State)
    requires n <= |tiles| && From(s, before) == Some(u) && p in u.procs && u.procs[p] == Looping(w, tiles)
    requires (forall i :: 0 <= i < |tiles| ==> 0 <= tiles[i] < u.cfg.expected) && Sends(messages, u.cfg.expected, u.blobs)
    ensures From(s, actions) == Some(u')
    ensures Arrived(u, u', p, Reaper.RetryLoop(u.job, tiles, n, messages, u.cfg.maxAttempts), Looping(w, tiles[n..]))
  {
    if n == 0 {
      actions, u' := before, u;
      assert tiles[0..] == tiles && u.procs == u.procs[p := Looping(w, tiles)];
      assert TilesOf([]) == {};
    } else {
      var v: State;
      actions, v := LoopRun(s, before, u, p, w, tiles, n - 1, messages);
      actions, u' := TurnRun(s, actions, u, v, p, w, tiles, n - 1, messages);
    }
  }

  /** One more turn. */
  lemma TurnRun(s: State, before: seq<Action>, u: State, v: State, p: ProcId, w: nat, tiles: seq<TileId>,
                n: nat, messages: Reaper.Messages)
    returns (actions: seq<Action>, u': State)
    requires n < |tiles| && From(s, before) == Some(v)
    requires Arrived(u, v, p, Reaper.RetryLoop(u.job, tiles, n, messages, u.cfg.maxAttempts), Looping(w, tiles[n..]))
    requires 0 <= tiles[n] < u.cfg.expected && Sends(messages, u.cfg.expected, u.blobs)
    ensures From(s, actions) == Some(u')
    ensures Arrived(u, u', p, Reaper.RetryLoop(u.job, tiles, n + 1, messages, u.cfg.maxAttempts), Looping(w, tiles[n + 1..]))
  {
    var r := Reaper.RetryLoop(u.job, tiles, n, messages, u.cfg.maxAttempts);
    var one := Reaper.Retried(r.job, tiles[n], messages, u.cfg.maxAttempts);
    assert tiles[n..][0] == tiles[n] && tiles[n..][1..] == tiles[n + 1..];
    actions, u' := RetriedRun(s, before, v, p, messages);
    Reaper.LoopNext(u.job, tiles, n, messages, u.cfg.maxAttempts, one);
    ArrivedTwice(u, v, u', p, r, one, Looping(w, tiles[n..]), Looping(w, tiles[n + 1..]));
  }

  lemma ArrivedTwice(u: State, v: State, w: State, p: ProcId, first: Reaper.Swept, second: Reaper.Swept, pc: Proc, pc': Proc)
    requires Arrived(u, v, p, first, pc) && Arrived(v, w, p, second, pc')
    ensures Arrived(u, w, p, Reaper.Swept(second.job, first.sent + second.sent), pc')
  {
    TilesOfBoth(first.sent, second.sent);
    assert w.procs == u.procs[p := pc'];
  }

  /** Up to the point where the sweep knows what to retry. */
  lemma ScanRun(s: State, p: ProcId) returns (actions: seq<Action>, u: State)
    requires Pc(s, p).Idle? && s.job.status == Processing && Expected(s.job) == s.cfg.expected
    requires Reaper.Missing(s.job) != []
    ensures From(s, actions) == Some(u)
    ensures Arrived(s, u, p, Reaper.Swept(s.job, []),
                    if Reaper.Retryable(s.job) == [] then Degrading else Looping(s.hist.nextSweep, Reaper.Retryable(s.job)))
  {
    actions, u := ClockRun(s, [], s, p);
    MissingSome(s);
    actions, u := TilesRun(s, actions, u, p);
    assert u.procs == s.procs[p := ReadingAbandoned(s.job.tiles.Keys)];
    actions, u := AbandonedRun(s, actions, u, p);
  }

  /** The job is processing and its grace period is over. */
  lemma ClockRun(s: State, before: seq<Action>, u: State, p: ProcId) returns (actions: seq<Action>, u': State)
    requires From(s, before) == Some(u) && Pc(u, p).Idle? && u.job.status == Processing
    ensures From(s, actions) == Some(u') && u' == With(u, p, u.job, u.hist, ReadingTiles)
  {
    actions, u' := Take(s, before, u, Reap(p));
    assert u' == With(u, p, u.job, u.hist, ReadingClock);
    actions, u' := Take(s, actions, u', Do(p));
    assert u'.procs == u.procs[p := ReadingTiles];
  }

  lemma TilesRun(s: State, before: seq<Action>, u: State, p: ProcId) returns (actions: seq<Action>, u': State)
    requires From(s, before) == Some(u) && p in u.procs && u.procs[p].ReadingTiles?
    requires !(Range(u.cfg.expected) <= u.job.tiles.Keys)
    ensures From(s, actions) == Some(u') && u' == With(u, p, u.job, u.hist, ReadingAbandoned(u.job.tiles.Keys))
  {
    actions, u' := Take(s, before, u, Do(p));
  }

  lemma MissingSome(s: State)
    requires Expected(s.job) == s.cfg.expected && Reaper.Missing(s.job) != []
    ensures !(Range(s.cfg.expected) <= s.job.tiles.Keys)
  {
    var t := Reaper.Missing(s.job)[0];
    assert t in Reaper.Missing(s.job);
    assert t in Range(s.cfg.expected) && t !in s.job.tiles.Keys;
  }

  lemma AbandonedRun(s: State, before: seq<Action>, u: State, p: ProcId) returns (actions: seq<Action>, u': State)
    requires From(s, before) == Some(u) && u == With(s, p, s.job, s.hist, ReadingAbandoned(s.job.tiles.Keys))
    requires Expected(s.job) == s.cfg.expected
    ensures From(s, actions) == Some(u')
    ensures Arrived(s, u', p, Reaper.Swept(s.job, []),
                    if Reaper.Retryable(s.job) == [] then Degrading else Looping(s.hist.nextSweep, Reaper.Retryable(s.job)))
  {
    actions, u' := ListRun(s, before, u, p);
    assert TilesOf([]) == {};
    assert u'.procs == s.procs[p := u'.procs[p]];
  }

  /** SMEMBERS of the abandoned set, and what follows from it. */
  lemma ListRun(s: State, before: seq<Action>, u: State, p: ProcId) returns (actions: seq<Action>, u': State)
    requires From(s, before) == Some(u) && p in u.procs && u.procs[p].ReadingAbandoned?
    ensures From(s, actions) == Some(u')
    ensures var retryable := Outstanding(u.cfg.expected, u.procs[p].received, u.job.abandoned);
            u' == if retryable == [] then With(u, p, u.job, u.hist, Degrading)
                  else With(u, p, u.job, u.hist.(nextSweep := u.hist.nextSweep + 1), Looping(u.hist.nextSweep, retryable))
  {
    actions, u' := Take(s, before, u, Do(p));
  }

  lemma StatusRun(s: State, before: seq<Action>, u: State, p: ProcId) returns (actions: seq<Action>, u': State)
    requires From(s, before) == Some(u) && p in u.procs && u.procs[p].Degrading?
    ensures From(s, actions) == Some(u') && u' == With(u, p, HSetStatus(u.job, Degraded), u.hist, Sweeping)
  {
    actions, u' := Take(s, before, u, Do(p));
  }

  lemma BlobsRun(s: State, before: seq<Action>, u: State, p: ProcId) returns (actions: seq<Action>, u': State)
    requires From(s, before) == Some(u) && p in u.procs && u.procs[p].Sweeping?
    ensures From(s, actions) == Some(u') && u' == With(u, p, u.job, u.hist, Idle).(blobs := {})
  {
    actions, u' := Take(s, before, u, Step(p, true, u.blobs, 0.0));
    assert u'.blobs == {};
  }

  lemma DegradeRun(s: State, before: seq<Action>, u: State, p: ProcId) returns (actions: seq<Action>, u': State)
    requires From(s, before) == Some(u) && p in u.procs && u.procs[p].Degrading?
    ensures From(s, actions) == Some(u')
    ensures u' == With(u, p, HSetStatus(u.job, Degraded), u.hist, Idle).(blobs := {})
  {
    actions, u' := StatusRun(s, before, u, p);
    actions, u' := BlobsRun(s, actions, u', p);
    assert u'.procs == u.procs[p := Idle];
  }

  lemma FinishRun(s: State, before: seq<Action>, u: State, p: ProcId, now: real) returns (actions: seq<Action>, u': State)
    requires From(s, before) == Some(u) && p in u.procs && u.procs[p].Looping? && u.procs[p].rest == []
    ensures From(s, actions) == Some(u')
    ensures u' == With(u, p, HSetLastReap(u.job, now), u.hist.(done := u.hist.done + {u.procs[p].sweep}), Idle)
  {
    actions, u' := Take(s, before, u, Step(p, true, {}, now));
  }

  /** One sweep over the job, start to end; an exception in it is a crash at that command. */
  lemma SweepIsARun(s: State, p: ProcId, id: JobId, now: real, visit: Reaper.Visit, settings: Reaper.Settings)
    returns (actions: seq<Action>)
    requires Pc(s, p).Idle? && Expected(s.job) == s.cfg.expected && settings.maxAttempts == s.cfg.maxAttempts
    requires Reaper.Due(s.job, now, settings) && Reaper.Missing(s.job) != []
    requires Dispatch.TileSizeOf(s.job.meta.value, settings.tileSize) != 0
    requires Sends(Reaper.MessagesOf(id, s.job.meta.value, visit.present, settings), s.cfg.expected, s.blobs)
    ensures From(s, actions).Some?
    ensures var s', r := From(s, actions).value, Reaper.SweptJob(id, s.job, now, visit, settings);
            && s'.job == r.job && s'.tasks == s.tasks + TilesOf(r.sent) && s'.results == s.results
            && Pc(s', p).Idle? && (forall q :: q != p ==> Pc(s', q) == Pc(s, q))
            && s'.blobs == if Reaper.TurnsDegraded(s.job, now, settings) then {} else s.blobs
  {
    var u, u': State;
    var messages := Reaper.MessagesOf(id, s.job.meta.value, visit.present, settings);
    actions, u := ScanRun(s, p);
    if Reaper.Retryable(s.job) == [] {
      actions, u' := DegradeRun(s, actions, u, p);
      assert TilesOf([]) == {};
    } else {
      Reaper.SweepIsLoop(id, s.job, now, visit, settings);
      actions, u' := RetryRun(s, actions, u, p, messages, visit.cut, now);
    }
  }

  /** The sweep of a processing job that is not due, or misses nothing, changes nothing. */
  lemma IdleSweepIsARun(s: State, p: ProcId, id: JobId, now: real, visit: Reaper.Visit, settings: Reaper.Settings)
    returns (actions: seq<Action>)
    requires Pc(s, p).Idle? && s.job.status == Processing && Expected(s.job) == s.cfg.expected
    requires !Reaper.Due(s.job, now, settings) || Reaper.Missing(s.job) == []
    ensures Reaper.SweptJob(id, s.job, now, visit, settings) == Reaper.Swept(s.job, [])
    ensures From(s, actions) == Some(s.(procs := s.procs[p := Idle]))
  {
    var u: State;
    if Reaper.Due(s.job, now, settings) {
      actions, u := ClockRun(s, [], s, p);
      actions, u := NothingMissingRun(s, actions, u, p);
    } else {
      actions, u := Take(s, [], s, Reap(p));
      actions, u := NotDueRun(s, actions, u, p);
    }
    assert u.procs == s.procs[p := Idle];
  }

  lemma NothingMissingRun(s: State, before: seq<Action>, u: State, p: ProcId) returns (actions: seq<Action>, u': State)
    requires From(s, before) == Some(u) && p in u.procs && u.procs[p].ReadingTiles?
    requires Expected(u.job) == u.cfg.expected && Reaper.Missing(u.job) == []
    ensures From(s, actions) == Some(u') && u' == With(u, p, u.job, u.hist, Idle)
  {
    forall t | t in Range(u.cfg.expected)
      ensures t in u.job.tiles.Keys
    {
      assert t !in Reaper.Missing(u.job);
    }
    actions, u' := Take(s, before, u, Do(p));
  }

  lemma NotDueRun(s: State, before: seq<Action>, u: State, p: ProcId) returns (actions: seq<Action>, u': State)
    requires From(s, before) == Some(u) && p in u.procs && u.procs[p].ReadingClock?
    ensures From(s, actions) == Some(u') && u' == With(u, p, u.job, u.hist, Idle)
  {
    actions, u' := Take(s, before, u, Step(p, false, {}, 0.0));
  }

  /** The loop over the retryable tiles, and the reap clock, or the exception. */
  lemma RetryRun(s: State, before: seq<Action>, u: State, p: ProcId, messages: Reaper.Messages, cut: Option<Reaper.Cut>, now: real)
    returns (actions: seq<Action>, u': State)
    requires From(s, before) == Some(u) && Expected(s.job) == s.cfg.expected && Sends(messages, s.cfg.expected, s.blobs)
    requires Arrived(s, u, p, Reaper.Swept(s.job, []), Looping(s.hist.nextSweep, Reaper.Retryable(s.job)))
    ensures From(s, actions) == Some(u')
    ensures Arrived(s, u', p, Reaper.LoopEnd(s.job, Reaper.Retryable(s.job), messages, s.cfg.maxAttempts, cut, now), Idle)
  {
    var tiles := Reaper.Retryable(s.job);
    assert forall i :: 0 <= i < |tiles| ==> tiles[i] in tiles;
    var n := Reaper.Through(tiles, cut);
    var v: State;
    actions, v := LoopRun(s, before, u, p, s.hist.nextSweep, tiles, n, messages);
    var looped := Reaper.RetryLoop(s.job, tiles, n, messages, s.cfg.maxAttempts);
    ArrivedTwice(s, u, v, p, Reaper.Swept(s.job, []), looped, Looping(s.hist.nextSweep, tiles), Looping(s.hist.nextSweep, tiles[n..]));
    assert [] + looped.sent == looped.sent;
    actions, u' := EndRun(s, actions, v, p, looped, tiles[n..], Reaper.CutOff(tiles, cut), cut.None?, now);
  }

  /** What follows the loop. */
  lemma EndRun(s: State, before: seq<Action>, u: State, p: ProcId, looped: Reaper.Swept, rest: seq<TileId>, last: Option<TileId>,
               whole: bool, now: real) returns (actions: seq<Action>, u': State)
    requires From(s, before) == Some(u) && Arrived(s, u, p, looped, Looping(s.hist.nextSweep, rest))
    requires if whole then rest == [] else last.Some? ==> rest != [] && rest[0] == last.value
    ensures From(s, actions) == Some(u')
    ensures var job := if whole then HSetLastReap(looped.job, now)
                       else if last.Some? then IncrAttempts(looped.job, last.value) else looped.job;
            Arrived(s, u', p, Reaper.Swept(job, looped.sent), Idle)
  {
    if whole {
      actions, u' := FinishRun(s, before, u, p, now);
    } else {
      actions, u' := CutRun(s, before, u, p, last);
    }
    assert u'.procs == s.procs[p := Idle];
  }

  /** The exception, after the attempt of `last` if there is such a tile. */
  lemma CutRun(s: State, before: seq<Action>, u: State, p: ProcId, last: Option<TileId>) returns (actions: seq<Action>, u': State)
    requires From(s, before) == Some(u) && p in u.procs && u.procs[p].Looping?
    requires last.Some? ==> u.procs[p].rest != [] && u.procs[p].rest[0] == last.value
    ensures From(s, actions) == Some(u')
    ensures u' == With(u, p, if last.Some? then IncrAttempts(u.job, last.value) else u.job, u'.hist, Idle)
  {
    actions, u' := before, u;
    if last.Some? {
      actions, u' := IncrRun(s, actions, u', p);
    }
    actions, u' := Take(s, actions, u', Crash(p));
    assert u'.procs == u.procs[p := Idle];
  }

  // ---------------------------------------------------------------- /reconstruct

  /** /reconstruct finds enough tiles, renders them, and deletes the three tile keys. */
  lemma RenderRun(s: State, before: seq<Action>, u: State, p: ProcId) returns (actions: seq<Action>, u': State)
    requires From(s, before) == Some(u) && Pc(u, p).Idle? && |u.job.tiles| >= u.cfg.expected
    ensures From(s, actions) == Some(u')
    ensures u' == With(u, p, DelTileKeys(HSetStatus(u.job, Completed)), u.hist.(gen := u.hist.gen + 1), DeletingAttempts)
  {
    actions, u' := AdmitRun(s, before, u, p);
    actions, u' := ClearRun(s, actions, u', p);
    assert u'.procs == u.procs[p := DeletingAttempts];
  }

  lemma AdmitRun(s: State, before: seq<Action>, u: State, p: ProcId) returns (actions: seq<Action>, u': State)
    requires From(s, before) == Some(u) && Pc(u, p).Idle? && |u.job.tiles| >= u.cfg.expected
    ensures From(s, actions) == Some(u') && u' == With(u, p, u.job, u.hist, Rendering)
  {
    actions, u' := RequestRun(s, before, u, p);
    actions, u' := Take(s, actions, u', Do(p));
    assert u'.procs == u.procs[p := Rendering];
  }

  lemma ClearRun(s: State, before: seq<Action>, u: State, p: ProcId) returns (actions: seq<Action>, u': State)
    requires From(s, before) == Some(u) && p in u.procs && u.procs[p].Rendering?
    ensures From(s, actions) == Some(u')
    ensures u' == With(u, p, DelTileKeys(HSetStatus(u.job, Completed)), u.hist.(gen := u.hist.gen + 1), DeletingAttempts)
  {
    actions, u' := Take(s, before, u, Do(p));
    assert u' == With(u, p, HSetStatus(u.job, Completed), u.hist, Deleting);
    actions, u' := Take(s, actions, u', Do(p));
    assert u'.procs == u.procs[p := DeletingAttempts];
  }

  /** DEL of the attempt counters that SCAN reported. */
  lemma AttemptsRun(s: State, before: seq<Action>, u: State, p: ProcId,
                    scanned: set<TileId>) returns (actions: seq<Action>, u': State)
    requires From(s, before) == Some(u) && p in u.procs && u.procs[p].DeletingAttempts?
    ensures From(s, actions) == Some(u')
    ensures u' == With(u, p, DelAttempts(u.job, scanned),
                       u.hist.(resets := if scanned == {} then u.hist.resets else u.hist.resets + 1), Sweeping)
  {
    actions, u' := Take(s, before, u, Step(p, true, scanned, 0.0));
    assert u'.procs == u.procs[p := Sweeping];
  }

  /** /reconstruct of a job that holds enough tiles, start to end. */
  lemma ReconstructIsARun(s: State, p: ProcId) returns (actions: seq<Action>)
    requires Pc(s, p).Idle? && |s.job.tiles| >= s.cfg.expected
    ensures From(s, actions).Some?
    ensures var s' := From(s, actions).value;
            && s'.job == Cleared(s.job)
            && Pc(s', p).Idle? && (forall q :: q != p ==> Pc(s', q) == Pc(s, q))
            && s'.tasks == s.tasks && s'.results == s.results && s'.blobs == {}
  {
    var u: State;
    actions, u := RenderRun(s, [], s, p);
    actions, u := AttemptsRun(s, actions, u, p, s.job.attempts.Keys);
    assert s.job.attempts - s.job.attempts.Keys == map[];
    actions, u := BlobsRun(s, actions, u, p);
  }

  /** /reconstruct of a job that does not changes nothing. */
  lemma EarlyReconstructIsARun(s: State, p: ProcId) returns (actions: seq<Action>)
    requires Pc(s, p).Idle? && |s.job.tiles| < s.cfg.expected
    ensures From(s, actions) == Some(s.(procs := s.procs[p := Idle]))
  {
    var u: State;
    actions, u := RequestRun(s, [], s, p);
    actions, u := RefuseRun(s, actions, u, p);
    assert u.procs == s.procs[p := Idle];
  }

  lemma RequestRun(s: State, before: seq<Action>, u: State, p: ProcId) returns (actions: seq<Action>, u': State)
    requires From(s, before) == Some(u) && Pc(u, p).Idle?
    ensures From(s, actions) == Some(u') && u' == With(u, p, u.job, u.hist, CountingTiles)
  {
    actions, u' := Take(s, before, u, Reconstruct(p));
  }

  lemma RefuseRun(s: State, before: seq<Action>, u: State, p: ProcId) returns (actions: seq<Action>, u': State)
    requires From(s, before) == Some(u) && p in u.procs && u.procs[p].CountingTiles? && |u.job.tiles| < u.cfg.expected
    ensures From(s, actions) == Some(u') && u' == With(u, p, u.job, u.hist, Idle)
  {
    actions, u' := Take(s, before, u, Do(p));
  }
}
