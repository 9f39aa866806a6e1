/** master/rate_limit.py: the sliding-window limiter and its periodic sweep. */
module RateLimit {
  import opened Collections

  const RATE_LIMIT := 10
  const RATE_WINDOW := 60.0
  const SWEEP_EVERY_N_CALLS := 500

  type Ip = string

  /** request_counts and _rate_limit_calls. */
  datatype Table = Table(counts: map<Ip, seq<real>>, calls: nat)

  function Stored(counts: map<Ip, seq<real>>, ip: Ip): seq<real> {
    if ip in counts then counts[ip] else []
  }

  /** [t for t in times if now - t < RATE_WINDOW] */
  function InWindow(times: seq<real>, now: real): (r: seq<real>)
    ensures |r| <= |times|
  {
    if times == [] then []
    else (if now - times[0] < RATE_WINDOW then [times[0]] else []) + InWindow(times[1..], now)
  }

  predicate Live(times: seq<real>, now: real) {
    exists i :: 0 <= i < |times| && now - times[i] < RATE_WINDOW
  }

  function Swept(counts: map<Ip, seq<real>>, now: real): map<Ip, seq<real>> {
    map ip | ip in counts && Live(counts[ip], now) :: counts[ip]
  }

  predicate Accepts(table: Table, ip: Ip, now: real) {
    |InWindow(Stored(table.counts, ip), now)| < RATE_LIMIT
  }

  predicate SweepsAt(table: Table, ip: Ip, now: real) {
    Accepts(table, ip, now) && (table.calls + 1) % SWEEP_EVERY_N_CALLS == 0
  }

  /** The table after one request. */
  function Requested(table: Table, ip: Ip, now: real): Table
  {
    var pruned := InWindow(Stored(table.counts, ip), now);
    if !Accepts(table, ip, now) then table.(counts := table.counts[ip := pruned])
    else
      var counts := table.counts[ip := pruned + [now]];
      Table(if SweepsAt(table, ip, now) then Swept(counts, now) else counts, table.calls + 1)
  }

  class RateLimiter {
    var counts: map<Ip, seq<real>>
    var calls: nat

    constructor ()
      ensures View() == Table(map[], 0)
    {
      counts, calls := map[], 0;
    }

    function View(): Table
      reads this
    {
      Table(counts, calls)
    }

    /** _sweep_stale_ips; the caller holds the lock. */
    method SweepStaleIps(now: real)
      modifies this`counts
      ensures counts == Swept(old(counts), now)
    {
      var stale := set ip | ip in counts && !Live(counts[ip], now);
      counts := counts - stale;
    }

    /** The decorated call, from taking the lock to the decision. */
    method Admit(ip: Ip, now: real) returns (accepted: bool)
      modifies this
      ensures View() == Requested(old(View()), ip, now)
      ensures accepted == Accepts(old(View()), ip, now)
    {
      var pruned := InWindow(Stored(counts, ip), now);
      if |pruned| >= RATE_LIMIT {
        counts := counts[ip := pruned];
        return false;
      }
      counts := counts[ip := pruned + [now]];
      calls := calls + 1;
      if calls % SWEEP_EVERY_N_CALLS == 0 {
        SweepStaleIps(now);
      }
      return true;
    }
  }

  // ---------------------------------------------------------------- whole runs

  datatype Request = Request(ip: Ip, now: real)

  /** The table after a run of requests, in lock order. */
  function After(reqs: seq<Request>): Table
  {
    if reqs == [] then Table(map[], 0)
    else
      var last := reqs[|reqs| - 1];
      Requested(After(reqs[..|reqs| - 1]), last.ip, last.now)
  }

  /** All times at which requests of ip were accepted: nothing pruned, nothing swept. */
  function History(reqs: seq<Request>, ip: Ip): seq<real>
  {
    if reqs == [] then []
    else
      var before, last := reqs[..|reqs| - 1], reqs[|reqs| - 1];
      History(before, ip) +
      if last.ip == ip && Accepts(After(before), ip, last.now) then [last.now] else []
  }

  predicate Monotone(reqs: seq<Request>) {
    forall i, j :: 0 <= i < j < |reqs| ==> reqs[i].now <= reqs[j].now
  }

  predicate Sorted(times: seq<real>) {
    forall i, j :: 0 <= i < j < |times| ==> times[i] <= times[j]
  }

  /** What is stored is the history without some expired beginning. */
  ghost predicate PrunedFrom(stored: seq<real>, history: seq<real>, now: real, k: nat)
  {
    && k <= |history| && stored == history[k..]
    && forall i :: 0 <= i < k ==> now - history[i] >= RATE_WINDOW
  }

  lemma {:induction false} AllLive(times: seq<real>, now: real)
    requires forall i :: 0 <= i < |times| ==> now - times[i] < RATE_WINDOW
    ensures InWindow(times, now) == times
  {
    if times != [] {
      AllLive(times[1..], now);
    }
  }

  /** In a sorted list the window is a suffix. */
  lemma {:induction false} WindowIsSuffix(times: seq<real>, now: real) returns (k: nat)
    requires Sorted(times)
    ensures PrunedFrom(InWindow(times, now), times, now, k)
    ensures forall i :: k <= i < |times| ==> now - times[i] < RATE_WINDOW
  {
    k := 0;
    if times != [] {
      if now - times[0] < RATE_WINDOW {
        assert forall i :: 0 < i < |times| ==> times[0] <= times[i];
        AllLive(times, now);
      } else {
        var rest := times[1..];
        var k' := WindowIsSuffix(rest, now);
        k := k' + 1;
        assert times[k..] == rest[k'..];
        forall i | 0 <= i < k ensures now - times[i] >= RATE_WINDOW {
          if i > 0 { assert times[i] == rest[i - 1]; }
        }
        forall i | k <= i < |times| ensures now - times[i] < RATE_WINDOW {
          assert times[i] == rest[i - 1];
        }
      }
    }
  }

  /** Dropping expired times from the front does not change any later window. */
  lemma {:induction false} SameWindow(history: seq<real>, k: nat, now: real)
    requires k <= |history| && forall i :: 0 <= i < k ==> now - history[i] >= RATE_WINDOW
    ensures InWindow(history[k..], now) == InWindow(history, now)
  {
    if k > 0 {
      assert history[1..][k - 1..] == history[k..];
      SameWindow(history[1..], k - 1, now);
    }
  }

  /** Two accepted requests with RATE_LIMIT places between them are at least a window apart. */
  predicate Spaced(times: seq<real>) {
    forall i, j :: 0 <= i && i + RATE_LIMIT <= j < |times| ==> times[j] - times[i] >= RATE_WINDOW
  }

  predicate AllUpTo(times: seq<real>, now: real) {
    forall i :: 0 <= i < |times| ==> times[i] <= now
  }

  /** What holds of one IP after a run whose last request was at `now`. */
  ghost predicate Tracks(stored: seq<real>, history: seq<real>, now: real)
  {
    && Sorted(history) && Spaced(history)
    && AllUpTo(history, now)
    && |stored| <= RATE_LIMIT
    && exists k :: PrunedFrom(stored, history, now, k)
  }

  /** Pruning keeps the relation and shows the window of the full history. */
  lemma TracksPruned(stored: seq<real>, history: seq<real>, before: real, now: real)
    requires Tracks(stored, history, before) && before <= now
    ensures InWindow(stored, now) == InWindow(history, now)
    ensures Tracks(InWindow(stored, now), history, now) && Tracks(stored, history, now)
  {
    var k :| PrunedFrom(stored, history, before, k);
    SameWindow(history, k, now);
    var k' := WindowIsSuffix(history, now);
    assert PrunedFrom(stored, history, now, k);
  }

  lemma AppendSorted(history: seq<real>, now: real)
    requires Sorted(history) && AllUpTo(history, now)
    ensures Sorted(history + [now]) && AllUpTo(history + [now], now)
  {
  }

  /** Fewer than RATE_LIMIT in the window means that the one RATE_LIMIT places back has left it. */
  lemma AppendSpaced(history: seq<real>, window: seq<real>, now: real, k: nat)
    requires Spaced(history) && PrunedFrom(window, history, now, k)
    requires |window| < RATE_LIMIT
    ensures Spaced(history + [now])
  {
    var longer := history + [now];
    forall i, j | 0 <= i && i + RATE_LIMIT <= j < |longer| ensures longer[j] - longer[i] >= RATE_WINDOW {
      assert longer[i] == history[i];
      assert j == |history| ==> i < k;
    }
  }

  lemma TracksAccepted(stored: seq<real>, history: seq<real>, before: real, now: real)
    requires Tracks(stored, history, before) && before <= now
    requires |InWindow(stored, now)| < RATE_LIMIT
    ensures Tracks(InWindow(stored, now) + [now], history + [now], now)
  {
    TracksPruned(stored, history, before, now);
    var window := InWindow(history, now);
    var k := WindowIsSuffix(history, now);
    AppendSorted(history, now);
    AppendSpaced(history, window, now, k);
    AppendPruned(window, history, now, k);
    TracksFrom(window + [now], history + [now], now, k);
  }

  lemma TracksFrom(stored: seq<real>, history: seq<real>, now: real, k: nat)
    requires Sorted(history) && Spaced(history) && AllUpTo(history, now)
    requires |stored| <= RATE_LIMIT && PrunedFrom(stored, history, now, k)
    ensures Tracks(stored, history, now)
  {
  }

  lemma AppendPruned(stored: seq<real>, history: seq<real>, now: real, k: nat)
    requires PrunedFrom(stored, history, now, k)
    ensures PrunedFrom(stored + [now], history + [now], now, k)
  {
    assert history[k..] + [now] == (history + [now])[k..];
  }

  /** An IP that the sweep drops has an empty window from then on. */
  lemma TracksSwept(stored: seq<real>, history: seq<real>, now: real)
    requires Tracks(stored, history, now) && !Live(stored, now)
    ensures Tracks([], history, now)
  {
    var k :| PrunedFrom(stored, history, now, k);
    forall i | 0 <= i < |history| ensures now - history[i] >= RATE_WINDOW {
      if i >= k { assert history[i] == stored[i - k]; }
    }
    assert PrunedFrom([], history, now, |history|);
  }

  function LastTime(reqs: seq<Request>): real
    requires reqs != []
  {
    reqs[|reqs| - 1].now
  }

  lemma {:induction false} TableTracks(reqs: seq<Request>, ip: Ip)
    requires reqs != [] && Monotone(reqs)
    ensures Tracks(Stored(After(reqs).counts, ip), History(reqs, ip), LastTime(reqs))
  {
    var before, last := reqs[..|reqs| - 1], reqs[|reqs| - 1];
    var table := After(before);
    var stored, history, then' := Stored(table.counts, ip), History(before, ip), last.now;
    if before == [] {
      assert PrunedFrom(stored, history, last.now, 0);
    } else {
      TableTracks(before, ip);
      then' := LastTime(before);
    }
    StepTracks(table, ip, last.ip, history, then', last.now);
  }

  /** What one IP's list is after a request, before the sweep. */
  function ListAfter(table: Table, ip: Ip, from: Ip, now: real): seq<real>
  {
    var stored := Stored(table.counts, ip);
    if from != ip then stored
    else if Accepts(table, ip, now) then InWindow(stored, now) + [now]
    else InWindow(stored, now)
  }

  lemma StoredAfter(table: Table, ip: Ip, from: Ip, now: real)
    ensures Stored(Requested(table, from, now).counts, ip) ==
            if SweepsAt(table, from, now) && !Live(ListAfter(table, ip, from, now), now) then []
            else ListAfter(table, ip, from, now)
  {
  }

  /** One request, seen from one IP. */
  lemma StepTracks(table: Table, ip: Ip, from: Ip, history: seq<real>, then': real, now: real)
    requires Tracks(Stored(table.counts, ip), history, then') && then' <= now
    ensures Tracks(Stored(Requested(table, from, now).counts, ip),
                   history + if from == ip && Accepts(table, ip, now) then [now] else [], now)
  {
    var mid := ListAfter(table, ip, from, now);
    var longer := history + if from == ip && Accepts(table, ip, now) then [now] else [];
    assert history + [] == history;
    TracksPruned(Stored(table.counts, ip), history, then', now);
    if from == ip && Accepts(table, ip, now) {
      TracksAccepted(Stored(table.counts, ip), history, then', now);
    }
    StoredAfter(table, ip, from, now);
    if SweepsAt(table, from, now) && !Live(mid, now) {
      TracksSwept(mid, longer, now);
    }
  }

  /**
   Main result.  If time does not run backwards in lock order, every decision of a run is the one
   that a limiter keeping the full accepted history would take.
   */
  lemma DecisionsMatchFullHistory(reqs: seq<Request>, next: Request)
    requires Monotone(reqs + [next])
    ensures Accepts(After(reqs), next.ip, next.now) <==> |InWindow(History(reqs, next.ip), next.now)| < RATE_LIMIT
  {
    if reqs != [] {
      assert (reqs + [next])[|reqs|] == next && (reqs + [next])[|reqs| - 1] == reqs[|reqs| - 1];
      assert Monotone(reqs) by {
        assert forall i :: 0 <= i < |reqs| ==> (reqs + [next])[i] == reqs[i];
      }
      TableTracks(reqs, next.ip);
      TracksPruned(Stored(After(reqs).counts, next.ip), History(reqs, next.ip), LastTime(reqs), next.now);
    }
  }

  /**
   Main result.  Over a whole run, any accepted requests of one IP that lie within less than
   RATE_WINDOW of each other are at most RATE_LIMIT many.
   */
  lemma NeverMoreThanTheLimit(reqs: seq<Request>, ip: Ip, chosen: set<int>)
    requires Monotone(reqs)
    requires forall i :: i in chosen ==> 0 <= i < |History(reqs, ip)|
    requires forall i, j :: i in chosen && j in chosen ==>
               History(reqs, ip)[i] - History(reqs, ip)[j] < RATE_WINDOW
    ensures |chosen| <= RATE_LIMIT
  {
    if chosen != {} {
      var times := History(reqs, ip);
      var first := LeastMember(chosen);
      assert reqs != [];
      TableTracks(reqs, ip);
      forall i | i in chosen ensures i < first + RATE_LIMIT {
        assert times[i] - times[first] < RATE_WINDOW;
      }
      SubsetSize(chosen, Interval(first, RATE_LIMIT));
    }
  }

  // ---------------------------------------------------------------- the sweep and the size of the table

  lemma {:induction false} DeadWindow(times: seq<real>, now: real, later: real)
    requires !Live(times, now) && now <= later
    ensures InWindow(times, later) == []
  {
    if times != [] {
      assert forall i :: 0 <= i < |times[1..]| ==> times[1..][i] == times[i + 1];
      DeadWindow(times[1..], now, later);
    }
  }

  /** Whatever the table holds, sweeping it changes no window, and so no decision, from then on. */
  lemma SweepIsInvisible(counts: map<Ip, seq<real>>, now: real, ip: Ip, later: real)
    requires now <= later
    ensures InWindow(Stored(Swept(counts, now), ip), later) == InWindow(Stored(counts, ip), later)
  {
    if ip in counts && !Live(counts[ip], now) {
      DeadWindow(counts[ip], now, later);
    }
  }

  /** The size of the table right after the last sweep of the run. */
  function SizeAtLastSweep(reqs: seq<Request>): nat
  {
    if reqs == [] then 0
    else
      var before, last := reqs[..|reqs| - 1], reqs[|reqs| - 1];
      if SweepsAt(After(before), last.ip, last.now) then |After(reqs).counts| else SizeAtLastSweep(before)
  }

  lemma SweptKeysAreLive(table: Table, from: Ip, now: real, ip: Ip)
    requires SweepsAt(table, from, now)
    ensures ip in Requested(table, from, now).counts ==> Live(Stored(Requested(table, from, now).counts, ip), now)
    ensures ip !in Requested(table, from, now).counts ==> Stored(Requested(table, from, now).counts, ip) == []
  {
  }

  lemma LiveInHistory(stored: seq<real>, history: seq<real>, now: real)
    requires Tracks(stored, history, now)
    ensures Live(stored, now) <==> Live(history, now)
  {
    var k: nat :| PrunedFrom(stored, history, now, k);
    if Live(history, now) {
      var i :| 0 <= i < |history| && now - history[i] < RATE_WINDOW;
      assert i >= k;
      assert stored[i - k] == history[i];
    }
    assert forall i :: 0 <= i < |stored| ==> stored[i] == history[k + i];
  }

  /** Right after a sweep exactly the IPs with an accepted request in the window are left. */
  lemma SweepLeavesLiveIps(reqs: seq<Request>, ip: Ip)
    requires reqs != [] && Monotone(reqs)
    requires var last := reqs[|reqs| - 1]; SweepsAt(After(reqs[..|reqs| - 1]), last.ip, last.now)
    ensures ip in After(reqs).counts <==> Live(History(reqs, ip), LastTime(reqs))
  {
    TableTracks(reqs, ip);
    LiveInHistory(Stored(After(reqs).counts, ip), History(reqs, ip), LastTime(reqs));
    SweptKeysAreLive(After(reqs[..|reqs| - 1]), reqs[|reqs| - 1].ip, LastTime(reqs), ip);
  }

  lemma OneKeyMore(counts: map<Ip, seq<real>>, ip: Ip, times: seq<real>)
    ensures |counts[ip := times]| <= |counts| + 1
    ensures ip in counts ==> |counts[ip := times]| == |counts|
  {
    assert counts[ip := times].Keys == counts.Keys + {ip};
    assert |counts[ip := times].Keys| == |counts[ip := times]| && |counts.Keys| == |counts|;
    if ip in counts {
      assert counts.Keys + {ip} == counts.Keys;
    }
  }

  lemma RequestedSize(table: Table, ip: Ip, now: real)
    ensures Requested(table, ip, now).calls == table.calls + if Accepts(table, ip, now) then 1 else 0
    ensures !SweepsAt(table, ip, now) ==>
              |Requested(table, ip, now).counts| <= |table.counts| + if Accepts(table, ip, now) then 1 else 0
  {
    var pruned := InWindow(Stored(table.counts, ip), now);
    OneKeyMore(table.counts, ip, pruned);
    OneKeyMore(table.counts, ip, pruned + [now]);
  }

  /**
   Main result.  The table never holds more IPs than were live at the last sweep plus the requests
   accepted since, of which there are fewer than SWEEP_EVERY_N_CALLS.
   */
  lemma {:induction false} TableStaysSmall(reqs: seq<Request>)
    ensures |After(reqs).counts| <= SizeAtLastSweep(reqs) + After(reqs).calls % SWEEP_EVERY_N_CALLS
  {
    if reqs != [] {
      TableStaysSmall(reqs[..|reqs| - 1]);
      SizeStep(reqs);
    }
  }

  lemma SizeStep(reqs: seq<Request>)
    requires reqs != []
    requires var before := reqs[..|reqs| - 1];
             |After(before).counts| <= SizeAtLastSweep(before) + After(before).calls % SWEEP_EVERY_N_CALLS
    ensures |After(reqs).counts| <= SizeAtLastSweep(reqs) + After(reqs).calls % SWEEP_EVERY_N_CALLS
  {
    var table, last := After(reqs[..|reqs| - 1]), reqs[|reqs| - 1];
    RequestedSize(table, last.ip, last.now);
    NextRemainder(table.calls);
  }

  lemma NextRemainder(n: nat)
    ensures (n + 1) % SWEEP_EVERY_N_CALLS == 0 || (n + 1) % SWEEP_EVERY_N_CALLS == n % SWEEP_EVERY_N_CALLS + 1
  {
  }

  // ---------------------------------------------------------------- why time must not run backwards

  function Zeros(n: nat): (times: seq<real>)
    ensures |times| == n && forall i :: 0 <= i < n ==> times[i] == 0.0
  {
    if n == 0 then [] else Zeros(n - 1) + [0.0]
  }

  /** n requests of one IP at time zero. */
  function Burst(ip: Ip, n: nat): seq<Request>
  {
    if n == 0 then [] else Burst(ip, n - 1) + [Request(ip, 0.0)]
  }

  /** One more accepted request, when no sweep is due. */
  lemma AcceptedStep(reqs: seq<Request>, ip: Ip, now: real, window: seq<real>)
    requires InWindow(Stored(After(reqs).counts, ip), now) == window && |window| < RATE_LIMIT
    requires (After(reqs).calls + 1) % SWEEP_EVERY_N_CALLS != 0
    ensures Stored(After(reqs + [Request(ip, now)]).counts, ip) == window + [now]
    ensures After(reqs + [Request(ip, now)]).calls == After(reqs).calls + 1
    ensures History(reqs + [Request(ip, now)], ip) == History(reqs, ip) + [now]
  {
    var longer := reqs + [Request(ip, now)];
    assert longer[..|longer| - 1] == reqs;
  }

  lemma {:induction false} BurstOutcome(ip: Ip, n: nat)
    requires n <= RATE_LIMIT
    ensures Stored(After(Burst(ip, n)).counts, ip) == Zeros(n) && After(Burst(ip, n)).calls == n
    ensures History(Burst(ip, n), ip) == Zeros(n)
  {
    if n > 0 {
      BurstOutcome(ip, n - 1);
      BurstStep(Burst(ip, n - 1), ip, Zeros(n - 1));
    }
  }

  lemma BurstStep(reqs: seq<Request>, ip: Ip, zeros: seq<real>)
    requires Stored(After(reqs).counts, ip) == zeros && History(reqs, ip) == zeros
    requires After(reqs).calls == |zeros| < RATE_LIMIT && forall i :: 0 <= i < |zeros| ==> zeros[i] == 0.0
    ensures var longer := reqs + [Request(ip, 0.0)];
            && Stored(After(longer).counts, ip) == zeros + [0.0] && History(longer, ip) == zeros + [0.0]
            && After(longer).calls == |zeros| + 1
  {
    AllLive(zeros, 0.0);
    AcceptedStep(reqs, ip, 0.0, zeros);
  }

  lemma OneLive(t: real, now: real)
    requires now - t < RATE_WINDOW
    ensures InWindow([t], now) == [t]
  {
    AllLive([t], now);
  }

  /** After the burst, two requests a window later whose clock readings are `delta` out of order. */
  function Inverted(ip: Ip, n: nat, delta: real): seq<Request> {
    Burst(ip, n) + [Request(ip, RATE_WINDOW)] + [Request(ip, RATE_WINDOW - delta)]
  }

  /** No request reads the clock more than `delta` before one that got the lock earlier. */
  predicate InversionsWithin(reqs: seq<Request>, delta: real) {
    forall i, j :: 0 <= i < j < |reqs| ==> reqs[i].now - reqs[j].now <= delta
  }

  /**
   The hypothesis of the results above is needed, since `now` is read before the lock is taken.
   Whatever the inversion, RATE_LIMIT requests at 0 s, one a window later and one that read the
   clock `delta` earlier but got the lock last are all accepted, and RATE_LIMIT + 1 of them lie
   within less than a window.
   */
  lemma OutOfOrderTimesBreakTheLimit(ip: Ip, n: nat, delta: real)
    requires n == RATE_LIMIT && 0.0 < delta <= RATE_WINDOW
    ensures var reqs := Inverted(ip, n, delta);
            && !Monotone(reqs) && InversionsWithin(reqs, delta)
            && History(reqs, ip) == Zeros(n) + [RATE_WINDOW] + [RATE_WINDOW - delta]
  {
    BurstOutcome(ip, n);
    BurstTimes(ip, n);
    OneInversion(Burst(ip, n), Request(ip, RATE_WINDOW), Request(ip, RATE_WINDOW - delta), delta);
    NotMonotone(Burst(ip, n) + [Request(ip, RATE_WINDOW)], Request(ip, RATE_WINDOW), Request(ip, RATE_WINDOW - delta));
    LateOne(Burst(ip, n), ip, Zeros(n));
    EarlierOne(Burst(ip, n) + [Request(ip, RATE_WINDOW)], ip, RATE_WINDOW, RATE_WINDOW - delta);
  }

  lemma OneInversion(burst: seq<Request>, a: Request, b: Request, delta: real)
    requires forall i :: 0 <= i < |burst| ==> burst[i].now == 0.0
    requires 0.0 < delta && a.now == RATE_WINDOW && b.now == RATE_WINDOW - delta >= 0.0
    ensures InversionsWithin(burst + [a] + [b], delta)
  {
  }

  lemma {:induction false} BurstTimes(ip: Ip, n: nat)
    ensures |Burst(ip, n)| == n && forall i :: 0 <= i < n ==> Burst(ip, n)[i].now == 0.0
  {
    if n > 0 {
      BurstTimes(ip, n - 1);
    }
  }

  lemma EarlierOne(reqs: seq<Request>, ip: Ip, last: real, now: real)
    requires Stored(After(reqs).counts, ip) == [last] && After(reqs).calls == RATE_LIMIT + 1 && now < last
    ensures History(reqs + [Request(ip, now)], ip) == History(reqs, ip) + [now]
  {
    OneLive(last, now);
    AcceptedStep(reqs, ip, now, [last]);
  }

  lemma LateOne(burst: seq<Request>, ip: Ip, zeros: seq<real>)
    requires Stored(After(burst).counts, ip) == zeros && History(burst, ip) == zeros
    requires After(burst).calls == RATE_LIMIT && forall i :: 0 <= i < |zeros| ==> zeros[i] == 0.0
    ensures var longer := burst + [Request(ip, RATE_WINDOW)];
            && Stored(After(longer).counts, ip) == [RATE_WINDOW] && History(longer, ip) == zeros + [RATE_WINDOW]
            && After(longer).calls == RATE_LIMIT + 1
  {
    DeadWindow(zeros, RATE_WINDOW, RATE_WINDOW);
    AcceptedStep(burst, ip, RATE_WINDOW, []);
    assert [] + [RATE_WINDOW] == [RATE_WINDOW];
  }

  lemma NotMonotone(reqs: seq<Request>, a: Request, b: Request)
    requires reqs != [] && reqs[|reqs| - 1] == a && b.now < a.now
    ensures !Monotone(reqs + [b])
  {
    var longer := reqs + [b];
    assert longer[|reqs| - 1] == a && longer[|reqs|] == b;
  }

  /** Positions of times that lie within less than a window of each other. */
  ghost predicate Close(times: seq<real>, chosen: set<int>) {
    && (forall i :: i in chosen ==> 0 <= i < |times|)
    && (forall i, j :: i in chosen && j in chosen ==> times[i] - times[j] < RATE_WINDOW)
  }

  /** The limit holds in every run whose inversions are at most `delta`. */
  ghost predicate LimitHolds(delta: real) {
    forall reqs, ip, chosen :: InversionsWithin(reqs, delta) && Close(History(reqs, ip), chosen) ==> |chosen| <= RATE_LIMIT
  }

  lemma CloseWithin(times: seq<real>, chosen: set<int>)
    requires forall i :: i in chosen ==> 0 <= i < |times| && 0.0 <= times[i] < RATE_WINDOW
    ensures Close(times, chosen)
  {
  }

  /** One request too many: those of the burst and the last one. */
  lemma OneTooMany(times: seq<real>, n: nat) returns (chosen: set<int>)
    requires |times| == n + 2 && forall i :: 0 <= i < |times| && i != n ==> 0.0 <= times[i] < RATE_WINDOW
    ensures Close(times, chosen) && |chosen| == n + 1
  {
    chosen := Interval(0, n) + {n + 1};
    CloseWithin(times, chosen);
  }

  lemma WiderInversions(reqs: seq<Request>, d: real, delta: real)
    requires InversionsWithin(reqs, d) && d <= delta
    ensures InversionsWithin(reqs, delta)
  {
  }

  lemma LimitBroken(ip: Ip, n: nat, delta: real)
    requires n == RATE_LIMIT && delta > 0.0
    ensures !LimitHolds(delta)
  {
    var d := if delta < RATE_WINDOW then delta else RATE_WINDOW;
    OutOfOrderTimesBreakTheLimit(ip, n, d);
    TimesBelow(Zeros(n), RATE_WINDOW, RATE_WINDOW - d);
    Broken(Inverted(ip, n, d), ip, Zeros(n) + [RATE_WINDOW] + [RATE_WINDOW - d], d, delta);
  }

  lemma Broken(reqs: seq<Request>, ip: Ip, times: seq<real>, d: real, delta: real)
    requires InversionsWithin(reqs, d) && d <= delta && History(reqs, ip) == times
    requires |times| == RATE_LIMIT + 2
    requires forall i :: 0 <= i < |times| && i != RATE_LIMIT ==> 0.0 <= times[i] < RATE_WINDOW
    ensures !LimitHolds(delta)
  {
    var chosen := OneTooMany(times, RATE_LIMIT);
    Refutes(reqs, ip, chosen, d, delta);
  }

  lemma Refutes(reqs: seq<Request>, ip: Ip, chosen: set<int>, d: real, delta: real)
    requires InversionsWithin(reqs, d) && d <= delta && Close(History(reqs, ip), chosen) && |chosen| > RATE_LIMIT
    ensures !LimitHolds(delta)
  {
    WiderInversions(reqs, d, delta);
  }

  lemma TimesBelow(zeros: seq<real>, a: real, b: real)
    requires (forall i :: 0 <= i < |zeros| ==> zeros[i] == 0.0) && 0.0 <= b < RATE_WINDOW
    ensures var times := zeros + [a] + [b];
            forall i :: 0 <= i < |times| && i != |zeros| ==> 0.0 <= times[i] < RATE_WINDOW
  {
  }

  /** Main result.  The limit tolerates no inversion at all: it holds in all runs exactly when there is none. */
  lemma LimitNeedsLockOrder(delta: real)
    requires delta >= 0.0
    ensures LimitHolds(delta) <==> delta == 0.0
  {
    if delta == 0.0 {
      forall reqs, ip, chosen | InversionsWithin(reqs, delta) && Close(History(reqs, ip), chosen)
        ensures |chosen| <= RATE_LIMIT
      {
        NeverMoreThanTheLimit(reqs, ip, chosen);
      }
    } else {
      LimitBroken("", RATE_LIMIT, delta);
    }
  }
}
