/**
 How often one tile can be requeued, over every run of TileProtocol: any number of concurrent
 or restarted reapers, crashing anywhere.
 */
module TileRequeues {
  import opened Collections
  import opened JobRecords
  import opened TileProtocol

  /** The sweep a reaper is in, once it has found something to retry. */
  function SweepOf(pc: Proc): Option<nat>
  {
    match pc
    case Looping(w, _) => Some(w)
    case Probing(w, _, _) => Some(w)
    case Producing(w, _, _) => Some(w)
    case Abandoning(w, _, _) => Some(w)
    case _ => None
  }

  function TicketOf(pc: Proc): Option<Ticket>
  {
    match pc
    case Probing(_, _, ticket) => Some(ticket)
    case Producing(_, _, ticket) => Some(ticket)
    case _ => None
  }

  ghost predicate ProcTicketed(s: State, pc: Proc)
  {
    && (SweepOf(pc).Some? ==> SweepOf(pc).value < s.hist.nextSweep && SweepOf(pc).value !in s.hist.done)
    && (TicketOf(pc).Some? ==>
          var ticket := TicketOf(pc).value;
          && ticket in s.hist.tickets
          && s.hist.tickets[ticket] == SweepOf(pc).value
          && ticket.value < s.cfg.maxAttempts
          && ticket !in s.hist.requeued)
  }

  ghost predicate Issued(s: State, ticket: Ticket)
  {
    && 1 <= ticket.value
    && ticket.epoch <= s.hist.resets
    && (ticket.epoch == s.hist.resets ==> ticket.value <= Attempts(s.job, ticket.tile))
  }

  ghost predicate Ticketed(s: State)
  {
    && (forall k :: k in s.hist.tickets ==> Issued(s, k) && s.hist.tickets[k] < s.hist.nextSweep)
    && (forall k :: k in s.hist.requeued ==> k in s.hist.tickets && k.value < s.cfg.maxAttempts)
    && (forall i, j :: 0 <= i < j < |s.hist.requeued| ==> s.hist.requeued[i] != s.hist.requeued[j])
    && (forall w :: w in s.hist.done ==> w < s.hist.nextSweep)
    && (forall p :: p in s.procs ==> ProcTicketed(s, s.procs[p]))
    && (forall p, q :: p in s.procs && q in s.procs && p != q ==>
          SweepOf(s.procs[p]).None? || SweepOf(s.procs[p]) != SweepOf(s.procs[q]))
  }

  /** The parts of the state that the ticket invariant reads. */
  ghost predicate SameTickets(s: State, s': State)
  {
    && s'.cfg == s.cfg
    && s'.job.attempts == s.job.attempts
    && s'.hist == s.hist.(stored := s'.hist.stored, gaveUp := s'.hist.gaveUp, gen := s'.hist.gen,
                          created := s'.hist.created, pushed := s'.hist.pushed, counted := s'.hist.counted)
  }

  lemma TicketedGoto(s: State, s': State, p: ProcId, pc: Proc)
    requires Ticketed(s) && SameTickets(s, s') && s'.procs == s.procs[p := pc]
    requires ProcTicketed(s, pc)
    requires SweepOf(pc).None? || forall q :: q in s.procs && q != p ==> SweepOf(s.procs[q]) != SweepOf(pc)
    ensures Ticketed(s')
  {
    forall k | k in s'.hist.tickets ensures Issued(s', k) {
      assert Issued(s, k);
    }
    forall q | q in s'.procs ensures ProcTicketed(s', s'.procs[q]) {
      assert ProcTicketed(s, if q == p then pc else s.procs[q]);
    }
  }

  lemma TicketedKeep(s: State, s': State)
    requires Ticketed(s) && SameTickets(s, s') && s'.procs == s.procs
    ensures Ticketed(s')
  {
    forall k | k in s'.hist.tickets ensures Issued(s', k) {
      assert Issued(s, k);
    }
    forall q | q in s'.procs ensures ProcTicketed(s', s'.procs[q]) {
      assert ProcTicketed(s, s.procs[q]);
    }
  }

  /** DEL of attempt counters starts a new epoch; every ticket issued so far belongs to an older one. */
  lemma TicketedDelete(s: State, picked: set<TileId>)
    requires Ticketed(s)
    ensures Ticketed(Effect(s, DeletingAttempts, picked))
  {
    var s' := Effect(s, DeletingAttempts, picked);
    forall k | k in s'.hist.tickets ensures Issued(s', k) {
      assert Issued(s, k);
    }
    forall q | q in s'.procs ensures ProcTicketed(s', s'.procs[q]) {
      assert ProcTicketed(s, s.procs[q]);
    }
  }

  /** A sweep that found something to retry gets an identity no other sweep has. */
  lemma TicketedBegin(s: State, p: ProcId, received: set<TileId>)
    requires Ticketed(s)
    ensures Ticketed(Goto(Effect(s, ReadingAbandoned(received), {}), p, Successor(s, ReadingAbandoned(received), true)))
  {
    var s1 := Effect(s, ReadingAbandoned(received), {});
    var s' := Goto(s1, p, Successor(s, ReadingAbandoned(received), true));
    forall k | k in s'.hist.tickets ensures Issued(s', k) {
      assert Issued(s, k);
    }
    forall q | q in s'.procs ensures ProcTicketed(s', s'.procs[q]) {
      if q != p { assert ProcTicketed(s, s.procs[q]); }
    }
  }

  /** INCR: the value returned is above every value already issued in this epoch. */
  lemma TicketedIncr(s: State, p: ProcId, when: real)
    requires Ticketed(s) && p in s.procs && s.procs[p].Looping? && s.procs[p].rest != []
    ensures Ticketed(ReaperLoop(s, p, s.procs[p], true, when))
  {
    var pc := s.procs[p];
    var t := pc.rest[0];
    var ticket := Ticket(t, s.hist.resets, Attempts(s.job, t) + 1);
    var s' := ReaperLoop(s, p, pc, true, when);
    assert ticket in s.hist.tickets ==> Issued(s, ticket);
    assert ProcTicketed(s, pc);
    forall k | k in s'.hist.tickets ensures Issued(s', k) {
      if k != ticket { assert Issued(s, k); }
    }
    forall q | q in s'.procs ensures ProcTicketed(s', s'.procs[q]) {
      if q != p { assert ProcTicketed(s, s.procs[q]); }
    }
  }

  lemma TicketedProduce(s: State, p: ProcId, when: real)
    requires Ticketed(s) && p in s.procs && s.procs[p].Producing?
    ensures Ticketed(ReaperLoop(s, p, s.procs[p], true, when))
  {
    var pc := s.procs[p];
    var s' := ReaperLoop(s, p, pc, true, when);
    assert ProcTicketed(s, pc);
    assert forall k :: k in s'.hist.requeued <==> k in s.hist.requeued || k == pc.ticket;
    forall k | k in s'.hist.tickets ensures Issued(s', k) {
      assert Issued(s, k);
    }
    forall q | q in s'.procs ensures ProcTicketed(s', s'.procs[q]) {
      if q != p {
        assert ProcTicketed(s, s.procs[q]);
        assert SweepOf(s.procs[p]).None? || SweepOf(s.procs[p]) != SweepOf(s.procs[q]);
      }
    }
  }

  lemma TicketedFinish(s: State, p: ProcId, when: real)
    requires Ticketed(s) && p in s.procs && s.procs[p].Looping? && s.procs[p].rest == []
    ensures Ticketed(ReaperLoop(s, p, s.procs[p], true, when))
  {
    var s' := ReaperLoop(s, p, s.procs[p], true, when);
    assert ProcTicketed(s, s.procs[p]);
    forall k | k in s'.hist.tickets ensures Issued(s', k) {
      assert Issued(s, k);
    }
    forall q | q in s'.procs ensures ProcTicketed(s', s'.procs[q]) {
      if q != p {
        assert ProcTicketed(s, s.procs[q]);
        assert SweepOf(s.procs[p]).None? || SweepOf(s.procs[p]) != SweepOf(s.procs[q]);
      }
    }
  }

  lemma TicketedReaperLoop(s: State, p: ProcId, yes: bool, when: real)
    requires Ticketed(s) && p in s.procs
    requires var pc := s.procs[p]; pc.Looping? || pc.Probing? || pc.Producing? || pc.Abandoning?
    ensures Ticketed(ReaperLoop(s, p, s.procs[p], yes, when))
  {
    var pc := s.procs[p];
    assert ProcTicketed(s, pc);
    if pc.Looping? {
      if pc.rest == [] { TicketedFinish(s, p, when); } else { TicketedIncr(s, p, when); }
    } else if pc.Producing? {
      TicketedProduce(s, p, when);
    } else {
      var s' := ReaperLoop(s, p, pc, yes, when);
      assert forall q :: q in s.procs && q != p ==> SweepOf(s.procs[q]) != SweepOf(pc) by {
        assert forall q :: q in s.procs && q != p ==>
          SweepOf(s.procs[p]).None? || SweepOf(s.procs[p]) != SweepOf(s.procs[q]);
      }
      TicketedGoto(s, s', p, s'.procs[p]);
    }
  }

  lemma EffectKeepsTickets(s: State, pc: Proc, picked: set<TileId>)
    requires !pc.ReadingAbandoned? && !pc.DeletingAttempts?
    ensures SameTickets(s, Effect(s, pc, picked)) && Effect(s, pc, picked).procs == s.procs
  {
  }

  lemma TicketedStep(s: State, a: Action)
    requires Ticketed(s) && Enabled(s, a) && a.Step?
    ensures Ticketed(Apply(s, a))
  {
    var p, picked, pc := a.p, a.picked, Pc(s, a.p);
    if pc.Looping? || pc.Probing? || pc.Producing? || pc.Abandoning? {
      TicketedReaperLoop(s, p, a.yes, a.when);
    } else if pc.ReadingAbandoned? {
      TicketedBegin(s, p, pc.received);
    } else if pc.DeletingAttempts? {
      TicketedDelete(s, picked);
      TicketedGoto(Effect(s, pc, picked), Apply(s, a), p, Sweeping);
    } else {
      EffectKeepsTickets(s, pc, picked);
      TicketedGoto(s, Apply(s, a), p, Successor(s, pc, a.yes));
    }
  }

  lemma TicketedApply(s: State, a: Action)
    requires Ticketed(s) && Enabled(s, a)
    ensures Ticketed(Apply(s, a))
  {
    match a
    case Dispatch(_) => TicketedKeep(s, Apply(s, a));
    case Work(_, _) => TicketedKeep(s, Apply(s, a));
    case Crash(p) => TicketedGoto(s, Apply(s, a), p, Idle);
    case Receive(p, t, info, seconds) => TicketedGoto(s, Apply(s, a), p, Storing(t, info, seconds));
    case Reap(p) => TicketedGoto(s, Apply(s, a), p, ReadingClock);
    case Reconstruct(p) => TicketedGoto(s, Apply(s, a), p, CountingTiles);
    case Step(_, _, _, _) => TicketedStep(s, a);
    case Resend(p, picked) =>
      if Pc(s, p).DeletingAttempts? {
        TicketedDelete(s, picked);
      } else {
        EffectKeepsTickets(s, Pc(s, p), picked);
        TicketedKeep(s, Apply(s, a));
      }
  }

  lemma {:induction false} TicketedRun(states: seq<State>, actions: seq<Action>, i: nat)
    requires IsRun(states, actions) && i < |states|
    ensures Ticketed(states[i]) && states[i].cfg == states[0].cfg
  {
    if i > 0 {
      TicketedRun(states, actions, i - 1);
      assert StepAt(states, actions, i - 1);
      TicketedApply(states[i - 1], actions[i - 1]);
    }
  }

  /** The reply that INCR gives in this step, with the lifetime of the counter it belongs to. */
  function IssuedBy(s: State, a: Action): Option<Ticket> {
    if a.Step? && Pc(s, a.p).Looping? && Pc(s, a.p).rest != [] then
      var t := Pc(s, a.p).rest[0];
      Some(Ticket(t, s.hist.resets, Attempts(s.job, t) + 1))
    else None
  }

  lemma {:induction false} TicketsStay(states: seq<State>, actions: seq<Action>, i: nat, j: nat, k: Ticket)
    requires IsRun(states, actions) && i <= j < |states| && k in states[i].hist.tickets
    ensures k in states[j].hist.tickets
  {
    if i < j {
      TicketsStay(states, actions, i, j - 1, k);
      assert StepAt(states, actions, j - 1);
    }
  }

  /** Within one lifetime of a tile's counter every value is handed out once, whoever asks. */
  lemma EachValueIssuedOnce(states: seq<State>, actions: seq<Action>, i: nat, j: nat)
    requires IsRun(states, actions) && i < j < |actions|
    requires IssuedBy(states[i], actions[i]).Some? && IssuedBy(states[j], actions[j]).Some?
    ensures IssuedBy(states[i], actions[i]) != IssuedBy(states[j], actions[j])
  {
    var k := IssuedBy(states[i], actions[i]).value;
    assert StepAt(states, actions, i);
    assert k in states[i + 1].hist.tickets;
    TicketsStay(states, actions, i + 1, j, k);
    TicketedRun(states, actions, j);
    assert Issued(states[j], k);
  }

  // ---------------------------------------------------------------- the bound

  /** How many of the requeued messages are for tile t. */
  function Times(requeued: seq<Ticket>, t: TileId): nat
  {
    if requeued == [] then 0
    else Times(requeued[..|requeued| - 1], t) + if requeued[|requeued| - 1].tile == t then 1 else 0
  }

  /** The tickets for t with values 1..most, issued in one epoch. */
  function EpochSlots(t: TileId, epoch: nat, most: nat): (r: set<Ticket>)
    ensures forall k: Ticket :: k in r <==> k.tile == t && k.epoch == epoch && 1 <= k.value <= most
    ensures |r| == most
  {
    if most == 0 then {} else EpochSlots(t, epoch, most - 1) + {Ticket(t, epoch, most)}
  }

  /** The same for epochs 0..epochs-1. */
  function Slots(t: TileId, epochs: nat, most: nat): (r: set<Ticket>)
    ensures forall k: Ticket :: k in r <==> k.tile == t && k.epoch < epochs && 1 <= k.value <= most
    ensures |r| == epochs * most
  {
    if epochs == 0 then {}
    else
      var older := Slots(t, epochs - 1, most);
      var last := EpochSlots(t, epochs - 1, most);
      assert older !! last;
      older + last
  }

  lemma {:induction false} TimesBounded(requeued: seq<Ticket>, t: TileId, slots: set<Ticket>)
    requires forall i, j :: 0 <= i < j < |requeued| ==> requeued[i] != requeued[j]
    requires forall i :: 0 <= i < |requeued| && requeued[i].tile == t ==> requeued[i] in slots
    ensures Times(requeued, t) <= |slots|
  {
    if requeued != [] {
      var last := requeued[|requeued| - 1];
      var init := requeued[..|requeued| - 1];
      if last.tile == t {
        TimesBounded(init, t, slots - {last});
      } else {
        TimesBounded(init, t, slots);
      }
    }
  }

  /** How often reapers published a task for tile t during the first i actions. */
  function Requeues(states: seq<State>, actions: seq<Action>, i: nat, t: TileId): nat
    requires i <= |actions| && |states| == |actions| + 1
  {
    if i == 0 then 0
    else
      var a := actions[i - 1];
      Requeues(states, actions, i - 1, t) +
      if a.Step? && Pc(states[i - 1], a.p).Producing? && Pc(states[i - 1], a.p).ticket.tile == t then 1 else 0
  }

  lemma {:induction false} HistoryCountsRequeues(states: seq<State>, actions: seq<Action>, i: nat, t: TileId)
    requires IsRun(states, actions) && i < |states|
    ensures Times(states[i].hist.requeued, t) == Requeues(states, actions, i, t)
  {
    if i > 0 {
      HistoryCountsRequeues(states, actions, i - 1, t);
      var s, s' := states[i - 1], states[i];
      assert StepAt(states, actions, i - 1);
      if s'.hist.requeued != s.hist.requeued {
        assert s'.hist.requeued[..|s'.hist.requeued| - 1] == s.hist.requeued;
      }
    }
  }

  /** The number of executed deletions of attempt counters during the first i actions. */
  function CounterDeletions(states: seq<State>, actions: seq<Action>, i: nat): nat
    requires i <= |actions| && |states| == |actions| + 1
  {
    if i == 0 then 0
    else
      var a := actions[i - 1];
      CounterDeletions(states, actions, i - 1) +
      if (a.Step? || a.Resend?) && Pc(states[i - 1], a.p).DeletingAttempts? && a.picked != {} then 1 else 0
  }

  lemma {:induction false} ResetsAreDeletions(states: seq<State>, actions: seq<Action>, i: nat)
    requires IsRun(states, actions) && i < |states|
    ensures states[i].hist.resets == CounterDeletions(states, actions, i)
  {
    if i > 0 {
      ResetsAreDeletions(states, actions, i - 1);
      assert StepAt(states, actions, i - 1);
    }
  }

  /**
   Main result.  Whatever reapers run, overlap, crash and restart, one tile is requeued at most
   MAX_TILE_ATTEMPTS - 1 times for every lifetime of its counter: every value of the counter is
   handed to one sweep only, and only the values below MAX_TILE_ATTEMPTS permit a requeue.
   Without a /reconstruct in between that is MAX_TILE_ATTEMPTS - 1 in total.
   */
  lemma RequeuesAreBounded(states: seq<State>, actions: seq<Action>, i: nat, t: TileId)
    requires IsRun(states, actions) && i < |states|
    ensures var most := if states[0].cfg.maxAttempts <= 1 then 0 else states[0].cfg.maxAttempts - 1;
            Requeues(states, actions, i, t) <= (CounterDeletions(states, actions, i) + 1) * most
  {
    TicketedRun(states, actions, i);
    ResetsAreDeletions(states, actions, i);
    HistoryCountsRequeues(states, actions, i, t);
    var s := states[i];
    var most := if s.cfg.maxAttempts <= 1 then 0 else s.cfg.maxAttempts - 1;
    var slots := Slots(t, s.hist.resets + 1, most);
    forall j | 0 <= j < |s.hist.requeued| && s.hist.requeued[j].tile == t
      ensures s.hist.requeued[j] in slots
    {
      assert s.hist.requeued[j] in s.hist.requeued;
      assert Issued(s, s.hist.requeued[j]);
    }
    TimesBounded(s.hist.requeued, t, slots);
  }
}
