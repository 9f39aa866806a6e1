/**
 The life of one tile job as a transition system over single Redis commands.

 Result consumers, reapers and /reconstruct handlers run as processes, any number of each.
 One action executes one command of one process, so every interleaving is a run.  A process
 may crash between any two commands; an exception that aborts a message, a sweep or a request
 is the same crash, and a timed-out command that did execute is that command followed by the
 crash.  `Resend` is a timed-out but executed command that _retry_operation sends again; it
 exists only for the commands the client marks idempotent.

 Topics are grow-only sets from which any message may be received at any time, any number of
 times or never: duplication, reordering and loss in one.
 */
module TileProtocol {
  import opened Collections
  import opened JobRecords

  type ProcId = nat

  /** What never changes during a run. */
  datatype Config = Config(expected: nat, maxAttempts: int, ml: bool)

  /** A reply of INCR: its tile, how many counter deletions preceded it, and the value returned. */
  datatype Ticket = Ticket(tile: TileId, epoch: nat, value: nat)

  /** Program counters; each names the command that is executed next. */
  datatype Proc =
    | Idle
      // result consumers, one message at a time
    | Storing(t: TileId, info: TileInfo, seconds: real)
    | Pushing(key: (nat, TileId), seconds: real)
    | Counting(key: (nat, TileId))
    | Measuring
    | Checking(n: nat)
    | Flipping
    | Announcing
      // reapers, one sweep over this job at a time
    | ReadingClock
    | ReadingTiles
    | ReadingAbandoned(received: set<TileId>)
    | Degrading
    | Looping(sweep: nat, rest: seq<TileId>)
    | Probing(sweep: nat, rest: seq<TileId>, ticket: Ticket)
    | Producing(sweep: nat, rest: seq<TileId>, ticket: Ticket)
    | Abandoning(sweep: nat, rest: seq<TileId>, tile: TileId)
      // /reconstruct
    | CountingTiles
    | Rendering
    | Deleting
    | DeletingAttempts
      // delete_job_tiles, at the end of all three
    | Sweeping

  /**
   History: what has happened so far.  No action reads it.
   `gen` counts deletions of the tiles key, `resets` deletions of attempt counters.
   `created`, `pushed` and `counted` hold (gen, tile) for every HSET that created a field and
   for the RPUSH and HINCRBY that followed it.
   */
  datatype History = History(
    stored: set<TileId>, gaveUp: set<TileId>,
    gen: nat, created: set<(nat, TileId)>, pushed: set<(nat, TileId)>, counted: set<(nat, TileId)>,
    resets: nat, tickets: map<Ticket, nat>, requeued: seq<Ticket>,
    nextSweep: nat, done: set<nat>)

  datatype State = State(
    cfg: Config, job: Job,
    tasks: set<TileId>, results: set<(TileId, TileInfo)>, blobs: set<TileId>,
    procs: map<ProcId, Proc>, hist: History)

  datatype Action =
    | Dispatch(t: TileId)
    | Work(t: TileId, info: TileInfo)
    | Crash(p: ProcId)
    | Receive(p: ProcId, t: TileId, info: TileInfo, seconds: real)
    | Reap(p: ProcId)
    | Reconstruct(p: ProcId)
    | Step(p: ProcId, yes: bool, picked: set<TileId>, when: real)
    | Resend(p: ProcId, picked: set<TileId>)

  const NO_HISTORY := History({}, {}, 0, {}, {}, {}, 0, map[], [], 0, {})

  /** Right after create_job, before the first task is published. */
  predicate Initial(s: State)
  {
    && s.job.status == Processing
    && Expected(s.job) == s.cfg.expected
    && s.job.resultsCount == 0
    && s.job.tiles == map[] && s.job.latencies == [] && s.job.attempts == map[] && s.job.abandoned == {}
    && s.tasks == {} && s.results == {} && s.blobs == {} && s.procs == map[]
    && s.hist == NO_HISTORY
  }

  function Pc(s: State, p: ProcId): Proc {
    if p in s.procs then s.procs[p] else Idle
  }

  function Goto(s: State, p: ProcId, pc: Proc): State {
    s.(procs := s.procs[p := pc])
  }

  predicate Resendable(pc: Proc) {
    pc.Storing? || pc.Flipping? || pc.Degrading? || pc.Rendering? || pc.Deleting? || pc.DeletingAttempts?
  }

  predicate Enabled(s: State, a: Action)
  {
    match a
    case Dispatch(t) => 0 <= t < s.cfg.expected
    case Work(t, _) => t in s.tasks
    case Crash(_) => true
    case Receive(p, t, info, _) => Pc(s, p).Idle? && (t, info) in s.results
    case Reap(p) => Pc(s, p).Idle? && s.job.status == Processing
    case Reconstruct(p) => Pc(s, p).Idle?
    case Step(p, yes, _, _) =>
      var pc := Pc(s, p);
      && !pc.Idle?
      && (pc.Probing? && yes ==> pc.ticket.tile in s.blobs)
    case Resend(p, _) => Resendable(Pc(s, p))
  }

  function Apply(s: State, a: Action): State
    requires Enabled(s, a)
  {
    match a
    case Dispatch(t) => s.(tasks := s.tasks + {t}, blobs := s.blobs + {t})
    case Work(t, info) => s.(results := s.results + {(t, info)})
    case Crash(p) => Goto(s, p, Idle)
    case Receive(p, t, info, seconds) => Goto(s, p, Storing(t, info, seconds))
    case Reap(p) => Goto(s, p, ReadingClock)
    case Reconstruct(p) => Goto(s, p, CountingTiles)
    case Step(p, yes, picked, when) =>
      var pc := Pc(s, p);
      if pc.Looping? || pc.Probing? || pc.Producing? || pc.Abandoning? then
        ReaperLoop(s, p, pc, yes, when)
      else
        Goto(Effect(s, pc, picked), p, Successor(s, pc, yes))
    case Resend(p, picked) => Effect(s, Pc(s, p), picked)
  }

  /** What the command of `pc` does to the shared state, outside the reaper's tile loop. */
  function Effect(s: State, pc: Proc, picked: set<TileId>): State
  {
    var h := s.hist;
    match pc
    case Storing(t, info, _) =>
      s.(job := HSetTile(s.job, t, info),
         hist := h.(stored := h.stored + {t},
                    created := if IsNewTile(s.job, t) then h.created + {(h.gen, t)} else h.created))
    case Pushing(key, seconds) =>
      s.(job := RPushLatency(s.job, seconds), hist := h.(pushed := h.pushed + {key}))
    case Counting(key) =>
      s.(job := HIncrResults(s.job), hist := h.(counted := h.counted + {key}))
    case Flipping => s.(job := HSetStatus(s.job, if s.cfg.ml then Completed else Ready))
    case Degrading => s.(job := HSetStatus(s.job, Degraded))
    case Rendering => s.(job := HSetStatus(s.job, Completed))
    case Deleting => s.(job := DelTileKeys(s.job), hist := h.(gen := h.gen + 1))
    case DeletingAttempts =>
      s.(job := DelAttempts(s.job, picked),
         hist := h.(resets := if picked == {} then h.resets else h.resets + 1))
    case ReadingAbandoned(received) =>
      if Outstanding(s.cfg.expected, received, s.job.abandoned) == [] then s
      else s.(hist := h.(nextSweep := h.nextSweep + 1))
    case Sweeping => s.(blobs := s.blobs - picked)
    case _ => s
  }

  /** Where the process goes next, given the reply that the command of `pc` gets in `s`. */
  function Successor(s: State, pc: Proc, yes: bool): Proc
  {
    match pc
    case Storing(t, _, seconds) =>
      if IsNewTile(s.job, t) then Pushing((s.hist.gen, t), seconds) else Measuring
    case Pushing(key, _) => Counting(key)
    case Counting(_) => Measuring
    case Measuring => Checking(HLenTiles(s.job))
    case Checking(n) => if s.job.status == Processing && n >= s.cfg.expected then Flipping else Idle
    case Flipping => if s.cfg.ml then Announcing else Idle
    case Announcing => Sweeping
    case ReadingClock => if yes then ReadingTiles else Idle
    case ReadingTiles =>
      if Range(s.cfg.expected) <= s.job.tiles.Keys then Idle else ReadingAbandoned(s.job.tiles.Keys)
    case ReadingAbandoned(received) =>
      var retryable := Outstanding(s.cfg.expected, received, s.job.abandoned);
      if retryable == [] then Degrading else Looping(s.hist.nextSweep, retryable)
    case Degrading => Sweeping
    case CountingTiles => if |s.job.tiles| < s.cfg.expected then Idle else Rendering
    case Rendering => Deleting
    case Deleting => DeletingAttempts
    case DeletingAttempts => Sweeping
    case _ => Idle
  }

  /** One command of the loop over the retryable tiles. */
  function ReaperLoop(s: State, p: ProcId, pc: Proc, yes: bool, when: real): State
    requires pc.Looping? || pc.Probing? || pc.Producing? || pc.Abandoning?
  {
    var h := s.hist;
    match pc
    case Looping(w, rest) =>
      if rest == [] then
        Goto(s.(job := HSetLastReap(s.job, when), hist := h.(done := h.done + {w})), p, Idle)
      else
        var t := rest[0];
        var ticket := Ticket(t, h.resets, Attempts(s.job, t) + 1);
        Goto(s.(job := IncrAttempts(s.job, t), hist := h.(tickets := h.tickets[ticket := w])), p,
             if ticket.value + 1 > s.cfg.maxAttempts then Abandoning(w, rest[1..], t)
             else Probing(w, rest[1..], ticket))
    case Probing(w, rest, ticket) =>
      Goto(s, p, if yes then Producing(w, rest, ticket) else Abandoning(w, rest, ticket.tile))
    case Producing(w, rest, ticket) =>
      Goto(s.(tasks := s.tasks + {ticket.tile}, hist := h.(requeued := h.requeued + [ticket])), p,
           Looping(w, rest))
    case Abandoning(w, rest, t) =>
      Goto(s.(job := SAddAbandoned(s.job, t), hist := h.(gaveUp := h.gaveUp + {t})), p, Looping(w, rest))
  }

  /** actions[i] leads from states[i] to states[i + 1]. */
  ghost predicate StepAt(states: seq<State>, actions: seq<Action>, i: nat)
    requires i < |actions| && |states| == |actions| + 1
  {
    Enabled(states[i], actions[i]) && states[i + 1] == Apply(states[i], actions[i])
  }

  /** states[0], actions[0], states[1], ... is a run of the system. */
  ghost predicate IsRun(states: seq<State>, actions: seq<Action>)
  {
    && |states| == |actions| + 1
    && Initial(states[0])
    && forall i :: 0 <= i < |actions| ==> StepAt(states, actions, i)
  }
}
