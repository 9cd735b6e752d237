/**
 The webhook dispatcher as a state machine: one step per callback of the event loop.

 A suspended `runHead` is a `Run`: which job, and what it is waiting for. `cancelAll` swaps in fresh maps
 while old runs are still suspended, so every run carries the number of the generation whose maps it captured;
 the current generation is `|past|`, and a run of an older one sees its signal aborted.
 */
module Dispatcher {
  import opened Prelude
  import opened JobStore

  /** `maxParallel` is already clamped to at least 1; `delays[i]` is the pause after attempt i + 1. */
  datatype Config = Config(delays: seq<nat>, maxParallel: nat) {
    ghost predicate Ok() { maxParallel >= 1 }
    function MaxAttempts(): nat { |delays| + 1 }
  }

  /** Attempts are numbered from 1. */
  type Count = n: int | n >= 1 witness 1

  datatype Phase =
    | Delay                          // sleeping until the job's notBefore
    | InFlight(n: Count)             // attempt n is on the wire
    | Backoff(n: Count, until: int)  // sleeping after attempt n
    | Settled                        // the run is over, its `finally` callback has not run yet

  datatype Key = Key(gen: nat, conv: nat)
  datatype Run = Run(job: Job, phase: Phase)
  datatype Tables = Tables(queues: map<nat, seq<Job>>, running: set<nat>)
  datatype Reply = Status(code: int) | NetworkError(error: string)

  /** What reaches Comdove (`Begin`) and what comes back (`End`). */
  datatype Event =
    | Begin(gen: nat, job: Job, n: Count, at: int)
    | End(gen: nat, job: Job, n: Count, status: Option<int>, at: int)

  datatype Entry = Entry(gen: nat, job: Job)

  /** `pushed` and `trace` are history: every job ever queued and every attempt ever made. */
  datatype State = State(
    cfg: Config,
    past: seq<Tables>,
    queues: map<nat, seq<Job>>, running: set<nat>, waiting: seq<nat>,
    idleWaiters: seq<nat>, resolved: seq<nat>,
    runs: map<Key, Run>,
    rows: Rows,
    clock: int,
    pushed: seq<Entry>, trace: seq<Event>)
  {
    function Gen(): nat { |past| }
    function Queue(c: nat): seq<Job> { if c in queues then queues[c] else [] }
    predicate Idle() { running == {} && forall c | c in queues :: queues[c] == [] }
  }

  function Initial(cfg: Config, rows: Rows, clock: int): State {
    State(cfg, [], map[], {}, [], [], [], map[], rows, clock, [], [])
  }

  function SettleIdle(s: State): State {
    if s.Idle() then s.(resolved := s.resolved + s.idleWaiters, idleWaiters := []) else s
  }

  function Without(xs: seq<nat>, x: nat): seq<nat> {
    if xs == [] then [] else (if xs[0] == x then [] else [xs[0]]) + Without(xs[1..], x)
  }

  /** Give the conversation a slot, or let it wait for one. */
  function Pump(s: State, c: nat): State {
    if c in s.running || s.Queue(c) == [] then s
    else if |s.running| >= s.cfg.maxParallel then
      if c in s.waiting then s else s.(waiting := s.waiting + [c])
    else
      s.(waiting := Without(s.waiting, c),
         running := s.running + {c},
         runs := s.runs[Key(s.Gen(), c) := Run(s.Queue(c)[0], Delay)])
  }

  function Queued(s: State, job: Job): State {
    s.(queues := s.queues[job.conv := s.Queue(job.conv) + [job]], pushed := s.pushed + [Entry(s.Gen(), job)])
  }

  function Push(s: State, job: Job): State {
    Pump(Queued(s, job), job.conv)
  }

  function Enqueued(s: State, r: Request, now: int): State {
    Push(s.(rows := Inserted(s.rows, r, now), clock := now), NewJob(r, s.rows.nextId, now))
  }

  /** The slot-filling loop of the `finally` block: `c` just gave its slot back. */
  function Fill(s: State, c: nat): State
    decreases |s.waiting|
  {
    if |s.running| < s.cfg.maxParallel && s.waiting != [] then
      var s1 := s.(waiting := s.waiting[1..]);
      WithoutShrinks(s1.waiting, s.waiting[0]);
      Fill(if s.waiting[0] != c then Pump(s1, s.waiting[0]) else s1, c)
    else s
  }

  lemma WithoutShrinks(xs: seq<nat>, x: nat)
    ensures |Without(xs, x)| <= |xs|
  {}

  function Shifted(s: State, c: nat): State {
    if s.Queue(c) == [] then s else s.(queues := s.queues[c := s.Queue(c)[1..]])
  }

  /** The `finally` block of a run: an old one frees its slot in its own, captured set only. */
  function Finalized(s: State, k: Key): State {
    var s0 := s.(runs := s.runs - {k});
    if k.gen < s.Gen() then
      SettleIdle(s0.(past := s.past[k.gen := s.past[k.gen].(running := s.past[k.gen].running - {k.conv})]))
    else
      SettleIdle(Fill(Pump(Shifted(s0.(running := s.running - {k.conv}), k.conv), k.conv), k.conv))
  }

  function SetPhase(s: State, k: Key, ph: Phase): State
    requires k in s.runs
  {
    s.(runs := s.runs[k := s.runs[k].(phase := ph)])
  }

  /** May the sleeping run of key `k` go on at time `now`? An aborted sleep ends at once. */
  predicate CanFire(s: State, k: Key, now: int) {
    && k in s.runs && now >= s.clock
    && match s.runs[k].phase
       case Delay => k.gen < s.Gen() || now >= s.runs[k].job.notBefore
       case Backoff(n, until) => k.gen < s.Gen() || now >= until
       case _ => false
  }

  /** A sleep is over: start the next attempt, unless the run was cancelled meanwhile. */
  function Fired(s: State, k: Key, now: int): State
    requires CanFire(s, k, now)
  {
    var r, s0 := s.runs[k], s.(clock := now);
    if k.gen < s.Gen() then SetPhase(s0, k, Settled)
    else
      var n: Count := if r.phase.Backoff? then r.phase.n + 1 else 1;
      SetPhase(s0.(trace := s.trace + [Begin(k.gen, r.job, n, now)]), k, InFlight(n))
  }

  predicate CanRespond(s: State, k: Key, now: int) {
    k in s.runs && s.runs[k].phase.InFlight? && now >= s.clock
  }

  function StatusOf(reply: Reply): Option<int> {
    if reply.Status? then Some(reply.code) else None
  }

  function ErrorOf(reply: Reply): Option<string> {
    if reply.Status? then None else Some(reply.error)
  }

  /**
   The request of an attempt ended. A cancelled run records nothing for a failed request, but an answer that was
   already in is still recorded and may still finish the (deleted) job; only its next sleep notices the abort.
   */
  function Responded(s: State, k: Key, reply: Reply, now: int): State
    requires CanRespond(s, k, now)
  {
    var job, n, s0 := s.runs[k].job, s.runs[k].phase.n, s.(clock := now);
    if k.gen < s.Gen() && reply.NetworkError? then SetPhase(s0, k, Settled)
    else
      var s1 := s0.(rows := s.rows.(attempts := s.rows.attempts + [Attempt(job.id, n, StatusOf(reply), ErrorOf(reply), now)]),
                    trace := s.trace + [End(k.gen, job, n, StatusOf(reply), now)]);
      if StatusOf(reply) == Some(200) then SetPhase(s1.(rows := Finished(s1.rows, job.id, Succeeded, now)), k, Settled)
      else if n < s.cfg.MaxAttempts() then
        if k.gen < s.Gen() then SetPhase(s1, k, Settled)
        else SetPhase(s1, k, Backoff(n, now + s.cfg.delays[n - 1]))
      else SetPhase(s1.(rows := Finished(s1.rows, job.id, Failed, now)), k, Settled)
  }

  /** Does this answer end the job? */
  predicate EndsJob(s: State, n: Count, reply: Reply) { StatusOf(reply) == Some(200) || n >= s.cfg.MaxAttempts() }

  /**
   The messages whose log entry an answer changes: once for the attempt, once more if the job ends; nothing for a job
   that has no row any more, nor for a failed request of a cancelled run.
   */
  function Announced(s: State, k: Key, reply: Reply): seq<string>
    requires k in s.runs && s.runs[k].phase.InFlight?
  {
    var w := WamidOf(s.rows.jobs, s.runs[k].job.id);
    if k.gen < s.Gen() && reply.NetworkError? then [] else if EndsJob(s, s.runs[k].phase.n, reply) then w + w else w
  }

  /** `cancelAll` swaps in fresh maps; the rows are left to the caller. */
  function CancelledAll(s: State): State {
    SettleIdle(s.(past := s.past + [Tables(s.queues, s.running)], queues := map[], running := {}, waiting := []))
  }

  /** The reset route: cancel, then delete the rows, in one callback. */
  function WasReset(s: State): State {
    var s0 := CancelledAll(s);
    s0.(rows := Cleared(s0.rows))
  }

  function PushAll(s: State, jobs: seq<Job>): State {
    if jobs == [] then s else Push(PushAll(s, jobs[..|jobs| - 1]), Core(jobs[|jobs| - 1]))
  }

  /** Boot: queue the unfinished rows in id order, eligible at once. */
  function Resumed(s: State): State {
    PushAll(s, AllPending(s.rows.jobs))
  }

  /** A new process over the same rows: queues, timers and runs of the old one are gone. */
  function Rebooted(s: State): State {
    State(s.cfg, seq(|s.past| + 1, _ => Tables(map[], {})), map[], {}, [], [], s.resolved, map[], s.rows, s.clock, s.pushed, s.trace)
  }

  function AwaitedIdle(s: State, w: nat): State {
    SettleIdle(s.(idleWaiters := s.idleWaiters + [w]))
  }

  datatype Step =
    | Enqueue(r: Request, now: int)
    | Fire(k: Key, now: int)
    | Respond(k: Key, reply: Reply, now: int)
    | Finally(k: Key)
    | Cancel
    | Reset
    | Restart
    | AwaitIdle(w: nat)

  /** These swap in fresh maps and a fresh abort signal. */
  predicate NewGeneration(step: Step) { step.Cancel? || step.Reset? || step.Restart? }

  predicate Enabled(s: State, step: Step) {
    match step
    case Enqueue(r, now) => now >= s.clock
    case Fire(k, now) => CanFire(s, k, now)
    case Respond(k, reply, now) => CanRespond(s, k, now)
    case Finally(k) => k in s.runs && s.runs[k].phase.Settled?
    case Cancel => true
    case Reset => true
    case Restart => true
    case AwaitIdle(w) => true
  }

  function Apply(s: State, step: Step): State
    requires Enabled(s, step)
  {
    match step
    case Enqueue(r, now) => Enqueued(s, r, now)
    case Fire(k, now) => Fired(s, k, now)
    case Respond(k, reply, now) => Responded(s, k, reply, now)
    case Finally(k) => Finalized(s, k)
    case Cancel => CancelledAll(s)
    case Reset => WasReset(s)
    case Restart => Resumed(Rebooted(s))
    case AwaitIdle(w) => AwaitedIdle(s, w)
  }
}
