/** The trace invariant: at every step boundary each conversation's trace reads as blocks, in every generation. */
module DispatcherLedger {
  import opened Prelude
  import opened JobStore
  import opened Dispatcher
  import opened DispatcherSlots
  import opened DispatcherStore
  import opened DispatcherBlocks

  function Jobs(s: State, g: nat, c: nat): seq<Job> { PushedOf(s.pushed, g, c) }

  function ScanOf(s: State, g: nat, c: nat): Scan {
    ScanAll(s.cfg, g, Jobs(s, g, c), TraceOf(s.trace, g, c))
  }

  /** A run that is not settled sits exactly where the trace of its conversation says. */
  ghost predicate Fits(cfg: Config, jobs: seq<Job>, sc: Scan, r: Run, clock: int) {
    r.phase.Settled? ||
    (&& sc.At? && sc.k < |jobs| && jobs[sc.k] == r.job && |sc.tries| <= |cfg.delays|
     && match r.phase
        case Delay => sc.tries == [] && sc.open == None
        case InFlight(n) => sc.open.Some? && sc.open.value <= clock && n == |sc.tries| + 1
        case Backoff(n, until) => sc.open == None && n == |sc.tries| && until == Ready(cfg, r.job, sc.tries)
        case Settled => true)
  }

  /** `q` is what is left of the jobs `js`; the trace stands at its head, or behind it if the run is settled. */
  ghost predicate Left(js: seq<Job>, q: seq<Job>, sc: Scan, settled: bool, unstarted: bool) {
    && |q| <= |js| && q == js[|js| - |q|..]
    && sc.At? && sc.k == |js| - |q| + (if settled then 1 else 0)
    && (unstarted || settled ==> sc.tries == [] && sc.open == None)
  }

  /** The queue of a conversation is what is left of the jobs queued in this generation. */
  ghost predicate Remaining(s: State, c: nat) {
    Left(Jobs(s, s.Gen(), c), s.Queue(c), ScanOf(s, s.Gen(), c), PhaseOf(s, c).Settled?, Key(s.Gen(), c) !in s.runs)
  }

  lemma LeftAppend(js: seq<Job>, q: seq<Job>, sc: Scan, settled: bool, unstarted: bool, job: Job)
    requires Left(js, q, sc, settled, unstarted)
    ensures Left(js + [job], q + [job], sc, settled, unstarted)
  {}

  lemma LeftShift(js: seq<Job>, q: seq<Job>, sc: Scan)
    requires Left(js, q, sc, true, false) && q != []
    ensures Left(js, q[1..], sc, false, true)
  {}

  ghost predicate Reads(s: State, g: nat, c: nat) {
    ScanOf(s, g, c).At?
  }

  ghost predicate RunFits(s: State, k: Key)
    requires k in s.runs
  {
    Fits(s.cfg, Jobs(s, k.gen, k.conv), ScanOf(s, k.gen, k.conv), s.runs[k], s.clock)
  }

  ghost predicate TraceOk(s: State) {
    && (forall i | 0 <= i < |s.pushed| :: s.pushed[i].gen <= s.Gen())
    && (forall i | 0 <= i < |s.trace| :: s.trace[i].gen <= s.Gen())
    && (forall g: nat, c: nat :: Reads(s, g, c))
    && (forall k | k in s.runs :: RunFits(s, k))
    && (forall c: nat :: Remaining(s, c))
  }

  /** Steps that leave history and queues alone. */
  lemma SameHistory(s: State, t: State)
    requires TraceOk(s)
    requires t.cfg == s.cfg && t.Gen() == s.Gen() && t.queues == s.queues && t.pushed == s.pushed && t.trace == s.trace
    requires t.clock >= s.clock
    requires forall k | k in t.runs :: Fits(s.cfg, Jobs(s, k.gen, k.conv), ScanOf(s, k.gen, k.conv), t.runs[k], t.clock)
    requires forall c: nat :: PhaseOf(t, c).Settled? <==> PhaseOf(s, c).Settled?
    requires forall c: nat :: Key(s.Gen(), c) !in t.runs ==> Key(s.Gen(), c) !in s.runs || PhaseOf(s, c).Settled?
    ensures TraceOk(t)
  {
    forall g: nat, c: nat ensures Reads(t, g, c) { assert Reads(s, g, c); }
    forall c: nat ensures Remaining(t, c) {
      assert Remaining(s, c);
      assert t.Queue(c) == s.Queue(c);
    }
  }

  lemma AdmitsTraceOk(s: State, t: State)
    requires RunsOk(s) && TraceOk(s) && Admits(s, t)
    ensures TraceOk(t)
  {
    forall k | k in t.runs
      ensures Fits(s.cfg, Jobs(s, k.gen, k.conv), ScanOf(s, k.gen, k.conv), t.runs[k], t.clock)
    {
      if k.gen == s.Gen() && k.conv in t.running - s.running {
        assert k !in s.runs;
        assert Remaining(s, k.conv);
      } else {
        assert RunFits(s, k);
      }
    }
    forall c: nat ensures PhaseOf(t, c).Settled? <==> PhaseOf(s, c).Settled? { AdmitsKeepsPhases(s, t, c); }
    SameHistory(s, t);
  }

  lemma QueuedScan(s: State, job: Job, g: nat, c: nat)
    requires TraceOk(s)
    ensures ScanOf(Queued(s, job), g, c) == ScanOf(s, g, c)
    ensures Jobs(Queued(s, job), g, c) == Jobs(s, g, c) + if g == s.Gen() && c == job.conv then [job] else []
  {
    assert Reads(s, g, c);
    PushedAppend(s.pushed, Entry(s.Gen(), job), g, c);
    if g == s.Gen() && c == job.conv {
      ScanMoreJobs(s.cfg, g, Jobs(s, g, c), job, TraceOf(s.trace, g, c));
    } else {
      assert Jobs(Queued(s, job), g, c) == Jobs(s, g, c);
    }
  }

  lemma QueuedRunFits(s: State, job: Job, k: Key)
    requires TraceOk(s) && k in s.runs
    ensures RunFits(Queued(s, job), k)
  {
    assert RunFits(s, k);
    QueuedScan(s, job, k.gen, k.conv);
  }

  lemma QueuedQueue(s: State, job: Job, c: nat)
    ensures Queued(s, job).Queue(c) == if c == job.conv then s.Queue(c) + [job] else s.Queue(c)
    ensures PhaseOf(Queued(s, job), c) == PhaseOf(s, c) && Queued(s, job).runs == s.runs && Queued(s, job).Gen() == s.Gen()
  {}

  lemma QueuedRemaining(s: State, job: Job, c: nat)
    requires RunsOk(s) && TraceOk(s)
    ensures Remaining(Queued(s, job), c)
  {
    assert Remaining(s, c);
    QueuedScan(s, job, s.Gen(), c);
    QueuedQueue(s, job, c);
    LeftAppend(Jobs(s, s.Gen(), c), s.Queue(c), ScanOf(s, s.Gen(), c), PhaseOf(s, c).Settled?, Key(s.Gen(), c) !in s.runs, job);
  }

  lemma QueuedTraceOk(s: State, job: Job)
    requires RunsOk(s) && TraceOk(s)
    ensures TraceOk(Queued(s, job))
  {
    var t := Queued(s, job);
    forall g: nat, c: nat ensures Reads(t, g, c) { QueuedScan(s, job, g, c); assert Reads(s, g, c); }
    forall k | k in t.runs ensures RunFits(t, k) { QueuedRunFits(s, job, k); }
    forall c: nat ensures Remaining(t, c) { QueuedRemaining(s, job, c); }
  }

  lemma PushTraceOk(s: State, job: Job)
    requires RunsOk(s) && TraceOk(s)
    ensures TraceOk(Push(s, job))
  {
    QueuedTraceOk(s, job);
    QueuedRunsOk(s, job);
    PumpAdmits(Queued(s, job), job.conv);
    AdmitsTraceOk(Queued(s, job), Push(s, job));
  }

  /** A step of run `k` that records one event. */
  lemma EventScan(s: State, t: State, k: Key, e: Event, g: nat, c: nat)
    requires t.cfg == s.cfg && t.pushed == s.pushed && t.trace == s.trace + [e]
    requires e.gen == k.gen && e.job.conv == k.conv
    ensures ScanOf(t, g, c) == if g == k.gen && c == k.conv then ScanStep(s.cfg, g, Jobs(s, g, c), ScanOf(s, g, c), e) else ScanOf(s, g, c)
  {
    TraceAppend(s.trace, e, g, c);
    if g == k.gen && c == k.conv {
      ScanAppend(s.cfg, g, Jobs(s, g, c), TraceOf(s.trace, g, c), e);
    } else {
      assert TraceOf(t.trace, g, c) == TraceOf(s.trace, g, c);
    }
  }

  /** `t` is `s` after run `k` recorded event `e` and moved to its new phase. */
  ghost predicate Records(s: State, t: State, k: Key, e: Event) {
    && k in s.runs && k in t.runs && k.gen <= s.Gen() && !s.runs[k].phase.Settled?
    && t == s.(runs := s.runs[k := t.runs[k]], trace := s.trace + [e], clock := t.clock, rows := t.rows)
    && t.clock >= s.clock && e.gen == k.gen && e.job.conv == k.conv
  }

  /** The event is the one the trace was waiting for. */
  ghost predicate Expected(s: State, t: State, k: Key, e: Event)
    requires k in t.runs
  {
    var sc := ScanStep(s.cfg, k.gen, Jobs(s, k.gen, k.conv), ScanOf(s, k.gen, k.conv), e);
    && sc.At? && Fits(s.cfg, Jobs(s, k.gen, k.conv), sc, t.runs[k], t.clock)
    && (k.gen == s.Gen() ==> sc.k == ScanOf(s, k.gen, k.conv).k + if t.runs[k].phase.Settled? then 1 else 0)
    && (k.gen == s.Gen() && t.runs[k].phase.Settled? ==> sc.tries == [] && sc.open == None)
  }

  lemma EventRunFits(s: State, t: State, k: Key, e: Event, k': Key)
    requires TraceOk(s) && Records(s, t, k, e) && Expected(s, t, k, e) && k' in t.runs
    ensures RunFits(t, k')
  {
    EventScan(s, t, k, e, k'.gen, k'.conv);
    if k' != k {
      assert RunFits(s, k');
      assert k'.gen != k.gen || k'.conv != k.conv;
    }
  }

  lemma RecordsFrame(s: State, t: State, k: Key, e: Event, c: nat)
    requires Records(s, t, k, e)
    ensures t.Gen() == s.Gen() && t.pushed == s.pushed && t.Queue(c) == s.Queue(c)
    ensures Key(s.Gen(), c) in t.runs <==> Key(s.Gen(), c) in s.runs
    ensures Key(s.Gen(), c) != k ==> PhaseOf(t, c) == PhaseOf(s, c)
    ensures Key(s.Gen(), c) == k ==> PhaseOf(t, c) == t.runs[k].phase && !PhaseOf(s, c).Settled?
  {}

  lemma EventRemaining(s: State, t: State, k: Key, e: Event, c: nat)
    requires TraceOk(s) && Records(s, t, k, e) && Expected(s, t, k, e)
    ensures Remaining(t, c)
  {
    EventScan(s, t, k, e, s.Gen(), c);
    assert Remaining(s, c);
    RecordsFrame(s, t, k, e, c);
    var js, q, sc := Jobs(s, s.Gen(), c), s.Queue(c), ScanOf(s, s.Gen(), c);
    if Key(s.Gen(), c) == k {
      assert Left(js, q, sc, false, false);
      assert Left(js, q, ScanOf(t, s.Gen(), c), t.runs[k].phase.Settled?, false);
    } else {
      assert k.gen != s.Gen() || k.conv != c;
    }
  }

  lemma EventTraceOk(s: State, t: State, k: Key, e: Event)
    requires TraceOk(s) && Records(s, t, k, e) && Expected(s, t, k, e)
    ensures TraceOk(t)
  {
    forall g: nat, c: nat ensures Reads(t, g, c) { EventScan(s, t, k, e, g, c); assert Reads(s, g, c); }
    forall k' | k' in t.runs ensures RunFits(t, k') { EventRunFits(s, t, k, e, k'); }
    forall c: nat ensures Remaining(t, c) { EventRemaining(s, t, k, e, c); }
  }

  lemma FireExpected(s: State, k: Key, now: int)
    requires CanFire(s, k, now) && k.gen == s.Gen() && RunFits(s, k) && s.runs[k].job.conv == k.conv
    ensures var t := Fired(s, k, now);
            var e := t.trace[|s.trace|];
            Records(s, t, k, e) && Expected(s, t, k, e)
  {}

  lemma StaleSettles(s: State, k: Key, t: State)
    requires Structured(s) && TraceOk(s) && k in s.runs && k.gen < s.Gen()
    requires t == SetPhase(s, k, Settled).(clock := t.clock) && t.clock >= s.clock
    ensures TraceOk(t)
  {
    forall k' | k' in t.runs
      ensures Fits(s.cfg, Jobs(s, k'.gen, k'.conv), ScanOf(s, k'.gen, k'.conv), t.runs[k'], t.clock)
    {
      assert RunFits(s, k');
    }
    SameHistory(s, t);
  }

  lemma FireTraceOk(s: State, k: Key, now: int)
    requires Structured(s) && TraceOk(s) && CanFire(s, k, now)
    ensures TraceOk(Fired(s, k, now))
  {
    var t := Fired(s, k, now);
    if k.gen < s.Gen() {
      StaleSettles(s, k, t);
    } else {
      assert RunFits(s, k);
      FireExpected(s, k, now);
      EventTraceOk(s, t, k, t.trace[|s.trace|]);
    }
  }

  /** What the answer to an attempt does to the reading of the trace and to the run. */
  lemma AnswerFits(cfg: Config, g: nat, jobs: seq<Job>, sc: Scan, r: Run, clock: int, status: Option<int>, now: int)
    requires Fits(cfg, jobs, sc, r, clock) && r.phase.InFlight? && now >= clock
    ensures var n := r.phase.n;
            var sc' := ScanStep(cfg, g, jobs, sc, End(g, r.job, n, status, now));
            && sc'.At?
            && (if status == Some(200) || n == cfg.MaxAttempts() then sc' == At(sc.k + 1, [], None)
                else n <= |cfg.delays| && sc'.k == sc.k && Fits(cfg, jobs, sc', Run(r.job, Backoff(n, now + cfg.delays[n - 1])), now))
  {
    var tr := Try(sc.open.value, now, status);
    assert (sc.tries + [tr])[|sc.tries|] == tr;
  }

  lemma RespondExpected(s: State, k: Key, reply: Reply, now: int)
    requires Structured(s) && TraceOk(s) && CanRespond(s, k, now) && !(k.gen < s.Gen() && reply.NetworkError?)
    ensures var t := Responded(s, k, reply, now);
            var e := End(k.gen, s.runs[k].job, s.runs[k].phase.n, StatusOf(reply), now);
            t.trace == s.trace + [e] && Records(s, t, k, e) && Expected(s, t, k, e)
  {
    assert RunFits(s, k);
    AnswerFits(s.cfg, k.gen, Jobs(s, k.gen, k.conv), ScanOf(s, k.gen, k.conv), s.runs[k], s.clock, StatusOf(reply), now);
  }

  lemma RespondTraceOk(s: State, k: Key, reply: Reply, now: int)
    requires Structured(s) && TraceOk(s) && CanRespond(s, k, now)
    ensures TraceOk(Responded(s, k, reply, now))
  {
    var t := Responded(s, k, reply, now);
    if k.gen < s.Gen() && reply.NetworkError? {
      StaleSettles(s, k, t);
    } else {
      RespondExpected(s, k, reply, now);
      EventTraceOk(s, t, k, t.trace[|s.trace|]);
    }
  }

  lemma FreedRemaining(s: State, k: Key, c: nat)
    requires Structured(s) && TraceOk(s) && k in s.runs && k.gen == s.Gen() && s.runs[k].phase.Settled?
    ensures Remaining(Freed(s, k), c)
  {
    assert Remaining(s, c);
    FreedScheduled(s, k);
    FreedQueue(s, k, c);
    if c == k.conv { LeftShift(Jobs(s, s.Gen(), c), s.Queue(c), ScanOf(s, s.Gen(), c)); }
  }

  lemma FreedQueue(s: State, k: Key, c: nat)
    requires Structured(s) && k in s.runs && k.gen == s.Gen() && s.runs[k].phase.Settled?
    ensures var f := Freed(s, k);
            && f.pushed == s.pushed && f.trace == s.trace && f.Gen() == s.Gen() && f.cfg == s.cfg && f.clock == s.clock
            && (c != k.conv ==> f.Queue(c) == s.Queue(c) && PhaseOf(f, c) == PhaseOf(s, c) && (Key(s.Gen(), c) in f.runs <==> Key(s.Gen(), c) in s.runs))
            && (c == k.conv ==> Key(s.Gen(), c) !in f.runs && PhaseOf(f, c) == Delay && PhaseOf(s, c).Settled? && Key(s.Gen(), c) in s.runs && s.Queue(c) != [])
  {}

  lemma FreedTraceOk(s: State, k: Key)
    requires Structured(s) && TraceOk(s) && k in s.runs && k.gen == s.Gen() && s.runs[k].phase.Settled?
    ensures TraceOk(Freed(s, k))
  {
    var f := Freed(s, k);
    assert f.pushed == s.pushed && f.trace == s.trace && f.Gen() == s.Gen() && f.cfg == s.cfg && f.clock == s.clock;
    forall g: nat, c: nat ensures Reads(f, g, c) { assert Reads(s, g, c); }
    forall k' | k' in f.runs ensures RunFits(f, k') { assert RunFits(s, k'); }
    forall c: nat ensures Remaining(f, c) { FreedRemaining(s, k, c); }
  }

  lemma WaitersTraceOk(s: State, t: State)
    requires TraceOk(s) && t == s.(idleWaiters := t.idleWaiters, resolved := t.resolved)
    ensures TraceOk(t)
  {
    forall k | k in t.runs
      ensures Fits(s.cfg, Jobs(s, k.gen, k.conv), ScanOf(s, k.gen, k.conv), t.runs[k], t.clock)
    {
      assert RunFits(s, k);
    }
    SameHistory(s, t);
  }

  lemma FinalizedSame(s: State, k: Key)
    requires Structured(s) && TraceOk(s) && k in s.runs && s.runs[k].phase.Settled? && k.gen < s.Gen()
    ensures TraceOk(Finalized(s, k))
  {
    StaleFreedSame(s, k);
    SettledKeeps(StaleFreed(s, k));
    WaitersTraceOk(StaleFreed(s, k), Finalized(s, k));
  }

  lemma StaleFreedSame(s: State, k: Key)
    requires TraceOk(s) && k.gen < s.Gen()
    ensures TraceOk(StaleFreed(s, k))
  {
    var t := StaleFreed(s, k);
    forall k' | k' in t.runs ensures Fits(s.cfg, Jobs(s, k'.gen, k'.conv), ScanOf(s, k'.gen, k'.conv), t.runs[k'], t.clock) { assert RunFits(s, k'); }
    forall c: nat ensures PhaseOf(t, c) == PhaseOf(s, c) {}
    SameHistory(s, t);
  }

  lemma FinallyTraceOk(s: State, k: Key)
    requires Structured(s) && TraceOk(s) && k in s.runs && s.runs[k].phase.Settled?
    ensures TraceOk(Finalized(s, k))
  {
    if k.gen < s.Gen() {
      FinalizedSame(s, k);
    } else {
      FreedScheduled(s, k);
      FreedTraceOk(s, k);
      FinallyStructured(s, k);
      var t := Finalized(s, k).(idleWaiters := s.idleWaiters, resolved := s.resolved);
      AdmitsTraceOk(Freed(s, k), t);
      WaitersTraceOk(t, Finalized(s, k));
    }
  }

  /** A new generation starts with an empty history of its own and leaves the old ones as they are. */
  lemma FreshGeneration(s: State, t: State)
    requires TraceOk(s)
    requires t.cfg == s.cfg && t.Gen() == s.Gen() + 1 && t.pushed == s.pushed && t.trace == s.trace && t.clock == s.clock
    requires forall c: nat :: t.Queue(c) == []
    requires forall k | k in t.runs :: k in s.runs && t.runs[k] == s.runs[k] && k.gen <= s.Gen()
    ensures TraceOk(t)
  {
    forall g: nat, c: nat ensures Reads(t, g, c) { assert Reads(s, g, c); }
    forall k | k in t.runs ensures RunFits(t, k) { assert RunFits(s, k); }
    forall c: nat ensures Remaining(t, c) {
      PushedNone(s.pushed, t.Gen(), c);
      TraceNone(s.trace, t.Gen(), c);
      assert Key(t.Gen(), c) !in t.runs;
    }
  }

  lemma {:induction false} PushAllTraceOk(s: State, jobs: seq<Job>)
    requires Structured(s) && TraceOk(s)
    ensures TraceOk(PushAll(s, jobs))
  {
    if jobs != [] {
      PushAllTraceOk(s, jobs[..|jobs| - 1]);
      PushAllSlots(s, jobs[..|jobs| - 1]);
      PushTraceOk(PushAll(s, jobs[..|jobs| - 1]), Core(jobs[|jobs| - 1]));
    }
  }

  lemma RestartTraceOk(s: State)
    requires Structured(s) && TraceOk(s)
    ensures TraceOk(Resumed(Rebooted(s)))
  {
    var b := Rebooted(s);
    assert forall c: nat :: b.Queue(c) == [];
    FreshGeneration(s, b);
    assert Structured(b);
    PushAllTraceOk(b, AllPending(b.rows.jobs));
  }

  lemma EnqueueTraceOk(s: State, r: Request, now: int)
    requires Structured(s) && TraceOk(s) && now >= s.clock
    ensures TraceOk(Enqueued(s, r, now))
  {
    var s1 := s.(rows := Inserted(s.rows, r, now), clock := now);
    assert forall d: nat :: s1.Queue(d) == s.Queue(d);
    forall k | k in s1.runs
      ensures Fits(s.cfg, Jobs(s, k.gen, k.conv), ScanOf(s, k.gen, k.conv), s1.runs[k], s1.clock)
    {
      assert RunFits(s, k);
    }
    SameHistory(s, s1);
    PushTraceOk(s1, NewJob(r, s.rows.nextId, now));
  }

  lemma ResetTraceOk(s: State)
    requires Structured(s) && TraceOk(s)
    ensures TraceOk(WasReset(s)) && TraceOk(CancelledAll(s))
  {
    assert forall c: nat :: WasReset(s).Queue(c) == [] && CancelledAll(s).Queue(c) == [];
    FreshGeneration(s, WasReset(s));
    FreshGeneration(s, CancelledAll(s));
  }

  lemma StepTraceOk(s: State, step: Step)
    requires Structured(s) && TraceOk(s) && Enabled(s, step)
    ensures TraceOk(Apply(s, step))
  {
    match step
    case Enqueue(r, now) => EnqueueTraceOk(s, r, now);
    case Fire(k, now) => FireTraceOk(s, k, now);
    case Respond(k, reply, now) => RespondTraceOk(s, k, reply, now);
    case Finally(k) => FinallyTraceOk(s, k);
    case Cancel => ResetTraceOk(s);
    case Reset => ResetTraceOk(s);
    case Restart => RestartTraceOk(s);
    case AwaitIdle(w) => WaitersTraceOk(s, AwaitedIdle(s, w));
  }
}
