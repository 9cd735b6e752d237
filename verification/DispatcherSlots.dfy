/** Slots: who runs, who waits, and why no slot idles while somebody waits. */
module DispatcherSlots {
  import opened Prelude
  import opened JobStore
  import opened Dispatcher

  /** A conversation has work exactly when it runs or waits, never both. */
  ghost predicate Scheduled(s: State) {
    && (forall c: nat :: s.Queue(c) != [] <==> c in s.running || c in s.waiting)
    && (forall c: nat | c in s.running :: c !in s.waiting)
    && Distinct(s.waiting)
    && |s.running| <= s.cfg.maxParallel
  }

  /** The slot invariant. */
  ghost predicate Slots(s: State) {
    && Scheduled(s)
    && (s.waiting != [] ==> |s.running| == s.cfg.maxParallel)
  }

  /** `Scheduled`, but `c` is in neither place, whatever its queue. */
  ghost predicate ScheduledBut(s: State, c: nat) {
    && (forall d: nat | d != c :: s.Queue(d) != [] <==> d in s.running || d in s.waiting)
    && c !in s.running && c !in s.waiting
    && (forall d: nat | d in s.running :: d !in s.waiting)
    && Distinct(s.waiting)
    && |s.running| <= s.cfg.maxParallel
  }

  /** Runs and slots agree, for every generation; a current run works on the head of its queue. */
  ghost predicate RunsOk(s: State) {
    && (forall k | k in s.runs :: k.gen <= s.Gen() && s.runs[k].job.conv == k.conv)
    && (forall c: nat :: c in s.running <==> Key(s.Gen(), c) in s.runs)
    && (forall g: nat, c: nat | g < s.Gen() :: c in s.past[g].running <==> Key(g, c) in s.runs)
    && (forall c: nat | c in s.running :: s.Queue(c) != [] && s.runs[Key(s.Gen(), c)].job == s.Queue(c)[0])
    && (forall c: nat, i | 0 <= i < |s.Queue(c)| :: s.Queue(c)[i].conv == c)
  }

  /** An `idle()` caller is left waiting only while there is work. */
  ghost predicate Served(s: State) {
    s.Idle() ==> s.idleWaiters == []
  }

  ghost predicate Structured(s: State) {
    s.cfg.Ok() && Slots(s) && RunsOk(s) && Served(s)
  }

  /** All that pumping can do: start the head job of some conversations and reorder who waits. */
  ghost predicate Admits(s: State, t: State) {
    && t == s.(waiting := t.waiting, running := t.running, runs := t.runs)
    && s.running <= t.running
    && (forall c | c in t.running - s.running ::
          && s.Queue(c) != []
          && Key(s.Gen(), c) in t.runs
          && t.runs[Key(s.Gen(), c)] == Run(s.Queue(c)[0], Delay))
    && (forall k: Key | !(k.gen == s.Gen() && k.conv in t.running - s.running) ::
          && (k in t.runs <==> k in s.runs)
          && (k in s.runs ==> t.runs[k] == s.runs[k]))
  }

  lemma AdmitsTrans(s: State, t: State, u: State)
    requires Admits(s, t) && Admits(t, u)
    ensures Admits(s, u)
  {
    forall c | c in u.running - s.running
      ensures s.Queue(c) != [] && Key(s.Gen(), c) in u.runs && u.runs[Key(s.Gen(), c)] == Run(s.Queue(c)[0], Delay)
    {
      assert t.Queue(c) == s.Queue(c);
      if c in t.running { assert c in t.running - s.running; }
    }
  }

  lemma {:induction false} WithoutIs(xs: seq<nat>, x: nat)
    ensures forall y :: y in Without(xs, x) <==> y in xs && y != x
    ensures Distinct(xs) ==> Distinct(Without(xs, x))
    ensures x !in xs ==> Without(xs, x) == xs
  {
    if xs != [] {
      WithoutIs(xs[1..], x);
      if Distinct(xs) && xs[0] != x {
        var w := Without(xs[1..], x);
        assert Without(xs, x) == [xs[0]] + w;
        forall i, j | 0 <= i < j < |w| + 1 ensures ([xs[0]] + w)[i] != ([xs[0]] + w)[j] {
          if i == 0 { assert w[j - 1] in xs[1..]; }
        }
      }
    }
  }

  lemma PumpAdmits(s: State, c: nat)
    ensures Admits(s, Pump(s, c))
  {}

  /** Pumping the one conversation that is not yet scheduled schedules it. */
  lemma PumpSchedules(s: State, c: nat)
    requires ScheduledBut(s, c)
    ensures Scheduled(Pump(s, c)) && Admits(s, Pump(s, c))
    ensures s.Queue(c) == [] ==> c !in Pump(s, c).waiting
    ensures |s.running| < s.cfg.maxParallel ==> c !in Pump(s, c).waiting && Pump(s, c).waiting == s.waiting
  {
    var t := Pump(s, c);
    WithoutIs(s.waiting, c);
    assert forall d: nat :: t.Queue(d) == s.Queue(d);
  }

  lemma FillStep(s: State)
    requires Scheduled(s) && |s.running| < s.cfg.maxParallel && s.waiting != []
    ensures var t := Pump(s.(waiting := s.waiting[1..]), s.waiting[0]);
            && Scheduled(t) && Admits(s, t) && t.waiting == s.waiting[1..]
            && t.running == s.running + {s.waiting[0]}
  {
    var c := s.waiting[0];
    var s1 := s.(waiting := s.waiting[1..]);
    assert forall d: nat :: s1.Queue(d) == s.Queue(d);
    assert c in s.waiting;
    assert forall d: nat :: d in s.waiting <==> d == c || d in s1.waiting;
    assert ScheduledBut(s1, c);
    PumpSchedules(s1, c);
    WithoutIs(s1.waiting, c);
  }

  function Elems(xs: seq<nat>): set<nat> { set x | x in xs }

  /** One turn of the slot-filling loop. */
  function FillTurn(s: State): State
    requires s.waiting != []
  {
    Pump(s.(waiting := s.waiting[1..]), s.waiting[0])
  }

  lemma FillUnfold(s: State, c: nat)
    requires |s.running| < s.cfg.maxParallel && s.waiting != [] && s.waiting[0] != c
    ensures Fill(s, c) == Fill(FillTurn(s), c)
  {}

  lemma FillDone(s: State, c: nat)
    requires !(|s.running| < s.cfg.maxParallel && s.waiting != [])
    ensures Fill(s, c) == s
  {}

  /** The slot-filling loop ends with every slot taken or nobody waiting. */
  lemma {:induction false} FillSchedules(s: State, c: nat)
    requires Scheduled(s) && c !in s.waiting
    ensures Slots(Fill(s, c)) && Admits(s, Fill(s, c))
    decreases |s.waiting|
  {
    if |s.running| < s.cfg.maxParallel && s.waiting != [] {
      FillStep(s);
      FillUnfold(s, c);
      FillSchedules(FillTurn(s), c);
      AdmitsTrans(s, FillTurn(s), Fill(s, c));
    } else {
      FillDone(s, c);
    }
  }

  lemma ElemsCons(xs: seq<nat>, k: nat)
    requires k < |xs|
    ensures Elems(xs[..k + 1]) == {xs[0]} + Elems(xs[1..][..k])
    ensures xs[k + 1..] == xs[1..][k..]
  {
    assert xs[..k + 1] == [xs[0]] + xs[1..][..k];
  }

  lemma FrontAdmitted(s: State, t: State, u: State, k: nat)
    requires s.waiting != [] && t.waiting == s.waiting[1..] && t.running == s.running + {s.waiting[0]}
    requires k <= |t.waiting| && u.waiting == t.waiting[k..] && u.running == t.running + Elems(t.waiting[..k])
    ensures u.waiting == s.waiting[k + 1..] && u.running == s.running + Elems(s.waiting[..k + 1])
  {
    ElemsCons(s.waiting, k);
  }

  /** It admits from the front of the line, in order. */
  lemma {:induction false} FillInOrder(s: State, c: nat) returns (k: nat)
    requires Scheduled(s) && c !in s.waiting
    ensures k <= |s.waiting| && Fill(s, c).waiting == s.waiting[k..]
    ensures Fill(s, c).running == s.running + Elems(s.waiting[..k])
    decreases |s.waiting|
  {
    if |s.running| < s.cfg.maxParallel && s.waiting != [] {
      FillStep(s);
      FillUnfold(s, c);
      var k0 := FillInOrder(FillTurn(s), c);
      FrontAdmitted(s, FillTurn(s), Fill(s, c), k0);
      k := k0 + 1;
    } else {
      FillDone(s, c);
      k := 0;
    }
  }

  /** Adding a job and pumping keeps the slot invariant. */
  lemma PushSlots(s: State, job: Job)
    requires Slots(s)
    ensures Slots(Push(s, job))
    ensures Admits(Queued(s, job), Push(s, job))
    ensures s.waiting <= Push(s, job).waiting <= s.waiting + [job.conv]
    ensures Push(s, job).running <= s.running + {job.conv}
    ensures s.waiting != [] ==> Push(s, job).running == s.running
  {
    var c := job.conv;
    var s1 := Queued(s, job);
    assert forall d: nat | d != c :: s1.Queue(d) == s.Queue(d);
    assert s1.Queue(c) != [];
    PumpAdmits(s1, c);
    if s.Queue(c) == [] {
      assert ScheduledBut(s1, c);
      PumpSchedules(s1, c);
    } else {
      WithoutIs(s1.waiting, c);
      assert Pump(s1, c) == s1;
    }
  }

  /** `running`, `waiting` and the queues of a current run that is just finalised. */
  function Freed(s: State, k: Key): State {
    Shifted(s.(runs := s.runs - {k}, running := s.running - {k.conv}), k.conv)
  }

  lemma FreedScheduled(s: State, k: Key)
    requires Slots(s) && RunsOk(s) && k in s.runs && k.gen == s.Gen()
    ensures var f := Freed(s, k);
            && ScheduledBut(f, k.conv) && RunsOk(f)
            && |f.running| < f.cfg.maxParallel && f.Queue(k.conv) == s.Queue(k.conv)[1..]
  {
    var c, f := k.conv, Freed(s, k);
    assert forall d: nat | d != c :: f.Queue(d) == s.Queue(d);
    assert f.Queue(c) == s.Queue(c)[1..];
  }

  lemma FinalizedIs(s: State, k: Key)
    requires k in s.runs && k.gen == s.Gen()
    ensures Finalized(s, k) == SettleIdle(Fill(Pump(Freed(s, k), k.conv), k.conv))
  {}

  lemma SettledKeeps(s: State)
    ensures Served(SettleIdle(s))
    ensures Slots(s) ==> Slots(SettleIdle(s))
    ensures RunsOk(s) ==> RunsOk(SettleIdle(s))
    ensures SettleIdle(s) == s.(idleWaiters := SettleIdle(s).idleWaiters, resolved := SettleIdle(s).resolved)
  {
    assert forall d: nat :: SettleIdle(s).Queue(d) == s.Queue(d);
  }

  /**
   The `finally` block of a current run: the slot goes back to the same conversation if it has more work,
   otherwise to the front of the waiting line.
   */
  lemma FinallyStructured(s: State, k: Key)
    requires Structured(s) && k in s.runs && k.gen == s.Gen()
    ensures Structured(Finalized(s, k))
    ensures var t := Finalized(s, k);
            Admits(Freed(s, k), t.(idleWaiters := s.idleWaiters, resolved := s.resolved))
  {
    var c, f := k.conv, Freed(s, k);
    FreedScheduled(s, k);
    PumpSchedules(f, c);
    var p := Pump(f, c);
    FillSchedules(p, c);
    AdmitsTrans(f, p, Fill(p, c));
    AdmitsRunsOk(f, Fill(p, c));
    SettledKeeps(Fill(p, c));
    FinalizedIs(s, k);
  }

  /** The maps an old run leaves behind when it is over: its own generation's slot is free. */
  function StaleFreed(s: State, k: Key): State
    requires k.gen < s.Gen()
  {
    s.(runs := s.runs - {k}, past := s.past[k.gen := s.past[k.gen].(running := s.past[k.gen].running - {k.conv})])
  }

  lemma FinallyStale(s: State, k: Key)
    requires Slots(s) && RunsOk(s) && k in s.runs && k.gen < s.Gen()
    ensures Slots(Finalized(s, k)) && RunsOk(Finalized(s, k)) && Served(Finalized(s, k))
  {
    var t := StaleFreed(s, k);
    assert forall c: nat :: t.Queue(c) == s.Queue(c);
    SettledKeeps(t);
  }

  /** Whatever pumping does, runs and slots keep agreeing. */
  lemma AdmitsRunsOk(s: State, t: State)
    requires RunsOk(s) && Admits(s, t)
    ensures RunsOk(t)
  {
    assert forall c: nat :: t.Queue(c) == s.Queue(c);
    forall c: nat ensures c in t.running <==> Key(t.Gen(), c) in t.runs {
      if c in t.running - s.running {}
    }
    forall k | k in t.runs ensures k.gen <= t.Gen() && t.runs[k].job.conv == k.conv {
      if k.gen == s.Gen() && k.conv in t.running - s.running {
        assert t.Queue(k.conv)[0].conv == k.conv;
      }
    }
  }

  lemma QueuedRunsOk(s: State, job: Job)
    requires RunsOk(s)
    ensures RunsOk(Queued(s, job))
    ensures Queued(s, job).Queue(job.conv) == s.Queue(job.conv) + [job]
    ensures forall d: nat | d != job.conv :: Queued(s, job).Queue(d) == s.Queue(d)
  {
    assert forall d: nat | d != job.conv :: Queued(s, job).Queue(d) == s.Queue(d);
  }

  lemma PushRunsOk(s: State, job: Job)
    requires Slots(s) && RunsOk(s)
    ensures RunsOk(Push(s, job))
  {
    QueuedRunsOk(s, job);
    PushSlots(s, job);
    AdmitsRunsOk(Queued(s, job), Push(s, job));
  }

  lemma PushServed(s: State, job: Job)
    requires Slots(s) && s.cfg.Ok()
    ensures !Push(s, job).Idle()
  {
    var t := Push(s, job);
    PushSlots(s, job);
    assert t.Queue(job.conv) != [];
    assert job.conv in t.queues;
  }

  lemma {:induction false} PushAllSlots(s: State, jobs: seq<Job>)
    requires Slots(s) && RunsOk(s) && Served(s) && s.cfg.Ok()
    ensures Slots(PushAll(s, jobs)) && RunsOk(PushAll(s, jobs)) && Served(PushAll(s, jobs))
  {
    if jobs != [] {
      var t := PushAll(s, jobs[..|jobs| - 1]);
      var j := Core(jobs[|jobs| - 1]);
      PushAllSlots(s, jobs[..|jobs| - 1]);
      PushAllCfg(s, jobs[..|jobs| - 1]);
      PushSlots(t, j);
      PushRunsOk(t, j);
      PushServed(t, j);
    }
  }

  lemma {:induction false} PushAllCfg(s: State, jobs: seq<Job>)
    ensures PushAll(s, jobs).cfg == s.cfg
  {
    if jobs != [] { PushAllCfg(s, jobs[..|jobs| - 1]); }
  }

  lemma PhaseKeeps(s: State, k: Key, ph: Phase, t: State)
    requires Structured(s) && k in s.runs
    requires t == SetPhase(s, k, ph).(rows := t.rows, trace := t.trace, clock := t.clock)
    ensures Structured(t)
  {
    assert forall c: nat :: t.Queue(c) == s.Queue(c);
  }

  lemma EnqueueStructured(s: State, r: Request, now: int)
    requires Structured(s)
    ensures Structured(Enqueued(s, r, now))
  {
    var s1 := s.(rows := Inserted(s.rows, r, now), clock := now);
    assert forall c: nat :: s1.Queue(c) == s.Queue(c);
    var job := NewJob(r, s.rows.nextId, now);
    assert Structured(s1);
    PushSlots(s1, job);
    PushRunsOk(s1, job);
    PushServed(s1, job);
  }

  lemma FireStructured(s: State, k: Key, now: int)
    requires Structured(s) && CanFire(s, k, now)
    ensures Structured(Fired(s, k, now))
  {
    var t := Fired(s, k, now);
    PhaseKeeps(s, k, t.runs[k].phase, t);
  }

  lemma RespondStructured(s: State, k: Key, reply: Reply, now: int)
    requires Structured(s) && CanRespond(s, k, now)
    ensures Structured(Responded(s, k, reply, now))
  {
    var t := Responded(s, k, reply, now);
    PhaseKeeps(s, k, t.runs[k].phase, t);
  }

  lemma CancelStructured(s: State)
    requires Structured(s)
    ensures Structured(CancelledAll(s)) && Structured(WasReset(s))
  {
    var t := s.(past := s.past + [Tables(s.queues, s.running)], queues := map[], running := {}, waiting := []);
    assert forall c: nat :: t.Queue(c) == [];
    assert RunsOk(t);
    SettledKeeps(t);
    assert forall c: nat :: WasReset(s).Queue(c) == [];
  }

  lemma RestartStructured(s: State)
    requires s.cfg.Ok()
    ensures Structured(Resumed(Rebooted(s)))
  {
    var t := Rebooted(s);
    assert forall c: nat :: t.Queue(c) == [];
    PushAllSlots(t, AllPending(t.rows.jobs));
    PushAllCfg(t, AllPending(t.rows.jobs));
  }

  lemma AwaitStructured(s: State, w: nat)
    requires Structured(s)
    ensures Structured(AwaitedIdle(s, w))
  {
    var t := s.(idleWaiters := s.idleWaiters + [w]);
    assert forall c: nat :: t.Queue(c) == s.Queue(c);
    SettledKeeps(t);
  }

  /** The slot invariant, the agreement of runs and slots, and idleness hold at every step boundary. */
  lemma StepStructured(s: State, step: Step)
    requires Structured(s) && Enabled(s, step)
    ensures Structured(Apply(s, step))
  {
    match step
    case Enqueue(r, now) => EnqueueStructured(s, r, now);
    case Fire(k, now) => FireStructured(s, k, now);
    case Respond(k, reply, now) => RespondStructured(s, k, reply, now);
    case Finally(k) => if k.gen < s.Gen() { FinallyStale(s, k); } else { FinallyStructured(s, k); }
    case Cancel => CancelStructured(s);
    case Reset => CancelStructured(s);
    case Restart => RestartStructured(s);
    case AwaitIdle(w) => AwaitStructured(s, w);
  }
}
