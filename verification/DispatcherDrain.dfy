/** Without new requests the dispatcher runs dry: every timer, answer or `finally` lowers a bound on the work left. */
module DispatcherDrain {
  import opened Prelude
  import opened JobStore
  import opened Dispatcher
  import opened DispatcherSlots
  import opened DispatcherStore
  import opened DispatcherBlocks
  import opened DispatcherLedger
  import opened DispatcherPushed
  import opened DispatcherOrder
  import opened DispatcherRuns

  function Rank(max: nat, ph: Phase): nat {
    match ph
    case Delay => 2 * max + 1
    case InFlight(n) => if n <= max then 2 * (max - n) + 2 else 2
    case Backoff(n, _) => if n <= max then 2 * (max - n) + 1 else 2
    case Settled => 1
  }

  /** Steps left, at most, until the queued job of entry `e` is out of the way. */
  ghost function Left1(s: State, e: Entry): nat {
    var k := Key(e.gen, e.job.conv);
    if k in s.runs && s.runs[k].job.id == e.job.id then
      if e.gen == s.Gen() then Rank(s.cfg.MaxAttempts(), s.runs[k].phase)
      else if s.runs[k].phase.Settled? then 1 else 2
    else if e.gen == s.Gen() && e.job in s.Queue(e.job.conv) then 2 * s.cfg.MaxAttempts() + 2
    else 0
  }

  ghost function WorkIn(s: State, es: seq<Entry>): nat {
    if es == [] then 0 else WorkIn(s, es[..|es| - 1]) + Left1(s, es[|es| - 1])
  }

  ghost function Work(s: State): nat { WorkIn(s, s.pushed) }

  lemma {:induction false} WorkDrops(s: State, t: State, es: seq<Entry>)
    requires forall i | 0 <= i < |es| :: Left1(t, es[i]) <= Left1(s, es[i])
    ensures WorkIn(t, es) <= WorkIn(s, es)
    ensures (exists i :: 0 <= i < |es| && Left1(t, es[i]) < Left1(s, es[i])) ==> WorkIn(t, es) < WorkIn(s, es)
  {
    if es != [] {
      var init := es[..|es| - 1];
      WorkDrops(s, t, init);
      if i :| 0 <= i < |es| && Left1(t, es[i]) < Left1(s, es[i]) {
        if i < |init| { assert init[i] == es[i]; }
      }
    }
  }

  predicate Internal(step: Step) { step.Fire? || step.Respond? || step.Finally? }

  function KeyOf(step: Step): Key
    requires Internal(step)
  {
    match step case Fire(k, _) => k case Respond(k, _, _) => k case Finally(k) => k
  }

  /** The run `k` moves on to a phase with less left to do; nothing else changes. */
  lemma PhaseLowers(s: State, t: State, k: Key, e: Entry)
    requires k in s.runs && k in t.runs && t.Gen() == s.Gen() && t.queues == s.queues && t.cfg == s.cfg && k.gen <= s.Gen()
    requires t.runs == s.runs[k := t.runs[k]] && t.runs[k].job == s.runs[k].job && s.runs[k].job.conv == k.conv
    requires if k.gen == s.Gen() then Rank(s.cfg.MaxAttempts(), t.runs[k].phase) < Rank(s.cfg.MaxAttempts(), s.runs[k].phase)
             else t.runs[k].phase.Settled? && !s.runs[k].phase.Settled?
    ensures Left1(t, e) <= Left1(s, e)
    ensures e == Entry(k.gen, s.runs[k].job) ==> Left1(t, e) < Left1(s, e)
  {
    assert t.Queue(e.job.conv) == s.Queue(e.job.conv);
  }

  /** A run's attempt number is within bounds. */
  ghost predicate InBounds(s: State, k: Key)
    requires k in s.runs
  {
    && k.gen <= s.Gen() && s.runs[k].job.conv == k.conv
    && (s.runs[k].phase.InFlight? ==> s.runs[k].phase.n <= s.cfg.MaxAttempts())
    && (s.runs[k].phase.Backoff? ==> s.runs[k].phase.n < s.cfg.MaxAttempts())
  }

  lemma RunInBounds(s: State, k: Key)
    requires Base(s) && k in s.runs
    ensures InBounds(s, k)
  {
    assert RunFits(s, k);
  }

  lemma FireLowers(s: State, k: Key, now: int, e: Entry)
    requires CanFire(s, k, now) && InBounds(s, k)
    ensures Left1(Fired(s, k, now), e) <= Left1(s, e)
    ensures e == Entry(k.gen, s.runs[k].job) ==> Left1(Fired(s, k, now), e) < Left1(s, e)
  {
    PhaseLowers(s, Fired(s, k, now), k, e);
  }

  lemma RespondLowers(s: State, k: Key, reply: Reply, now: int, e: Entry)
    requires CanRespond(s, k, now) && InBounds(s, k)
    ensures Left1(Responded(s, k, reply, now), e) <= Left1(s, e)
    ensures e == Entry(k.gen, s.runs[k].job) ==> Left1(Responded(s, k, reply, now), e) < Left1(s, e)
  {
    PhaseLowers(s, Responded(s, k, reply, now), k, e);
  }

  /** Starting the head job of a queue lowers its share; other shares stay. */
  lemma AdmitsLowers(s: State, t: State, e: Entry)
    requires RunsOk(s) && Admits(s, t) && PushedOk(s) && e in s.pushed
    ensures Left1(t, e) <= Left1(s, e)
  {
    var k := Key(e.gen, e.job.conv);
    assert t.Queue(e.job.conv) == s.Queue(e.job.conv);
    if k.gen == s.Gen() && k.conv in t.running - s.running {
      assert k !in s.runs;
      var head := s.Queue(k.conv)[0];
      if head.id == e.job.id {
        SameEntry(s, Entry(s.Gen(), head), e);
      }
    }
  }

  lemma SameEntry(s: State, e: Entry, f: Entry)
    requires PushedOk(s) && e in s.pushed && f in s.pushed && e.gen == f.gen && e.job.id == f.job.id
    ensures e == f
  {
    var i :| 0 <= i < |s.pushed| && s.pushed[i] == e;
    var j :| 0 <= j < |s.pushed| && s.pushed[j] == f;
  }

  lemma {:induction false} PushedAscending(es: seq<Entry>, g: nat, c: nat)
    requires forall i, j | 0 <= i < j < |es| && es[i].gen == es[j].gen :: es[i].job.id < es[j].job.id
    ensures forall a, b | 0 <= a < b < |PushedOf(es, g, c)| :: PushedOf(es, g, c)[a].id < PushedOf(es, g, c)[b].id
    ensures forall a | 0 <= a < |PushedOf(es, g, c)| :: Entry(g, PushedOf(es, g, c)[a]) in es
  {
    if es != [] {
      var init := es[..|es| - 1];
      PushedAscending(init, g, c);
      var last := es[|es| - 1];
      forall a | 0 <= a < |PushedOf(init, g, c)| && last.gen == g ensures PushedOf(init, g, c)[a].id < last.job.id {
        assert Entry(g, PushedOf(init, g, c)[a]) in init;
      }
    }
  }

  /** A job is queued once. */
  lemma HeadGone(s: State, c: nat)
    requires PushedOk(s) && Remaining(s, c) && s.Queue(c) != []
    ensures s.Queue(c)[0] !in s.Queue(c)[1..]
  {
    PushedAscending(s.pushed, s.Gen(), c);
  }

  /** Freeing a run leaves the share of every entry of another conversation or generation. */
  lemma FreedOther(s: State, k: Key, e: Entry)
    requires k.gen == s.Gen() && Key(e.gen, e.job.conv) != k
    ensures Left1(Freed(s, k), e) == Left1(s, e)
  {
    assert e.gen == s.Gen() ==> Freed(s, k).Queue(e.job.conv) == s.Queue(e.job.conv);
  }

  lemma FreedSame(s: State, k: Key, e: Entry)
    requires k in s.runs && k.gen == s.Gen() && s.runs[k].phase.Settled? && Key(e.gen, e.job.conv) == k
    requires s.Queue(k.conv) != [] && s.Queue(k.conv)[0] == s.runs[k].job && s.Queue(k.conv)[0] !in s.Queue(k.conv)[1..]
    requires e.job.id == s.runs[k].job.id ==> e.job == s.runs[k].job
    ensures Left1(Freed(s, k), e) <= Left1(s, e)
    ensures e.job == s.runs[k].job ==> Left1(Freed(s, k), e) < Left1(s, e)
  {
    assert Freed(s, k).Queue(k.conv) == s.Queue(k.conv)[1..];
  }

  lemma FreedLowers(s: State, k: Key, e: Entry)
    requires Base(s) && k in s.runs && k.gen == s.Gen() && s.runs[k].phase.Settled? && e in s.pushed
    ensures Left1(Freed(s, k), e) <= Left1(s, e)
    ensures e == Entry(k.gen, s.runs[k].job) ==> Left1(Freed(s, k), e) < Left1(s, e)
  {
    assert k.conv in s.running && s.runs[k].job.conv == k.conv;
    if Key(e.gen, e.job.conv) == k {
      assert Remaining(s, k.conv);
      HeadGone(s, k.conv);
      if e.job.id == s.runs[k].job.id { SameEntry(s, e, Entry(k.gen, s.runs[k].job)); }
      FreedSame(s, k, e);
    } else {
      FreedOther(s, k, e);
    }
  }

  lemma WaitersSameWork(s: State, t: State, e: Entry)
    requires t == s.(idleWaiters := t.idleWaiters, resolved := t.resolved)
    ensures Left1(t, e) == Left1(s, e)
  {
    assert t.Queue(e.job.conv) == s.Queue(e.job.conv);
  }

  lemma StaleFinallyLowers(s: State, k: Key, e: Entry)
    requires k in s.runs && s.runs[k].phase.Settled? && k.gen < s.Gen() && s.runs[k].job.conv == k.conv
    ensures Left1(Finalized(s, k), e) <= Left1(s, e)
    ensures e == Entry(k.gen, s.runs[k].job) ==> Left1(Finalized(s, k), e) < Left1(s, e)
  {
    assert Finalized(s, k).Queue(e.job.conv) == s.Queue(e.job.conv);
  }

  lemma FinallyLowers(s: State, k: Key, e: Entry)
    requires Base(s) && k in s.runs && s.runs[k].phase.Settled? && e in s.pushed
    ensures Left1(Finalized(s, k), e) <= Left1(s, e)
    ensures e == Entry(k.gen, s.runs[k].job) ==> Left1(Finalized(s, k), e) < Left1(s, e)
  {
    if k.gen < s.Gen() {
      StaleFinallyLowers(s, k, e);
    } else {
      var t := Finalized(s, k);
      var t0 := t.(idleWaiters := s.idleWaiters, resolved := s.resolved);
      FreedScheduled(s, k);
      FreedLowers(s, k, e);
      FreedPushedOk(s, k);
      FinallyStructured(s, k);
      AdmitsLowers(Freed(s, k), t0, e);
      WaitersSameWork(t0, t, e);
    }
  }

  lemma StepLowers(s: State, step: Step, e: Entry)
    requires Base(s) && Enabled(s, step) && Internal(step) && e in s.pushed
    ensures Left1(Apply(s, step), e) <= Left1(s, e)
    ensures e == Entry(KeyOf(step).gen, s.runs[KeyOf(step)].job) ==> Left1(Apply(s, step), e) < Left1(s, e)
  {
    RunInBounds(s, KeyOf(step));
    match step
    case Fire(k, now) => FireLowers(s, k, now, e);
    case Respond(k, reply, now) => RespondLowers(s, k, reply, now, e);
    case Finally(k) => FinallyLowers(s, k, e);
  }

  lemma InternalKeepsPushed(s: State, step: Step)
    requires Structured(s) && Enabled(s, step) && Internal(step)
    ensures Apply(s, step).pushed == s.pushed
  {
    if step.Finally? && step.k.gen == s.Gen() { FinallyStructured(s, step.k); }
  }

  /** Every step of the dispatcher itself lowers the work left. */
  lemma InternalStepLowers(s: State, step: Step)
    requires Base(s) && Enabled(s, step) && Internal(step)
    ensures Work(Apply(s, step)) < Work(s)
  {
    var t, k := Apply(s, step), KeyOf(step);
    InternalKeepsPushed(s, step);
    forall i | 0 <= i < |s.pushed|
      ensures Left1(t, s.pushed[i]) <= Left1(s, s.pushed[i])
      ensures s.pushed[i] == Entry(k.gen, s.runs[k].job) ==> Left1(t, s.pushed[i]) < Left1(s, s.pushed[i])
    {
      StepLowers(s, step, s.pushed[i]);
    }
    assert Entry(k.gen, s.runs[k].job) in s.pushed;
    WorkDrops(s, t, s.pushed);
  }

  // ---- main results ----

  /** Only the dispatcher itself moves: timers, answers and `finally` callbacks. */
  ghost predicate LeftAlone(steps: seq<Step>) {
    forall i | 0 <= i < |steps| :: Internal(steps[i])
  }

  lemma BaseStep(s: State, step: Step)
    requires Base(s) && Enabled(s, step)
    ensures Base(Apply(s, step))
    ensures Internal(step) ==> Work(Apply(s, step)) < Work(s)
  {
    StepBase(s, step);
    if Internal(step) { InternalStepLowers(s, step); }
  }

  lemma {:induction false} RunIsShort(s: State, steps: seq<Step>)
    requires Base(s) && CanRun(s, steps) && LeftAlone(steps)
    ensures |steps| + Work(RunAll(s, steps)) <= Work(s)
    decreases |steps|
  {
    if steps != [] {
      assert Internal(steps[0]);
      BaseStep(s, steps[0]);
      assert LeftAlone(steps[1..]);
      RunIsShort(Apply(s, steps[0]), steps[1..]);
    }
  }

  /** Left alone, the dispatcher makes a bounded number of steps. */
  lemma DrainIsBounded(s: State, steps: seq<Step>)
    requires Reachable(s) && CanRun(s, steps) && LeftAlone(steps)
    ensures |steps| <= Work(s)
  {
    ReachableBase(s);
    RunIsShort(s, steps);
  }

  /** A suspended run can always go on, at some time. */
  lemma RunMoves(s: State, k: Key)
    requires k in s.runs
    ensures exists step :: Internal(step) && Enabled(s, step)
  {
    match s.runs[k].phase
    case Delay => assert Enabled(s, Fire(k, if s.clock >= s.runs[k].job.notBefore then s.clock else s.runs[k].job.notBefore));
    case InFlight(n) => assert Enabled(s, Respond(k, Status(200), s.clock));
    case Backoff(n, until) => assert Enabled(s, Fire(k, if s.clock >= until then s.clock else until));
    case Settled => assert Enabled(s, Finally(k));
  }

  lemma NothingQueued(s: State)
    requires Structured(s) && s.runs == map[]
    ensures forall c: nat :: s.Queue(c) == []
    ensures s.running == {} && s.waiting == [] && s.idleWaiters == []
  {
    assert forall c: nat :: Key(s.Gen(), c) !in s.runs;
    assert s.running == {};
    assert s.waiting == [];
    forall c: nat ensures s.Queue(c) == [] {}
    forall c | c in s.queues ensures s.queues[c] == [] { assert s.Queue(c) == []; }
  }

  /** Every job queued for the conversation in the current generation has had its complete block of attempts. */
  ghost predicate AllServed(s: State, c: nat) {
    exists blocks :: |blocks| == |PushedOf(s.pushed, s.Gen(), c)|
      && ServedBy(s.cfg, s.Gen(), PushedOf(s.pushed, s.Gen(), c), TraceOf(s.trace, s.Gen(), c), blocks, [], None)
  }

  lemma EmptyIsServed(s: State, c: nat)
    requires Base(s) && s.runs == map[] && s.Queue(c) == []
    ensures AllServed(s, c)
  {
    assert Remaining(s, c);
    var blocks := ScanIsServed(s.cfg, s.Gen(), Jobs(s, s.Gen(), c), TraceOf(s.trace, s.Gen(), c));
  }

  /** Nothing is left to do: every queue is empty, every job was served to its end, and nobody waits for that. */
  ghost predicate Drained(s: State) {
    && s.runs == map[] && s.running == {} && s.waiting == [] && s.idleWaiters == []
    && (forall c: nat :: s.Queue(c) == [] && AllServed(s, c))
  }

  lemma NoRunIsDrained(s: State)
    requires Base(s) && s.runs == map[]
    ensures Drained(s)
  {
    NothingQueued(s);
    forall c: nat ensures AllServed(s, c) { EmptyIsServed(s, c); }
  }

  /** It never gets stuck: while a run is left some step is possible, and when none is left everything is done. */
  lemma DrainCompletes(s: State)
    requires Reachable(s)
    ensures s.runs != map[] ==> exists step :: Internal(step) && Enabled(s, step)
    ensures s.runs == map[] ==> Drained(s)
  {
    ReachableBase(s);
    if s.runs != map[] {
      var k :| k in s.runs;
      RunMoves(s, k);
    } else {
      NoRunIsDrained(s);
    }
  }

  lemma RunOn(s: State, step: Step, steps: seq<Step>)
    requires Enabled(s, step) && Internal(step) && CanRun(Apply(s, step), steps) && LeftAlone(steps)
    ensures CanRun(s, [step] + steps) && LeftAlone([step] + steps) && RunAll(s, [step] + steps) == RunAll(Apply(s, step), steps)
  {
    assert ([step] + steps)[1..] == steps;
  }

  lemma {:induction false} RunDry(s: State) returns (steps: seq<Step>)
    requires Base(s)
    ensures CanRun(s, steps) && LeftAlone(steps) && Base(RunAll(s, steps)) && RunAll(s, steps).runs == map[]
    decreases Work(s)
  {
    if s.runs == map[] {
      steps := [];
    } else {
      var k :| k in s.runs;
      RunMoves(s, k);
      var step :| Internal(step) && Enabled(s, step);
      BaseStep(s, step);
      var rest := RunDry(Apply(s, step));
      RunOn(s, step, rest);
      steps := [step] + rest;
    }
  }

  /** Whatever happened before, a dispatcher left alone gets everything done, within the bound. */
  lemma DrainEnds(s: State) returns (steps: seq<Step>)
    requires Reachable(s)
    ensures CanRun(s, steps) && LeftAlone(steps) && |steps| <= Work(s) && Drained(RunAll(s, steps))
  {
    ReachableBase(s);
    steps := RunDry(s);
    RunIsShort(s, steps);
    NoRunIsDrained(RunAll(s, steps));
  }

  lemma NothingPending(s: State, i: nat)
    requires StoreOk(s) && i < |s.rows.jobs| && s.Queue(s.rows.jobs[i].conv) == []
    ensures !s.rows.jobs[i].state.Pending?
  {
    var c := s.rows.jobs[i].conv;
    PendingOfRows(s.rows.jobs, c);
    assert Active(s, c) == [];
    assert Core(s.rows.jobs[i]) !in PendingOf(s.rows.jobs, c);
  }

  /** Where cancelled rows are deleted, every row has then ended `ok` or `failed`. */
  lemma DrainedRows(s: State, i: nat)
    requires TidyReachable(s) && s.runs == map[] && i < |s.rows.jobs|
    ensures !s.rows.jobs[i].state.Pending?
  {
    TidyInv(s);
    NothingQueued(s);
    NothingPending(s, i);
  }
}
