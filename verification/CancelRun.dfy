/** A run in which the rows of cancelled jobs are kept: after a restart an older job is sent behind a newer one. */
module CancelRun {
  import opened Prelude
  import opened JobStore
  import opened Dispatcher
  import opened DispatcherSlots
  import opened DispatcherStore
  import opened DispatcherOrder
  import opened DispatcherRuns

  const CFG := Config([], 1)
  const ASK := Request(7, "w", Sent, Payload("B", "C", "", 0), 0)

  lemma NextReachable(s: State, step: Step)
    requires Reachable(s) && Enabled(s, step)
    ensures Reachable(Apply(s, step))
  {
    var cfg: Config, clock: int, steps: seq<Step> :|
      cfg.Ok() && CanRun(Initial(cfg, EmptyRows, clock), steps) && s == RunAll(Initial(cfg, EmptyRows, clock), steps);
    RunSnoc(Initial(cfg, EmptyRows, clock), steps, step);
  }

  lemma {:induction false} RunSnoc(s: State, steps: seq<Step>, step: Step)
    requires CanRun(s, steps) && Enabled(RunAll(s, steps), step)
    ensures CanRun(s, steps + [step]) && RunAll(s, steps + [step]) == Apply(RunAll(s, steps), step)
    decreases |steps|
  {
    if steps == [] {
      assert [step][1..] == [] && [] + [step] == [step];
      assert CanRun(Apply(s, step), []);
    } else {
      assert (steps + [step])[1..] == steps[1..] + [step];
      RunSnoc(Apply(s, steps[0]), steps[1..], step);
    }
  }

  /** Two unfinished rows of one conversation; only the newer job is queued, and its attempt has begun. */
  ghost predicate NewerSent(s: State) {
    && s.cfg == CFG && s.clock == 0 && |s.trace| == 1 && s.trace[0].Begin? && s.trace[0].job.id == 2 && s.trace[0].job.conv == 7
    && |s.rows.jobs| == 2 && OldRow(s.rows.jobs[0], 1) && OldRow(s.rows.jobs[1], 2)
  }

  predicate OldRow(j: Job, id: nat) { j.id == id && j.conv == 7 && j.state.Pending? }

  /** A fresh job on a dispatcher with nothing queued starts at once. */
  lemma EnqueueStarts(s: State)
    requires s.cfg == CFG && s.clock == 0 && s.queues == map[] && s.running == {}
    ensures var t, job := Enqueued(s, ASK, 0), NewJob(ASK, s.rows.nextId, 0);
            && t.cfg == CFG && t.clock == 0 && t.trace == s.trace && t.Gen() == s.Gen() && t.rows == Inserted(s.rows, ASK, 0)
            && Key(s.Gen(), 7) in t.runs && t.runs[Key(s.Gen(), 7)] == Run(job, Delay)
  {
    assert [NewJob(ASK, s.rows.nextId, 0)][0] == NewJob(ASK, s.rows.nextId, 0);
  }

  /** A job was queued and cancelled, its row kept. */
  ghost predicate Kept(s: State) {
    && s.cfg == CFG && s.clock == 0 && s.trace == [] && s.queues == map[] && s.running == {}
    && |s.rows.jobs| == 1 && OldRow(s.rows.jobs[0], 1) && s.rows.nextId == 2
  }

  lemma CancelOlder() returns (s: State)
    ensures Reachable(s) && Kept(s)
  {
    var s0 := Initial(CFG, EmptyRows, 0);
    assert CanRun(s0, []) && RunAll(s0, []) == s0;
    NextReachable(s0, Enqueue(ASK, 0));
    EnqueueStarts(s0);
    NextReachable(Enqueued(s0, ASK, 0), Cancel);
    s := CancelledAll(Enqueued(s0, ASK, 0));
  }

  lemma SendNewer() returns (s: State)
    ensures Reachable(s) && NewerSent(s)
  {
    var s2 := CancelOlder();
    NextReachable(s2, Enqueue(ASK, 0));
    EnqueueStarts(s2);
    var s3 := Enqueued(s2, ASK, 0);
    NextReachable(s3, Fire(Key(s3.Gen(), 7), 0));
    s := Fired(s3, Key(s3.Gen(), 7), 0);
  }

  lemma BothPending(jobs: seq<Job>)
    requires |jobs| == 2 && OldRow(jobs[0], 1) && OldRow(jobs[1], 2)
    ensures PendingOf(jobs, 7) == [Core(jobs[0]), Core(jobs[1])]
  {
    assert jobs[..1][..0] == [] && jobs[..1][0] == jobs[0];
    assert PendingOf(jobs[..1], 7) == [Core(jobs[0])];
  }

  /** The restart queues both, the older one first, and its run is about to start. */
  lemma OlderComesBack(s: State)
    requires Structured(s) && NewerSent(s)
    ensures var t := Resumed(Rebooted(s));
            && t.trace == s.trace && t.clock == 0 && Key(t.Gen(), 7) in t.runs
            && t.runs[Key(t.Gen(), 7)].phase.Delay? && t.runs[Key(t.Gen(), 7)].job == Core(s.rows.jobs[0])
  {
    var t := Resumed(Rebooted(s));
    ResumeQueues(s, 7);
    BothPending(s.rows.jobs);
    RestartStructured(s);
    OnlyWork(s, t);
  }

  /** The one conversation with work has the one slot. */
  lemma OnlyWork(s: State, t: State)
    requires NewerSent(s) && t == Resumed(Rebooted(s)) && Structured(t) && t.Queue(7) != [] && t.cfg == CFG
    ensures 7 in t.running
  {
    forall c: nat | c != 7 ensures t.Queue(c) == [] {
      ResumeQueues(s, c);
      PendingOfRows(s.rows.jobs, c);
      NoneElsewhere(s.rows.jobs, c);
    }
    if t.waiting != [] {
      assert t.running != {};
      var c :| c in t.running;
      assert t.Queue(c) != [];
    }
  }

  lemma NoneElsewhere(jobs: seq<Job>, c: nat)
    requires |jobs| == 2 && OldRow(jobs[0], 1) && OldRow(jobs[1], 2) && c != 7
    ensures PendingOf(jobs, c) == []
  {
    assert jobs[..1][..0] == [] && jobs[..1][0] == jobs[0];
    assert PendingOf(jobs[..1], c) == [];
  }

  /** Such a run exists: the order by job id fails once cancelled rows are kept across a restart. */
  lemma KeptRowsBreakOrder() returns (s: State)
    ensures Reachable(s) && !InIdOrder(s.trace)
  {
    var s4 := SendNewer();
    ReachableBase(s4);
    NextReachable(s4, Restart);
    OlderComesBack(s4);
    var s5 := Resumed(Rebooted(s4));
    NextReachable(s5, Fire(Key(s5.Gen(), 7), 0));
    s := Fired(s5, Key(s5.Gen(), 7), 0);
    assert s.trace[0].job.id == 2 && s.trace[1].job.id == 1 && s.trace[1].job.conv == 7;
  }
}
