/** Crash safety: the queues in memory are the unfinished rows, conversation by conversation. */
module DispatcherStore {
  import opened Prelude
  import opened JobStore
  import opened Dispatcher
  import opened DispatcherSlots

  /** Where the current run of a conversation stands; a conversation without one is about to start. */
  function PhaseOf(s: State, c: nat): Phase {
    var k := Key(s.Gen(), c);
    if k in s.runs then s.runs[k].phase else Delay
  }

  /** The unfinished part of a queue: a settled run has finished its job but not shifted it yet. */
  function Active(s: State, c: nat): seq<Job> {
    if PhaseOf(s, c).Settled? && s.Queue(c) != [] then s.Queue(c)[1..] else s.Queue(c)
  }

  ghost predicate Absent(jobs: seq<Job>, id: nat) {
    forall i | 0 <= i < |jobs| :: jobs[i].id != id
  }

  /** Each queue equals the store's unfinished rows of that conversation, in id order. */
  ghost predicate StoreOk(s: State) {
    && RowsOk(s.rows)
    && (forall c: nat :: Cores(Active(s, c)) == PendingOf(s.rows.jobs, c))
    && (forall k | k in s.runs :: s.runs[k].job.id < s.rows.nextId)
    && (forall k | k in s.runs && k.gen < s.Gen() :: Absent(s.rows.jobs, s.runs[k].job.id))
  }

  lemma AdmitsKeepsPhases(s: State, t: State, c: nat)
    requires RunsOk(s) && Admits(s, t)
    ensures PhaseOf(t, c) == PhaseOf(s, c) && Active(t, c) == Active(s, c) && t.Queue(c) == s.Queue(c)
  {
    var k := Key(s.Gen(), c);
    if c in t.running - s.running { assert k !in s.runs; }
  }

  lemma HeadRow(s: State, c: nat) returns (i: nat)
    requires StoreOk(s) && Active(s, c) != []
    ensures i < |s.rows.jobs| && s.rows.jobs[i].state.Pending? && s.rows.jobs[i].conv == c
    ensures Core(s.rows.jobs[i]) == Core(Active(s, c)[0]) && s.rows.jobs[i].id == Active(s, c)[0].id
  {
    PendingOfRows(s.rows.jobs, c);
    var p := PendingOf(s.rows.jobs, c);
    assert p[0] == Core(Active(s, c)[0]) && p[0] in p;
    i :| 0 <= i < |s.rows.jobs| && s.rows.jobs[i].state.Pending? && s.rows.jobs[i].conv == c && Core(s.rows.jobs[i]) == p[0];
  }

  lemma AdmitsStoreOk(s: State, t: State)
    requires RunsOk(s) && StoreOk(s) && Admits(s, t)
    ensures StoreOk(t)
  {
    forall c: nat ensures Cores(Active(t, c)) == PendingOf(t.rows.jobs, c) { AdmitsKeepsPhases(s, t, c); }
    forall k | k in t.runs ensures t.runs[k].job.id < t.rows.nextId {
      if k.gen == s.Gen() && k.conv in t.running - s.running {
        assert k !in s.runs;
        var i := HeadRow(s, k.conv);
      }
    }
  }

  lemma CoresAppend(q: seq<Job>, j: Job)
    ensures Cores(q + [j]) == Cores(q) + [Core(j)]
  {}

  lemma QueuedActive(s: State, job: Job, c: nat)
    requires RunsOk(s)
    ensures PhaseOf(Queued(s, job), c) == PhaseOf(s, c)
    ensures Active(Queued(s, job), c) == Active(s, c) + if c == job.conv then [job] else []
  {
    if PhaseOf(s, c).Settled? { assert c in s.running; }
    if c != job.conv { assert Queued(s, job).Queue(c) == s.Queue(c); }
  }

  lemma InsertedOk(rows: Rows, r: Request, now: int)
    requires RowsOk(rows)
    ensures RowsOk(Inserted(rows, r, now))
  {}

  lemma QueuedPending(s: State, r: Request, now: int, c: nat)
    requires RunsOk(s) && Cores(Active(s, c)) == PendingOf(s.rows.jobs, c)
    ensures var t := Queued(s.(rows := Inserted(s.rows, r, now), clock := now), NewJob(r, s.rows.nextId, now));
            Cores(Active(t, c)) == PendingOf(t.rows.jobs, c)
  {
    var job := NewJob(r, s.rows.nextId, now);
    var s1 := s.(rows := Inserted(s.rows, r, now), clock := now);
    SameRunsOk(s, s1);
    PendingOfAppend(s.rows.jobs, job, c);
    QueuedActive(s1, job, c);
    assert s1.Queue(c) == s.Queue(c) && PhaseOf(s1, c) == PhaseOf(s, c);
    CoresAppend(Active(s, c), job);
  }

  lemma SameRunsOk(s: State, t: State)
    requires RunsOk(s) && t == s.(rows := t.rows, clock := t.clock)
    ensures RunsOk(t)
  {
    assert forall d: nat :: t.Queue(d) == s.Queue(d);
  }

  lemma QueuedStoreOk(s: State, r: Request, now: int)
    requires RunsOk(s) && StoreOk(s)
    ensures StoreOk(Queued(s.(rows := Inserted(s.rows, r, now), clock := now), NewJob(r, s.rows.nextId, now)))
  {
    var t := Queued(s.(rows := Inserted(s.rows, r, now), clock := now), NewJob(r, s.rows.nextId, now));
    InsertedOk(s.rows, r, now);
    forall c: nat ensures Cores(Active(t, c)) == PendingOf(t.rows.jobs, c) { QueuedPending(s, r, now, c); }
    forall k | k in t.runs && k.gen < t.Gen() ensures Absent(t.rows.jobs, t.runs[k].job.id) { assert Absent(s.rows.jobs, s.runs[k].job.id); }
  }

  lemma EnqueueStoreOk(s: State, r: Request, now: int)
    requires Structured(s) && StoreOk(s)
    ensures StoreOk(Enqueued(s, r, now))
  {
    var job := NewJob(r, s.rows.nextId, now);
    var s1 := s.(rows := Inserted(s.rows, r, now), clock := now);
    QueuedStoreOk(s, r, now);
    assert forall d: nat :: s1.Queue(d) == s.Queue(d);
    QueuedRunsOk(s1, job);
    PumpAdmits(Queued(s1, job), r.conv);
    AdmitsStoreOk(Queued(s1, job), Enqueued(s, r, now));
  }

  lemma PhaseStoreOk(s: State, k: Key, ph: Phase, t: State)
    requires Structured(s) && StoreOk(s) && k in s.runs
    requires k.gen == s.Gen() ==> (ph.Settled? <==> s.runs[k].phase.Settled?)
    requires t == SetPhase(s, k, ph).(rows := s.rows.(attempts := t.rows.attempts), trace := t.trace, clock := t.clock)
    ensures StoreOk(t)
  {
    forall c: nat ensures Cores(Active(t, c)) == PendingOf(t.rows.jobs, c) {
      assert t.Queue(c) == s.Queue(c);
    }
  }

  lemma AbsentUnchanged(jobs: seq<Job>, id: nat, st: JobState, at: int)
    requires Absent(jobs, id)
    ensures FinishedJobs(jobs, id, st, at) == jobs
  {}

  ghost predicate Ascending(jobs: seq<Job>) {
    forall a, b | 0 <= a < b < |jobs| :: jobs[a].id < jobs[b].id
  }

  /** Finishing a job leaves the unfinished jobs of every other conversation alone. */
  lemma FinishOther(jobs: seq<Job>, i: nat, st: JobState, now: int, d: nat)
    requires Ascending(jobs) && i < |jobs| && jobs[i].conv != d && !st.Pending?
    ensures PendingOf(FinishedJobs(jobs, jobs[i].id, st, now), d) == PendingOf(jobs, d)
  {
    var id, p := jobs[i].id, PendingOf(jobs, d);
    PendingOfFinished(jobs, id, st, now, d);
    PendingOfRows(jobs, d);
    forall a | 0 <= a < |p| ensures p[a].id != id {
      assert p[a] in p;
      var b :| 0 <= b < |jobs| && jobs[b].state.Pending? && jobs[b].conv == d && Core(jobs[b]) == p[a];
      assert b != i;
      if b < i { assert jobs[b].id < jobs[i].id; } else { assert jobs[i].id < jobs[b].id; }
    }
    RemoveIdAbsent(p, id);
  }

  lemma FinishFirst(jobs: seq<Job>, st: JobState, now: int, c: nat)
    requires Ascending(jobs) && PendingOf(jobs, c) != [] && !st.Pending?
    ensures PendingOf(FinishedJobs(jobs, PendingOf(jobs, c)[0].id, st, now), c) == PendingOf(jobs, c)[1..]
  {
    var p := PendingOf(jobs, c);
    PendingOfFinished(jobs, p[0].id, st, now, c);
    PendingOfRows(jobs, c);
    RemoveIdHead(p);
  }

  /** The oldest unfinished job of a conversation: finishing it leaves the rest, and every other conversation. */
  lemma FinishHead(s: State, c: nat, st: JobState, now: int, d: nat)
    requires StoreOk(s) && Active(s, c) != [] && !st.Pending?
    ensures PendingOf(FinishedJobs(s.rows.jobs, Active(s, c)[0].id, st, now), d)
         == if d == c then PendingOf(s.rows.jobs, c)[1..] else PendingOf(s.rows.jobs, d)
  {
    var i := HeadRow(s, c);
    if d == c {
      assert PendingOf(s.rows.jobs, c)[0] == Core(Active(s, c)[0]);
      FinishFirst(s.rows.jobs, st, now, c);
    } else {
      FinishOther(s.rows.jobs, i, st, now, d);
    }
  }

  /** Finishing the job of a current run takes exactly the head off its unfinished queue. */
  lemma SettleStoreOk(s: State, k: Key, st: JobState, now: int, t: State)
    requires Structured(s) && StoreOk(s) && k in s.runs && k.gen == s.Gen() && !s.runs[k].phase.Settled?
    requires !st.Pending?
    requires t == SetPhase(s, k, Settled).(rows := Finished(s.rows, s.runs[k].job.id, st, now).(attempts := t.rows.attempts), trace := t.trace, clock := t.clock)
    ensures StoreOk(t)
  {
    assert k.conv in s.running;
    forall c: nat ensures Cores(Active(t, c)) == PendingOf(t.rows.jobs, c) {
      FinishHead(s, k.conv, st, now, c);
      SettledActive(s, k, t, c);
    }
    forall x | x in t.runs && x.gen < t.Gen() ensures Absent(t.rows.jobs, t.runs[x].job.id) { assert Absent(s.rows.jobs, s.runs[x].job.id); }
  }

  /** A run that settles takes the head off what is active. */
  lemma SettledActive(s: State, k: Key, t: State, c: nat)
    requires k in s.runs && k.gen == s.Gen() && !s.runs[k].phase.Settled? && s.Queue(k.conv) != []
    requires t == SetPhase(s, k, Settled).(rows := t.rows, trace := t.trace, clock := t.clock)
    ensures Active(t, c) == if c == k.conv then Active(s, c)[1..] else Active(s, c)
    ensures Cores(Active(s, k.conv)[1..]) == Cores(Active(s, k.conv))[1..]
  {
    assert t.Queue(c) == s.Queue(c);
  }

  lemma RespondStoreOk(s: State, k: Key, reply: Reply, now: int)
    requires Structured(s) && StoreOk(s) && CanRespond(s, k, now)
    ensures StoreOk(Responded(s, k, reply, now))
  {
    var t := Responded(s, k, reply, now);
    var id := s.runs[k].job.id;
    if k.gen < s.Gen() {
      AbsentUnchanged(s.rows.jobs, id, Succeeded, now);
      AbsentUnchanged(s.rows.jobs, id, Failed, now);
      PhaseStoreOk(s, k, Settled, t);
    } else if t.runs[k].phase.Settled? {
      SettleStoreOk(s, k, if StatusOf(reply) == Some(200) then Succeeded else Failed, now, t);
    } else {
      PhaseStoreOk(s, k, t.runs[k].phase, t);
    }
  }

  lemma SettledKeepsStore(s: State)
    requires StoreOk(s)
    ensures StoreOk(SettleIdle(s))
  {
    forall c: nat ensures Active(SettleIdle(s), c) == Active(s, c) {
      assert SettleIdle(s).Queue(c) == s.Queue(c);
    }
  }

  lemma SameQueuesStoreOk(s: State, t: State)
    requires StoreOk(s) && t.rows == s.rows && t.Gen() == s.Gen() && t.queues == s.queues
    requires forall k | k in t.runs :: k in s.runs && t.runs[k] == s.runs[k]
    requires forall c: nat | Key(s.Gen(), c) in s.runs :: Key(s.Gen(), c) in t.runs
    ensures StoreOk(t)
  {
    forall c: nat ensures Active(t, c) == Active(s, c) { assert t.Queue(c) == s.Queue(c); }
  }

  lemma FreedStoreOk(s: State, k: Key)
    requires Structured(s) && StoreOk(s) && k in s.runs && k.gen == s.Gen() && s.runs[k].phase.Settled?
    ensures StoreOk(Freed(s, k))
  {
    FreedScheduled(s, k);
    forall c: nat ensures Active(Freed(s, k), c) == Active(s, c) { FreedActive(s, k, c); }
    forall x | x in Freed(s, k).runs ensures x in s.runs && Freed(s, k).runs[x] == s.runs[x] {}
  }

  /** The shift removes just the job that is done. */
  lemma FreedActive(s: State, k: Key, c: nat)
    requires k in s.runs && k.gen == s.Gen() && s.runs[k].phase.Settled? && s.Queue(k.conv) != []
    ensures Active(Freed(s, k), c) == Active(s, c)
  {
    if c != k.conv { assert Freed(s, k).Queue(c) == s.Queue(c); } else { assert Freed(s, k).Queue(c) == s.Queue(c)[1..]; }
  }

  lemma FinallyStoreOk(s: State, k: Key)
    requires Structured(s) && StoreOk(s) && k in s.runs && s.runs[k].phase.Settled?
    ensures StoreOk(Finalized(s, k))
  {
    if k.gen < s.Gen() {
      var t := s.(runs := s.runs - {k}, past := s.past[k.gen := s.past[k.gen].(running := s.past[k.gen].running - {k.conv})]);
      SameQueuesStoreOk(s, t);
      SettledKeepsStore(t);
    } else {
      FreedScheduled(s, k);
      FreedStoreOk(s, k);
      FinallyStructured(s, k);
      var t := Finalized(s, k).(idleWaiters := s.idleWaiters, resolved := s.resolved);
      AdmitsStoreOk(Freed(s, k), t);
      SameQueuesStoreOk(t, Finalized(s, k));
    }
  }

  lemma CancelRunsAbsent(s: State)
    requires Structured(s) && StoreOk(s)
    ensures StoreOk(WasReset(s))
  {
    var t := WasReset(s);
    assert forall c: nat :: t.Queue(c) == [];
  }

  // ---- resume ----

  function OfConv(jobs: seq<Job>, c: nat): seq<Job> {
    if jobs == [] then [] else
      var j := jobs[|jobs| - 1];
      OfConv(jobs[..|jobs| - 1], c) + if j.conv == c then [Core(j)] else []
  }

  lemma {:induction false} PendingOfSplit(jobs: seq<Job>, c: nat)
    ensures PendingOf(jobs, c) == OfConv(AllPending(jobs), c)
  {
    if jobs != [] {
      var n := |jobs| - 1;
      PendingOfSplit(jobs[..n], c);
      var p := AllPending(jobs[..n]);
      assert (p + [jobs[n]])[..|p|] == p;
      assert p + [] == p;
    }
  }

  /** Everything but the scheduling state. */
  ghost predicate SameLedger(s: State, t: State) {
    && t.rows == s.rows && t.past == s.past && t.trace == s.trace && t.clock == s.clock && t.cfg == s.cfg
    && t.resolved == s.resolved && t.idleWaiters == s.idleWaiters
  }

  ghost predicate OnlyDelays(s: State) {
    forall k | k in s.runs :: s.runs[k].phase.Delay? && k.gen == s.Gen()
  }

  lemma PushOne(s: State, job: Job, c: nat)
    requires RunsOk(s) && OnlyDelays(s)
    ensures SameLedger(s, Push(s, job)) && OnlyDelays(Push(s, job))
    ensures Push(s, job).Queue(c) == s.Queue(c) + if c == job.conv then [job] else []
  {
    QueuedRunsOk(s, job);
    PumpAdmits(Queued(s, job), job.conv);
    assert Push(s, job).Queue(c) == Queued(s, job).Queue(c);
  }

  /** Resuming over `jobs`, nothing has started an attempt yet, and each queue is its share of `jobs`. */
  lemma {:induction false} PushAllQueues(s: State, jobs: seq<Job>, c: nat)
    requires Structured(s) && s.runs == map[] && s.queues == map[]
    ensures SameLedger(s, PushAll(s, jobs)) && OnlyDelays(PushAll(s, jobs))
    ensures PushAll(s, jobs).Queue(c) == OfConv(jobs, c)
  {
    if jobs != [] {
      var n := |jobs| - 1;
      PushAllQueues(s, jobs[..n], c);
      PushAllSlots(s, jobs[..n]);
      PushOne(PushAll(s, jobs[..n]), Core(jobs[n]), c);
    }
  }

  lemma {:induction false} OfConvCores(jobs: seq<Job>, c: nat)
    ensures Cores(OfConv(jobs, c)) == OfConv(jobs, c)
  {
    if jobs != [] {
      var n := |jobs| - 1;
      OfConvCores(jobs[..n], c);
      if jobs[n].conv == c { CoresAppend(OfConv(jobs[..n], c), Core(jobs[n])); }
      assert OfConv(jobs[..n], c) + [] == OfConv(jobs[..n], c);
    }
  }

  /** A restart rebuilds every queue from the rows alone. */
  lemma ResumeQueues(s: State, c: nat)
    requires s.cfg.Ok()
    ensures var t := Resumed(Rebooted(s));
            && t.Queue(c) == PendingOf(s.rows.jobs, c) && t.rows == s.rows && Active(t, c) == t.Queue(c)
            && t.trace == s.trace && t.Gen() == s.Gen() + 1 && t.clock == s.clock && t.cfg == s.cfg
            && (forall k | k in t.runs :: t.runs[k].phase.Delay? && k.gen == t.Gen())
  {
    var b := Rebooted(s);
    assert forall d: nat :: b.Queue(d) == [];
    assert Structured(b);
    PushAllQueues(b, AllPending(b.rows.jobs), c);
    PendingOfSplit(b.rows.jobs, c);
  }

  lemma RestartStoreOk(s: State)
    requires s.cfg.Ok() && RowsOk(s.rows)
    ensures StoreOk(Resumed(Rebooted(s)))
  {
    var t := Resumed(Rebooted(s));
    ResumeQueues(s, 0);
    forall c: nat ensures Cores(Active(t, c)) == PendingOf(t.rows.jobs, c) {
      ResumeQueues(s, c);
      PendingOfSplit(s.rows.jobs, c);
      OfConvCores(AllPending(s.rows.jobs), c);
    }
    RestartStructured(s);
    forall k | k in t.runs ensures t.runs[k].job.id < t.rows.nextId {
      ResumeQueues(s, k.conv);
      var p := PendingOf(s.rows.jobs, k.conv);
      assert k.conv in t.running;
      assert p[0] == t.runs[k].job && p[0] in p;
      PendingOfRows(s.rows.jobs, k.conv);
    }
  }

  lemma FireStoreOk(s: State, k: Key, now: int)
    requires Structured(s) && StoreOk(s) && CanFire(s, k, now)
    ensures StoreOk(Fired(s, k, now))
  {
    var t := Fired(s, k, now);
    PhaseStoreOk(s, k, t.runs[k].phase, t);
  }

  /** Every callback keeps queues and rows together, unless jobs are cancelled without deleting their rows. */
  lemma StepStoreOk(s: State, step: Step)
    requires Structured(s) && StoreOk(s) && Enabled(s, step) && !step.Cancel?
    ensures StoreOk(Apply(s, step))
  {
    match step
    case Enqueue(r, now) => EnqueueStoreOk(s, r, now);
    case Fire(k, now) => FireStoreOk(s, k, now);
    case Respond(k, reply, now) => RespondStoreOk(s, k, reply, now);
    case Finally(k) => FinallyStoreOk(s, k);
    case Reset => CancelRunsAbsent(s);
    case Restart => RestartStoreOk(s);
    case AwaitIdle(w) =>
      var t := s.(idleWaiters := s.idleWaiters + [w]);
      assert forall c: nat :: t.Queue(c) == s.Queue(c) && Active(t, c) == Active(s, c);
      SettledKeepsStore(t);
  }
}
