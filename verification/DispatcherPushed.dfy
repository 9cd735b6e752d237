/** What was queued: every run and every queued job is on record, and an old run shares no job with the current generation. */
module DispatcherPushed {
  import opened Prelude
  import opened JobStore
  import opened Dispatcher
  import opened DispatcherSlots
  import opened DispatcherStore

  /** Queued jobs are told apart by generation and id, and every run works on one of them. */
  ghost predicate PushedOk(s: State) {
    && (forall i | 0 <= i < |s.pushed| :: s.pushed[i].job.id < s.rows.nextId && s.pushed[i].gen <= s.Gen())
    && (forall i, j | 0 <= i < j < |s.pushed| && s.pushed[i].gen == s.pushed[j].gen :: s.pushed[i].job.id < s.pushed[j].job.id)
    && (forall k | k in s.runs :: Entry(k.gen, s.runs[k].job) in s.pushed)
    && (forall c: nat, i | 0 <= i < |s.Queue(c)| :: Entry(s.Gen(), s.Queue(c)[i]) in s.pushed)
  }

  /** No job queued in the current generation is the job of a run of an older one. */
  ghost predicate Apart(s: State) {
    forall k, i | k in s.runs && k.gen < s.Gen() && 0 <= i < |s.pushed| && s.pushed[i].gen == s.Gen() ::
      s.pushed[i].job.id != s.runs[k].job.id
  }

  lemma FreedPushedOk(s: State, k: Key)
    requires Structured(s) && PushedOk(s) && k in s.runs && k.gen == s.Gen()
    ensures PushedOk(Freed(s, k))
  {
    assert k.conv in s.running;
    forall c: nat, i: nat | i < |Freed(s, k).Queue(c)| ensures Entry(s.Gen(), Freed(s, k).Queue(c)[i]) in s.pushed { FreedEntry(s, k, c, i); }
  }

  lemma FreedEntry(s: State, k: Key, c: nat, i: nat)
    requires k.gen == s.Gen() && s.Queue(k.conv) != [] && i < |Freed(s, k).Queue(c)|
    requires forall j | 0 <= j < |s.Queue(c)| :: Entry(s.Gen(), s.Queue(c)[j]) in s.pushed
    ensures Entry(s.Gen(), Freed(s, k).Queue(c)[i]) in s.pushed
  {
    if c == k.conv { assert Freed(s, k).Queue(c) == s.Queue(c)[1..]; } else { assert Freed(s, k).Queue(c) == s.Queue(c); }
  }

  lemma AdmitsPushedOk(s: State, t: State)
    requires PushedOk(s) && Admits(s, t)
    ensures PushedOk(t)
  {
    forall c: nat ensures t.Queue(c) == s.Queue(c) {}
    forall k | k in t.runs ensures Entry(k.gen, t.runs[k].job) in t.pushed {
      if k.gen == s.Gen() && k.conv in t.running - s.running {
        assert Entry(s.Gen(), s.Queue(k.conv)[0]) in s.pushed;
      }
    }
  }

  lemma QueuedPushedOk(s: State, job: Job)
    requires RunsOk(s) && PushedOk(s) && job.id < s.rows.nextId
    requires forall i | 0 <= i < |s.pushed| && s.pushed[i].gen == s.Gen() :: s.pushed[i].job.id < job.id
    ensures PushedOk(Queued(s, job))
  {
    var t := Queued(s, job);
    QueuedRunsOk(s, job);
    assert t.pushed[|s.pushed|] == Entry(s.Gen(), job);
    forall e | e in s.pushed ensures e in t.pushed {}
    forall c: nat, i | 0 <= i < |t.Queue(c)| ensures Entry(t.Gen(), t.Queue(c)[i]) in t.pushed {
      if c == job.conv {
        if i < |s.Queue(c)| { assert t.Queue(c)[i] == s.Queue(c)[i]; } else { assert t.Queue(c)[i] == job; }
      } else {
        assert t.Queue(c) == s.Queue(c);
      }
    }
  }

  lemma PushPushedOk(s: State, job: Job)
    requires RunsOk(s) && PushedOk(s) && job.id < s.rows.nextId
    requires forall i | 0 <= i < |s.pushed| && s.pushed[i].gen == s.Gen() :: s.pushed[i].job.id < job.id
    ensures PushedOk(Push(s, job)) && Push(s, job).pushed == s.pushed + [Entry(s.Gen(), job)]
  {
    QueuedPushedOk(s, job);
    PumpAdmits(Queued(s, job), job.conv);
    AdmitsPushedOk(Queued(s, job), Push(s, job));
  }

  lemma {:induction false} AllPendingRows(jobs: seq<Job>)
    requires Ascending(jobs)
    ensures Ascending(AllPending(jobs)) && forall j | j in AllPending(jobs) :: j in jobs
  {
    if jobs != [] {
      var init, last := jobs[..|jobs| - 1], jobs[|jobs| - 1];
      AllPendingRows(init);
      forall a | 0 <= a < |AllPending(init)| ensures AllPending(init)[a].id < last.id {
        assert AllPending(init)[a] in init;
      }
    }
  }

  /** No job queued in this generation has a higher id. */
  ghost predicate NoneAbove(s: State, id: int) {
    forall i | 0 <= i < |s.pushed| && s.pushed[i].gen == s.Gen() :: s.pushed[i].job.id <= id
  }

  lemma PushNext(s: State, job: Job, id: int)
    requires Structured(s) && PushedOk(s) && NoneAbove(s, id) && id < job.id < s.rows.nextId
    ensures PushedOk(Push(s, job)) && NoneAbove(Push(s, job), job.id)
  {
    PushPushedOk(s, job);
    PumpAdmits(Queued(s, job), job.conv);
  }

  lemma PushAllFacts(s: State, jobs: seq<Job>)
    requires Structured(s) && s.runs == map[] && s.queues == map[]
    ensures Structured(PushAll(s, jobs)) && PushAll(s, jobs).rows == s.rows && PushAll(s, jobs).Gen() == s.Gen()
  {
    PushAllSlots(s, jobs);
    PushAllCfg(s, jobs);
    PushAllQueues(s, jobs, 0);
  }

  lemma PushAllLast(s: State, jobs: seq<Job>)
    requires jobs != []
    ensures PushAll(s, jobs) == Push(PushAll(s, jobs[..|jobs| - 1]), Core(jobs[|jobs| - 1]))
  {}

  function LastId(jobs: seq<Job>): int { if jobs == [] then -1 else jobs[|jobs| - 1].id }

  lemma {:induction false} PushAllPushedOk(s: State, jobs: seq<Job>)
    requires Structured(s) && PushedOk(s) && Ascending(jobs) && s.runs == map[] && s.queues == map[]
    requires forall i | 0 <= i < |jobs| :: jobs[i].id < s.rows.nextId
    requires forall i | 0 <= i < |s.pushed| :: s.pushed[i].gen < s.Gen()
    ensures PushedOk(PushAll(s, jobs)) && NoneAbove(PushAll(s, jobs), LastId(jobs))
  {
    if jobs != [] {
      var init, last := jobs[..|jobs| - 1], jobs[|jobs| - 1];
      assert LastId(init) < last.id < s.rows.nextId;
      PushAllPushedOk(s, init);
      PushAllFacts(s, init);
      PushNext(PushAll(s, init), Core(last), LastId(init));
      PushAllLast(s, jobs);
    }
  }

  lemma RestartPushedOk(s: State)
    requires Structured(s) && RowsOk(s.rows) && PushedOk(s)
    ensures PushedOk(Resumed(Rebooted(s)))
  {
    var b := Rebooted(s);
    assert forall c: nat :: b.Queue(c) == [];
    assert Structured(b);
    AllPendingRows(s.rows.jobs);
    var jobs := AllPending(b.rows.jobs);
    forall i | 0 <= i < |jobs| ensures jobs[i].id < b.rows.nextId { assert jobs[i] in s.rows.jobs; }
    PushAllPushedOk(b, jobs);
  }

  lemma PhasePushedOk(s: State, t: State, k: Key)
    requires PushedOk(s) && k in s.runs && k in t.runs && t.runs == s.runs[k := t.runs[k]] && t.runs[k].job == s.runs[k].job
    requires t.Gen() == s.Gen() && t.queues == s.queues && t.pushed == s.pushed && t.rows.nextId == s.rows.nextId
    ensures PushedOk(t)
  {
    assert forall c: nat :: t.Queue(c) == s.Queue(c);
  }

  lemma FirePushedOk(s: State, k: Key, now: int)
    requires PushedOk(s) && CanFire(s, k, now)
    ensures PushedOk(Fired(s, k, now))
  {
    PhasePushedOk(s, Fired(s, k, now), k);
  }

  lemma RespondPushedOk(s: State, k: Key, reply: Reply, now: int)
    requires PushedOk(s) && CanRespond(s, k, now)
    ensures PushedOk(Responded(s, k, reply, now))
  {
    PhasePushedOk(s, Responded(s, k, reply, now), k);
  }

  lemma WaitersPushedOk(s: State, t: State)
    requires PushedOk(s) && t == s.(idleWaiters := t.idleWaiters, resolved := t.resolved)
    ensures PushedOk(t)
  {
    assert forall c: nat :: t.Queue(c) == s.Queue(c);
  }

  lemma FinallyPushedOk(s: State, k: Key)
    requires Structured(s) && PushedOk(s) && k in s.runs
    ensures PushedOk(Finalized(s, k))
  {
    var t := Finalized(s, k);
    if k.gen < s.Gen() {
      assert forall c: nat :: t.Queue(c) == s.Queue(c);
    } else {
      FreedPushedOk(s, k);
      FinallyStructured(s, k);
      var t0 := t.(idleWaiters := s.idleWaiters, resolved := s.resolved);
      AdmitsPushedOk(Freed(s, k), t0);
      WaitersPushedOk(t0, t);
    }
  }

  lemma ResetPushedOk(s: State)
    requires Structured(s) && PushedOk(s)
    ensures PushedOk(WasReset(s)) && PushedOk(CancelledAll(s))
  {
    assert forall c: nat :: WasReset(s).Queue(c) == [] && CancelledAll(s).Queue(c) == [];
  }

  lemma EnqueuePushedOk(s: State, r: Request, now: int)
    requires Structured(s) && PushedOk(s)
    ensures PushedOk(Enqueued(s, r, now))
  {
    var s1 := s.(rows := Inserted(s.rows, r, now), clock := now);
    assert forall c: nat :: s1.Queue(c) == s.Queue(c);
    PushPushedOk(s1, NewJob(r, s.rows.nextId, now));
  }

  lemma StepPushedOk(s: State, step: Step)
    requires Structured(s) && RowsOk(s.rows) && PushedOk(s) && Enabled(s, step)
    ensures PushedOk(Apply(s, step))
  {
    match step
    case Enqueue(r, now) => EnqueuePushedOk(s, r, now);
    case Fire(k, now) => FirePushedOk(s, k, now);
    case Respond(k, reply, now) => RespondPushedOk(s, k, reply, now);
    case Finally(k) => FinallyPushedOk(s, k);
    case Cancel => ResetPushedOk(s);
    case Reset => ResetPushedOk(s);
    case Restart => RestartPushedOk(s);
    case AwaitIdle(w) => WaitersPushedOk(s, AwaitedIdle(s, w));
  }

  // ---- ids are never shared across generations ----

  lemma RunOnRecord(s: State, k: Key) returns (i: nat)
    requires PushedOk(s) && k in s.runs
    ensures i < |s.pushed| && s.pushed[i] == Entry(k.gen, s.runs[k].job) && s.runs[k].job.id < s.rows.nextId
  {
    i :| 0 <= i < |s.pushed| && s.pushed[i] == Entry(k.gen, s.runs[k].job);
  }

  /** The same jobs on record, no new old run. */
  lemma KeptApart(s: State, t: State)
    requires Apart(s) && t.pushed == s.pushed && t.Gen() == s.Gen()
    requires forall k | k in t.runs && k.gen < s.Gen() :: k in s.runs && t.runs[k].job == s.runs[k].job
    ensures Apart(t)
  {}

  lemma EnqueueApart(s: State, r: Request, now: int)
    requires Structured(s) && PushedOk(s) && Apart(s)
    ensures Apart(Enqueued(s, r, now))
  {
    var job := NewJob(r, s.rows.nextId, now);
    var q := Queued(s.(rows := Inserted(s.rows, r, now), clock := now), job);
    forall k | k in s.runs ensures s.runs[k].job.id < job.id { var i := RunOnRecord(s, k); }
    assert Apart(q);
    PumpAdmits(q, r.conv);
    KeptApart(q, Enqueued(s, r, now));
  }

  lemma FinallyRecord(s: State, k: Key)
    requires Structured(s) && k in s.runs
    ensures var t := Finalized(s, k);
            && t.pushed == s.pushed && t.Gen() == s.Gen()
            && forall x | x in t.runs && x.gen < s.Gen() :: x in s.runs && t.runs[x] == s.runs[x]
  {
    if k.gen == s.Gen() { FinallyStructured(s, k); }
  }

  lemma FinallyApart(s: State, k: Key)
    requires Structured(s) && Apart(s) && k in s.runs
    ensures Apart(Finalized(s, k))
  {
    FinallyRecord(s, k);
    KeptApart(s, Finalized(s, k));
  }

  /** In a new generation nothing is on record yet. */
  lemma FreshApart(s: State, t: State)
    requires PushedOk(s) && t.pushed == s.pushed && t.Gen() == s.Gen() + 1
    ensures Apart(t)
  {}

  lemma FireApart(s: State, k: Key, now: int)
    requires Apart(s) && CanFire(s, k, now)
    ensures Apart(Fired(s, k, now))
  {
    KeptApart(s, Fired(s, k, now));
  }

  lemma RespondApart(s: State, k: Key, reply: Reply, now: int)
    requires Apart(s) && CanRespond(s, k, now)
    ensures Apart(Responded(s, k, reply, now))
  {
    KeptApart(s, Responded(s, k, reply, now));
  }

  lemma AwaitApart(s: State, w: nat)
    requires Apart(s)
    ensures Apart(AwaitedIdle(s, w))
  {
    KeptApart(s, AwaitedIdle(s, w));
  }

  lemma StepApart(s: State, step: Step)
    requires Structured(s) && PushedOk(s) && Apart(s) && Enabled(s, step)
    ensures Apart(Apply(s, step))
  {
    match step
    case Enqueue(r, now) => EnqueueApart(s, r, now);
    case Fire(k, now) => FireApart(s, k, now);
    case Respond(k, reply, now) => RespondApart(s, k, reply, now);
    case Finally(k) => FinallyApart(s, k);
    case Cancel => FreshApart(s, CancelledAll(s));
    case Reset => FreshApart(s, WasReset(s));
    case Restart => ResumeQueues(s, 0);
    case AwaitIdle(w) => AwaitApart(s, w);
  }
}
