/** All runs of the dispatcher: any interleaving of requests, timers, answers, resets and restarts. */
module DispatcherRuns {
  import opened Prelude
  import opened JobStore
  import opened Dispatcher
  import opened DispatcherSlots
  import opened DispatcherStore
  import opened DispatcherPushed
  import opened DispatcherBlocks
  import opened DispatcherLedger
  import opened DispatcherOrder

  /** The clock never runs backwards. */
  ghost predicate TimesOk(s: State) {
    && (forall i | 0 <= i < |s.trace| :: s.trace[i].at <= s.clock)
    && (forall i, j | 0 <= i < j < |s.trace| :: s.trace[i].at <= s.trace[j].at)
  }

  /** What holds in every run. */
  ghost predicate Base(s: State) {
    Structured(s) && RowsOk(s.rows) && TraceOk(s) && TimesOk(s) && PushedOk(s) && Apart(s)
  }

  /** What holds besides while cancelled jobs have no rows: memory and rows agree, and order is by id. */
  ghost predicate Inv(s: State) {
    Base(s) && StoreOk(s) && OrderOk(s)
  }

  lemma InitialInv(cfg: Config, clock: int)
    requires cfg.Ok()
    ensures Inv(Initial(cfg, EmptyRows, clock))
  {
    var s := Initial(cfg, EmptyRows, clock);
    forall c: nat ensures s.Queue(c) == [] && Remaining(s, c) && Active(s, c) == [] {}
    forall g: nat, c: nat ensures Reads(s, g, c) {}
  }

  /** What any step may do to the parameters, the clock, the generation and the trace: at most one event. */
  ghost predicate Frame(s: State, t: State) {
    && t.cfg == s.cfg && t.clock >= s.clock
    && (t.trace == s.trace
        || (&& |t.trace| == |s.trace| + 1
            && t.trace == s.trace + [t.trace[|s.trace|]]
            && t.trace[|s.trace|].at == t.clock
            && t.Gen() == s.Gen()
            && (t.trace[|s.trace|].Begin? ==> t.trace[|s.trace|].gen == s.Gen() && t.trace[|s.trace|].job.conv in s.running)))
  }

  lemma EnqueueFrame(s: State, r: Request, now: int)
    requires now >= s.clock
    ensures Frame(s, Enqueued(s, r, now)) && Enqueued(s, r, now).Gen() == s.Gen()
    ensures Enqueued(s, r, now).resolved == s.resolved
  {
    PumpAdmits(Queued(s.(rows := Inserted(s.rows, r, now), clock := now), NewJob(r, s.rows.nextId, now)), r.conv);
  }

  lemma FireFrame(s: State, k: Key, now: int)
    requires Structured(s) && CanFire(s, k, now)
    ensures Frame(s, Fired(s, k, now)) && Fired(s, k, now).Gen() == s.Gen() && Fired(s, k, now).resolved == s.resolved
  {}

  lemma RespondFrame(s: State, k: Key, reply: Reply, now: int)
    requires Structured(s) && CanRespond(s, k, now)
    ensures Frame(s, Responded(s, k, reply, now)) && Responded(s, k, reply, now).Gen() == s.Gen()
    ensures Responded(s, k, reply, now).resolved == s.resolved
  {
    RespondAdds(s, k, reply, now);
  }

  /** An answer adds at most itself to the trace. */
  lemma RespondAdds(s: State, k: Key, reply: Reply, now: int)
    requires CanRespond(s, k, now)
    ensures var t := Responded(s, k, reply, now);
            && t == s.(runs := t.runs, rows := t.rows, clock := now, trace := t.trace)
            && (t.trace == s.trace || t.trace == s.trace + [End(k.gen, s.runs[k].job, s.runs[k].phase.n, StatusOf(reply), now)])
  {}

  lemma FinallyFrame(s: State, k: Key)
    requires Structured(s) && k in s.runs
    ensures Frame(s, Finalized(s, k)) && Finalized(s, k).Gen() == s.Gen()
  {
    if k.gen == s.Gen() { FinallyStructured(s, k); }
  }

  lemma StepFrame(s: State, step: Step)
    requires Structured(s) && Enabled(s, step)
    ensures Frame(s, Apply(s, step))
    ensures Apply(s, step).Gen() == if NewGeneration(step) then s.Gen() + 1 else s.Gen()
  {
    match step
    case Enqueue(r, now) => EnqueueFrame(s, r, now);
    case Fire(k, now) => FireFrame(s, k, now);
    case Respond(k, reply, now) => RespondFrame(s, k, reply, now);
    case Finally(k) => FinallyFrame(s, k);
    case Cancel =>
    case Reset =>
    case Restart => ResumeQueues(s, 0);
    case AwaitIdle(w) =>
  }

  lemma FrameTimes(s: State, t: State)
    requires TimesOk(s) && Frame(s, t)
    ensures TimesOk(t)
  {}

  lemma StepTimes(s: State, step: Step)
    requires Structured(s) && TimesOk(s) && Enabled(s, step)
    ensures TimesOk(Apply(s, step))
  {
    StepFrame(s, step);
    FrameTimes(s, Apply(s, step));
  }

  lemma SameIdsRowsOk(rows: Rows, t: Rows)
    requires RowsOk(rows) && t.nextId == rows.nextId && |t.jobs| == |rows.jobs|
    requires forall i | 0 <= i < |rows.jobs| :: t.jobs[i].id == rows.jobs[i].id
    ensures RowsOk(t)
  {}

  lemma RespondRowsOk(s: State, k: Key, reply: Reply, now: int)
    requires RowsOk(s.rows) && CanRespond(s, k, now)
    ensures RowsOk(Responded(s, k, reply, now).rows)
  {
    SameIdsRowsOk(s.rows, Responded(s, k, reply, now).rows);
  }

  lemma EnqueueRowsOk(s: State, r: Request, now: int)
    requires RowsOk(s.rows)
    ensures RowsOk(Enqueued(s, r, now).rows)
  {
    PumpAdmits(Queued(s.(rows := Inserted(s.rows, r, now), clock := now), NewJob(r, s.rows.nextId, now)), r.conv);
    InsertedOk(s.rows, r, now);
  }

  lemma StepRowsOk(s: State, step: Step)
    requires Structured(s) && RowsOk(s.rows) && Enabled(s, step)
    ensures RowsOk(Apply(s, step).rows)
  {
    match step
    case Enqueue(r, now) => EnqueueRowsOk(s, r, now);
    case Respond(k, reply, now) => RespondRowsOk(s, k, reply, now);
    case Finally(k) => if k.gen == s.Gen() { FinallyStructured(s, k); }
    case Restart => ResumeQueues(s, 0);
    case _ =>
  }

  lemma StepBase(s: State, step: Step)
    requires Base(s) && Enabled(s, step)
    ensures Base(Apply(s, step)) && Apply(s, step).cfg == s.cfg
  {
    StepStructured(s, step);
    StepRowsOk(s, step);
    StepTraceOk(s, step);
    StepTimes(s, step);
    StepPushedOk(s, step);
    StepApart(s, step);
    StepFrame(s, step);
  }

  lemma StepInv(s: State, step: Step)
    requires Inv(s) && Enabled(s, step) && !step.Cancel?
    ensures Inv(Apply(s, step)) && Apply(s, step).cfg == s.cfg
  {
    StepBase(s, step);
    StepStoreOk(s, step);
    StepOrderOk(s, step);
  }

  ghost predicate CanRun(s: State, steps: seq<Step>)
    decreases |steps|
  {
    steps == [] || (Enabled(s, steps[0]) && CanRun(Apply(s, steps[0]), steps[1..]))
  }

  ghost function RunAll(s: State, steps: seq<Step>): State
    requires CanRun(s, steps)
    decreases |steps|
  {
    if steps == [] then s else RunAll(Apply(s, steps[0]), steps[1..])
  }

  lemma {:induction false} RunBase(s: State, steps: seq<Step>)
    requires Base(s) && CanRun(s, steps)
    ensures Base(RunAll(s, steps)) && RunAll(s, steps).cfg == s.cfg
    decreases |steps|
  {
    if steps != [] {
      StepBase(s, steps[0]);
      RunBase(Apply(s, steps[0]), steps[1..]);
    }
  }

  /** Jobs are cancelled only together with their rows. */
  ghost predicate Tidy(steps: seq<Step>) {
    forall i | 0 <= i < |steps| :: !steps[i].Cancel?
  }

  lemma {:induction false} RunInv(s: State, steps: seq<Step>)
    requires Inv(s) && CanRun(s, steps) && Tidy(steps)
    ensures Inv(RunAll(s, steps)) && RunAll(s, steps).cfg == s.cfg
    decreases |steps|
  {
    if steps != [] {
      assert !steps[0].Cancel?;
      StepInv(s, steps[0]);
      RunInv(Apply(s, steps[0]), steps[1..]);
    }
  }

  /** Every state some run of an empty dispatcher gets to. */
  ghost predicate Reachable(s: State) {
    exists cfg: Config, clock: int, steps: seq<Step> ::
      cfg.Ok() && CanRun(Initial(cfg, EmptyRows, clock), steps) && s == RunAll(Initial(cfg, EmptyRows, clock), steps)
  }

  /** Every state some run gets to in which whoever cancels deletes the rows, as the reset route does. */
  ghost predicate TidyReachable(s: State) {
    exists cfg: Config, clock: int, steps: seq<Step> ::
      cfg.Ok() && CanRun(Initial(cfg, EmptyRows, clock), steps) && Tidy(steps) && s == RunAll(Initial(cfg, EmptyRows, clock), steps)
  }

  lemma ReachableBase(s: State)
    requires Reachable(s)
    ensures Base(s)
  {
    var cfg: Config, clock: int, steps: seq<Step> :|
      cfg.Ok() && CanRun(Initial(cfg, EmptyRows, clock), steps) && s == RunAll(Initial(cfg, EmptyRows, clock), steps);
    InitialInv(cfg, clock);
    RunBase(Initial(cfg, EmptyRows, clock), steps);
  }

  lemma TidyInv(s: State)
    requires TidyReachable(s)
    ensures Inv(s)
  {
    var cfg: Config, clock: int, steps: seq<Step> :|
      cfg.Ok() && CanRun(Initial(cfg, EmptyRows, clock), steps) && Tidy(steps) && s == RunAll(Initial(cfg, EmptyRows, clock), steps);
    InitialInv(cfg, clock);
    RunInv(Initial(cfg, EmptyRows, clock), steps);
  }

  // ---- main results ----

  /** Slots: work is never lost, and no slot is free while somebody waits. */
  lemma SlotInvariant(s: State, c: nat)
    requires Reachable(s)
    ensures s.Queue(c) != [] <==> c in s.running || c in s.waiting
    ensures !(c in s.running && c in s.waiting)
    ensures |s.running| <= s.cfg.maxParallel
    ensures s.waiting != [] ==> |s.running| == s.cfg.maxParallel
    ensures Distinct(s.waiting)
  {
    ReachableBase(s);
  }

  /**
   One generation's trace of one conversation is a concatenation of blocks, one per job in the order queued: at most
   one attempt more than there are retry delays, none early, all but the last in vain, the last a 200 or the last retry.
   */
  lemma AttemptsInBlocks(s: State, g: nat, c: nat)
    requires Reachable(s)
    ensures exists blocks, tries, open :: ServedBy(s.cfg, g, PushedOf(s.pushed, g, c), TraceOf(s.trace, g, c), blocks, tries, open)
  {
    ReachableBase(s);
    assert Reads(s, g, c);
    var blocks := ScanIsServed(s.cfg, g, Jobs(s, g, c), TraceOf(s.trace, g, c));
  }

  /** Order across retries, resets and any number of restarts, and the row of a finished job tells how it ended. */
  lemma DeliveryOrder(s: State)
    requires TidyReachable(s)
    ensures InIdOrder(s.trace) && NeverAgain(s.cfg, s.trace) && AfterEarlier(s.cfg, s.rows.jobs, s.trace)
    ensures forall i | 0 <= i < |s.rows.jobs| :: if s.rows.jobs[i].state.Pending? then s.rows.jobs[i].finishedAt.None? else Verdict(s.cfg, s.trace, s.rows.jobs[i])
  {
    TidyInv(s);
  }

  /** A crash and `resume` lose no job and revive none: each queue comes back as its unfinished part, in order, due at once. */
  lemma CrashSafety(s: State, c: nat)
    requires TidyReachable(s)
    ensures Resumed(Rebooted(s)).Queue(c) == Cores(Active(s, c)) == PendingOf(s.rows.jobs, c)
    ensures var q, a := Resumed(Rebooted(s)).Queue(c), Active(s, c); |q| == |a| && forall i | 0 <= i < |q| :: q[i] == a[i].(notBefore := 0)
    ensures Resumed(Rebooted(s)).rows == s.rows
  {
    TidyInv(s);
    ResumeQueues(s, c);
  }

  lemma {:induction false} PendingPartition(jobs: seq<Job>)
    ensures AllPending(jobs) == [] <==> forall c: nat :: PendingOf(jobs, c) == []
  {
    forall c: nat ensures PendingOf(jobs, c) == OfConv(AllPending(jobs), c) { PendingOfSplit(jobs, c); }
    var p := AllPending(jobs);
    if p != [] {
      assert OfConv(p, p[|p| - 1].conv) != [];
      assert PendingOf(jobs, p[|p| - 1].conv) != [];
    }
  }

  /**
   `cancelAll` on its own does not survive a restart: the cancelled jobs come back exactly when some row was
   unfinished. The reset route deletes the rows in the same callback, and then nothing comes back.
   */
  lemma CancelNeedsDeletedRows(s: State)
    requires Reachable(s)
    ensures (forall c: nat :: Resumed(Rebooted(CancelledAll(s))).Queue(c) == []) <==> AllPending(s.rows.jobs) == []
    ensures forall c: nat :: Resumed(Rebooted(WasReset(s))).Queue(c) == []
  {
    ReachableBase(s);
    CancelStructured(s);
    PendingPartition(s.rows.jobs);
    forall c: nat
      ensures Resumed(Rebooted(CancelledAll(s))).Queue(c) == PendingOf(s.rows.jobs, c)
      ensures Resumed(Rebooted(WasReset(s))).Queue(c) == []
    {
      ResumeQueues(CancelledAll(s), c);
      ResumeQueues(WasReset(s), c);
    }
  }

  /** A `cancelAll` that keeps the rows leaves memory and rows in agreement exactly when no row was unfinished. */
  lemma CancelKeepsAgreement(s: State)
    requires Reachable(s)
    ensures (forall c: nat :: Cores(Active(CancelledAll(s), c)) == PendingOf(CancelledAll(s).rows.jobs, c)) <==> AllPending(s.rows.jobs) == []
  {
    ReachableBase(s);
    CancelStructured(s);
    PendingPartition(s.rows.jobs);
    forall c: nat ensures Active(CancelledAll(s), c) == [] { assert CancelledAll(s).Queue(c) == []; }
  }

  /** Everything the current generation consists of. */
  ghost predicate SameGeneration(s: State, t: State) {
    && t.queues == s.queues && t.running == s.running && t.waiting == s.waiting && t.pushed == s.pushed && t.Gen() == s.Gen()
    && (forall k: Key | k.gen == s.Gen() :: (k in t.runs <==> k in s.runs) && (k in s.runs ==> t.runs[k] == s.runs[k]))
  }

  /** No row but that of job `id` changed, and only attempts of that job were added. */
  ghost predicate OnlyRowOf(s: State, t: State, id: nat) {
    && |t.rows.jobs| == |s.rows.jobs| && t.rows.nextId == s.rows.nextId
    && (forall i | 0 <= i < |s.rows.jobs| && s.rows.jobs[i].id != id :: t.rows.jobs[i] == s.rows.jobs[i])
    && s.rows.attempts <= t.rows.attempts
    && (forall i | |s.rows.attempts| <= i < |t.rows.attempts| :: t.rows.attempts[i].jobId == id)
  }

  /** Job `id` was not queued in the current generation. */
  ghost predicate NotCurrent(s: State, id: nat) {
    forall i | 0 <= i < |s.pushed| && s.pushed[i].gen == s.Gen() :: s.pushed[i].job.id != id
  }

  /** At most an answer of generation `g` is recorded. */
  ghost predicate OnlyOldAnswers(s: State, t: State, g: nat) {
    t.trace == s.trace || (|t.trace| == |s.trace| + 1 && t.trace == s.trace + [t.trace[|s.trace|]] && t.trace[|s.trace|].End? && t.trace[|s.trace|].gen == g)
  }

  ghost predicate Isolated(s: State, t: State, k: Key)
    requires k in s.runs
  {
    SameGeneration(s, t) && OnlyRowOf(s, t, s.runs[k].job.id) && OnlyOldAnswers(s, t, k.gen)
  }

  lemma StaleRespond(s: State, k: Key, reply: Reply, now: int)
    requires CanRespond(s, k, now) && k.gen < s.Gen()
    ensures Isolated(s, Responded(s, k, reply, now), k)
  {}

  lemma StaleFire(s: State, k: Key, now: int)
    requires CanFire(s, k, now) && k.gen < s.Gen()
    ensures Isolated(s, Fired(s, k, now), k)
  {}

  lemma StaleFinally(s: State, k: Key)
    requires k in s.runs && k.gen < s.Gen()
    ensures Isolated(s, Finalized(s, k), k)
  {}

  lemma OldRunNotCurrent(s: State, k: Key)
    requires Apart(s) && k in s.runs && k.gen < s.Gen()
    ensures NotCurrent(s, s.runs[k].job.id)
  {}

  lemma NoRowNoChange(s: State, t: State, id: nat)
    requires OnlyRowOf(s, t, id) && Absent(s.rows.jobs, id)
    ensures t.rows.jobs == s.rows.jobs
  {}

  lemma StaleIsolated(s: State, step: Step, k: Key)
    requires Enabled(s, step) && k in s.runs && k.gen < s.Gen()
    requires step == Finally(k) || (step.Fire? && step.k == k) || (step.Respond? && step.k == k)
    ensures Isolated(s, Apply(s, step), k)
  {
    match step
    case Fire(_, now) => StaleFire(s, k, now);
    case Respond(_, reply, now) => StaleRespond(s, k, reply, now);
    case Finally(_) => StaleFinally(s, k);
  }

  /**
   A step of a run that `cancelAll` left behind starts no attempt and touches nothing of the current generation: not
   its queues, slots, waiting line or runs. It may still record an answer and finish its own row, if the caller of
   `cancelAll` kept it, but that is no row of a job queued since; where the row is gone no row changes at all.
   */
  lemma GenerationIsolation(s: State, step: Step, k: Key)
    requires Reachable(s) && Enabled(s, step) && k.gen < s.Gen()
    requires step == Finally(k) || (step.Fire? && step.k == k) || (step.Respond? && step.k == k)
    ensures Isolated(s, Apply(s, step), k) && NotCurrent(s, s.runs[k].job.id)
    ensures Absent(s.rows.jobs, s.runs[k].job.id) ==> Apply(s, step).rows.jobs == s.rows.jobs
  {
    ReachableBase(s);
    StaleIsolated(s, step, k);
    OldRunNotCurrent(s, k);
    if Absent(s.rows.jobs, s.runs[k].job.id) { NoRowNoChange(s, Apply(s, step), s.runs[k].job.id); }
  }

  /** Where the rows are deleted with the cancelled jobs, every run left behind has lost its row. */
  lemma ResetRunsHaveNoRow(s: State, k: Key)
    requires TidyReachable(s) && k in s.runs && k.gen < s.Gen()
    ensures Absent(s.rows.jobs, s.runs[k].job.id)
  {
    TidyInv(s);
  }

  /** Since `s`, only attempts of its generation or a later one started. */
  ghost predicate BeginsLater(s: State, t: State) {
    t.Gen() >= s.Gen() && s.trace <= t.trace && forall p | |s.trace| <= p < |t.trace| && t.trace[p].Begin? :: t.trace[p].gen >= s.Gen()
  }

  lemma StepBeginsLater(s: State, step: Step)
    requires Structured(s) && Enabled(s, step)
    ensures BeginsLater(s, Apply(s, step))
  {
    StepFrame(s, step);
  }

  lemma BeginLaterTrans(s: State, t: State, u: State)
    requires BeginsLater(s, t) && BeginsLater(t, u)
    ensures BeginsLater(s, u)
  {
    forall p | |s.trace| <= p < |u.trace| && u.trace[p].Begin? ensures u.trace[p].gen >= s.Gen() {
      if p < |t.trace| { assert u.trace[p] == t.trace[p]; }
    }
  }

  /** Over any run: from any point on, no attempt of an older generation starts. */
  lemma {:induction false} NoOldAttempts(s: State, steps: seq<Step>)
    requires Base(s) && CanRun(s, steps)
    ensures BeginsLater(s, RunAll(s, steps))
    decreases |steps|
  {
    if steps != [] {
      var s1 := Apply(s, steps[0]);
      StepBase(s, steps[0]);
      StepBeginsLater(s, steps[0]);
      NoOldAttempts(s1, steps[1..]);
      BeginLaterTrans(s, s1, RunAll(s1, steps[1..]));
    }
  }

  // ---- timing ----

  ghost predicate Sorted(tr: seq<Event>) {
    forall i, j | 0 <= i < j < |tr| :: tr[i].at <= tr[j].at
  }

  lemma {:induction false} TraceOfSorted(tr: seq<Event>, g: nat, c: nat)
    requires Sorted(tr)
    ensures Sorted(TraceOf(tr, g, c))
    ensures forall i | 0 <= i < |TraceOf(tr, g, c)| :: TraceOf(tr, g, c)[i] in tr
  {
    if tr != [] { TraceOfSorted(tr[..|tr| - 1], g, c); }
  }

  /** Everything served so far, and the job on the wire, was due by the time of the last event. */
  lemma {:induction false} ScanDue(cfg: Config, g: nat, jobs: seq<Job>, tr: seq<Event>)
    requires Sorted(tr) && ScanAll(cfg, g, jobs, tr).At?
    ensures var sc := ScanAll(cfg, g, jobs, tr);
            && sc.k <= |jobs|
            && (forall i | 0 <= i < sc.k :: tr != [] && jobs[i].notBefore <= tr[|tr| - 1].at)
            && (sc.tries != [] || sc.open.Some? ==> tr != [] && sc.k < |jobs| && jobs[sc.k].notBefore <= tr[|tr| - 1].at)
  {
    if tr != [] { ScanDue(cfg, g, jobs, tr[..|tr| - 1]); }
  }

  lemma {:induction false} ScanPrefix(cfg: Config, g: nat, jobs: seq<Job>, tr: seq<Event>, p: nat)
    requires p <= |tr| && ScanAll(cfg, g, jobs, tr).At?
    ensures ScanAll(cfg, g, jobs, tr[..p]).At?
  {
    if p < |tr| {
      ScanPrefix(cfg, g, jobs, tr[..|tr| - 1], p);
      assert tr[..|tr| - 1][..p] == tr[..p];
    } else {
      assert tr[..p] == tr;
    }
  }

  /** The jobs `js` up to some position are all due by `at`, and `job` is the one at that position. */
  ghost predicate DueUpTo(js: seq<Job>, job: Job, at: int) {
    exists k :: 0 <= k < |js| && js[k] == job && forall i | 0 <= i <= k :: js[i].notBefore <= at
  }

  lemma BeginDue(cfg: Config, g: nat, js: seq<Job>, tr: seq<Event>, p: nat)
    requires Sorted(tr) && ScanAll(cfg, g, js, tr).At? && p < |tr| && tr[p].Begin?
    ensures DueUpTo(js, tr[p].job, tr[p].at)
  {
    var pre := tr[..p + 1];
    ScanPrefix(cfg, g, js, tr, p + 1);
    assert pre[..p] == tr[..p] && pre[|pre| - 1] == tr[p];
    ScanDue(cfg, g, js, pre);
    var k := ScanAll(cfg, g, js, pre).k;
    assert js[k] == tr[p].job;
  }

  lemma NothingEarlyIn(s: State, g: nat, c: nat, p: nat)
    requires Base(s)
    requires p < |TraceOf(s.trace, g, c)| && TraceOf(s.trace, g, c)[p].Begin?
    ensures DueUpTo(PushedOf(s.pushed, g, c), TraceOf(s.trace, g, c)[p].job, TraceOf(s.trace, g, c)[p].at)
  {
    assert Reads(s, g, c);
    TraceOfSorted(s.trace, g, c);
    BeginDue(s.cfg, g, Jobs(s, g, c), TraceOf(s.trace, g, c), p);
  }

  /**
   Each attempt belongs to some job of the queue order and starts no earlier than the notBefore of that job and of
   every job queued before it: a delayed status holds back everything behind it.
   */
  lemma NothingEarly(s: State, g: nat, c: nat, p: nat)
    requires Reachable(s)
    requires p < |TraceOf(s.trace, g, c)| && TraceOf(s.trace, g, c)[p].Begin?
    ensures DueUpTo(PushedOf(s.pushed, g, c), TraceOf(s.trace, g, c)[p].job, TraceOf(s.trace, g, c)[p].at)
  {
    ReachableBase(s);
    NothingEarlyIn(s, g, c, p);
  }

  /**
   A sleeping run of the current generation goes on exactly from the time it waits for: the notBefore of its job, or
   the end of the pause after the last of the attempts the trace shows. One of an older generation goes on at once.
   */
  lemma FiresWhenDue(s: State, k: Key)
    requires Reachable(s) && k in s.runs && (s.runs[k].phase.Delay? || s.runs[k].phase.Backoff?)
    ensures k.gen == s.Gen() ==> exists blocks, tries :: DueNext(s, k, blocks, tries)
    ensures k.gen < s.Gen() ==> forall now :: Enabled(s, Fire(k, now)) <==> now >= s.clock
  {
    if k.gen == s.Gen() {
      ReachableBase(s);
      CurrentFits(s, k);
      var blocks := CurrentIsDue(s, k);
    }
  }

  lemma CurrentFits(s: State, k: Key)
    requires TraceOk(s) && k in s.runs
    ensures Reads(s, k.gen, k.conv) && RunFits(s, k)
  {}

  lemma CurrentIsDue(s: State, k: Key) returns (blocks: seq<seq<Try>>)
    requires k in s.runs && k.gen == s.Gen() && (s.runs[k].phase.Delay? || s.runs[k].phase.Backoff?) && Reads(s, k.gen, k.conv) && RunFits(s, k)
    ensures DueNext(s, k, blocks, ScanOf(s, k.gen, k.conv).tries)
  {
    blocks := ScanIsServed(s.cfg, k.gen, Jobs(s, k.gen, k.conv), TraceOf(s.trace, k.gen, k.conv));
  }

  /** After the complete blocks and the attempts `tries` of its job, the run may start the next attempt when it is due. */
  ghost predicate DueNext(s: State, k: Key, blocks: seq<seq<Try>>, tries: seq<Try>)
    requires k in s.runs
  {
    var js := PushedOf(s.pushed, k.gen, k.conv);
    && ServedBy(s.cfg, k.gen, js, TraceOf(s.trace, k.gen, k.conv), blocks, tries, None)
    && |blocks| < |js| && js[|blocks|] == s.runs[k].job && |tries| <= |s.cfg.delays|
    && forall now :: Enabled(s, Fire(k, now)) <==> now >= s.clock && now >= Ready(s.cfg, js[|blocks|], tries)
  }

  lemma StepResolves(s: State, step: Step)
    requires Structured(s) && Enabled(s, step)
    ensures var t := Apply(s, step); s.resolved <= t.resolved && (|t.resolved| > |s.resolved| ==> t.Idle() && t.idleWaiters == [])
  {
    match step
    case Enqueue(r, now) => EnqueueFrame(s, r, now);
    case Fire(k, now) => FireFrame(s, k, now);
    case Respond(k, reply, now) => RespondFrame(s, k, reply, now);
    case Finally(k) => FinallyResolves(s, k);
    case Cancel => SettlesIdle(CancelledMaps(s));
    case Reset => SettlesIdle(CancelledMaps(s));
    case Restart => ResumeResolves(s);
    case AwaitIdle(w) => SettlesIdle(s.(idleWaiters := s.idleWaiters + [w]));
  }

  function CancelledMaps(s: State): State {
    s.(past := s.past + [Tables(s.queues, s.running)], queues := map[], running := {}, waiting := [])
  }

  lemma SettlesIdle(s: State)
    ensures var t := SettleIdle(s); s.resolved <= t.resolved && (|t.resolved| > |s.resolved| ==> t.Idle() && t.idleWaiters == [])
  {}

  /** Nothing is queued and nothing runs. */
  ghost predicate NothingToDo(s: State) {
    s.running == {} && forall c: nat :: s.Queue(c) == []
  }

  /** No caller is lost or answered twice. */
  ghost predicate KeepsWaiters(s: State, step: Step)
    requires Enabled(s, step)
  {
    var t := Apply(s, step);
    step.Restart? || t.resolved + t.idleWaiters == s.resolved + s.idleWaiters + if step.AwaitIdle? then [step.w] else []
  }

  lemma StepKeepsWaiters(s: State, step: Step)
    requires Structured(s) && Enabled(s, step)
    ensures KeepsWaiters(s, step)
  {
    match step
    case Enqueue(r, now) => PumpAdmits(Queued(s.(rows := Inserted(s.rows, r, now), clock := now), NewJob(r, s.rows.nextId, now)), r.conv);
    case Finally(k) => FinallyKeepsWaiters(s, k);
    case AwaitIdle(w) => assert s.resolved + (s.idleWaiters + [w]) == s.resolved + s.idleWaiters + [w];
    case _ =>
  }

  lemma FinallyKeepsWaiters(s: State, k: Key)
    requires Structured(s) && k in s.runs
    ensures Finalized(s, k).resolved + Finalized(s, k).idleWaiters == s.resolved + s.idleWaiters
  {
    if k.gen == s.Gen() {
      FreedScheduled(s, k);
      PumpSchedules(Freed(s, k), k.conv);
      FillSchedules(Pump(Freed(s, k), k.conv), k.conv);
      FinalizedIs(s, k);
    }
  }

  lemma IdleDoesNothing(s: State)
    ensures s.Idle() <==> NothingToDo(s)
  {
    if NothingToDo(s) {
      forall c | c in s.queues ensures s.queues[c] == [] { assert s.Queue(c) == []; }
    }
  }

  /**
   A waiting `idle()` caller is answered exactly when nothing is queued or running: then all of them are, before then
   none, and each once.
   */
  lemma IdleIsIdle(s: State, step: Step)
    requires Reachable(s) && Enabled(s, step)
    ensures var t := Apply(s, step);
            && s.resolved <= t.resolved && KeepsWaiters(s, step)
            && (|t.resolved| > |s.resolved| ==> NothingToDo(t) && t.idleWaiters == [])
            && (NothingToDo(t) ==> t.idleWaiters == [])
  {
    ReachableBase(s);
    StepStructured(s, step);
    StepResolves(s, step);
    StepKeepsWaiters(s, step);
    IdleDoesNothing(Apply(s, step));
  }

  lemma FinallyResolves(s: State, k: Key)
    requires Structured(s) && k in s.runs
    ensures var t := Finalized(s, k);
            s.resolved <= t.resolved && (|t.resolved| > |s.resolved| ==> t.Idle() && t.idleWaiters == [])
  {
    if k.gen == s.Gen() { FinalizedResolves(s, k); }
  }

  lemma FinalizedResolves(s: State, k: Key)
    requires Structured(s) && k in s.runs && k.gen == s.Gen()
    ensures var t := Finalized(s, k);
            s.resolved <= t.resolved && (|t.resolved| > |s.resolved| ==> t.Idle() && t.idleWaiters == [])
  {
    FreedScheduled(s, k);
    PumpSchedules(Freed(s, k), k.conv);
    FillSchedules(Pump(Freed(s, k), k.conv), k.conv);
    FinalizedIs(s, k);
    var f := Fill(Pump(Freed(s, k), k.conv), k.conv);
    assert f.resolved == s.resolved;
  }

  lemma ResumeResolves(s: State)
    requires s.cfg.Ok()
    ensures Resumed(Rebooted(s)).resolved == s.resolved
  {
    var b := Rebooted(s);
    assert forall c: nat :: b.Queue(c) == [];
    assert Structured(b);
    PushAllQueues(b, AllPending(b.rows.jobs), 0);
  }
}
