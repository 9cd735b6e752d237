/**
 Delivery order over whole runs, through retries, resets and restarts: within a conversation Comdove sees the jobs
 in id order, each only after every earlier one is done, and none again once it is done.
 */
module DispatcherOrder {
  import opened Prelude
  import opened JobStore
  import opened Dispatcher
  import opened DispatcherSlots
  import opened DispatcherStore
  import opened DispatcherBlocks
  import opened DispatcherLedger

  /** The answer that ends a job: a 200, or the last attempt. */
  predicate Final(cfg: Config, e: Event) {
    e.End? && (e.status == Some(200) || e.n == cfg.MaxAttempts())
  }

  /** Job `id` was done before position `p` of the trace. */
  ghost predicate DoneBefore(cfg: Config, tr: seq<Event>, id: nat, p: nat) {
    exists q :: 0 <= q < p && q < |tr| && Final(cfg, tr[q]) && tr[q].job.id == id
  }

  predicate Judges(e: Event, row: Job) {
    e.End? && (row.state.Succeeded? <==> e.status == Some(200)) && row.finishedAt == Some(e.at)
  }

  /** The row's state and end are those of the answer that ended the job. */
  ghost predicate Verdict(cfg: Config, tr: seq<Event>, row: Job) {
    exists q :: 0 <= q < |tr| && Final(cfg, tr[q]) && tr[q].job.id == row.id && Judges(tr[q], row)
  }

  /** Attempts start in id order within a conversation. */
  ghost predicate InIdOrder(tr: seq<Event>) {
    forall p, q | 0 <= p < q < |tr| && tr[p].Begin? && tr[q].Begin? && tr[p].job.conv == tr[q].job.conv :: tr[p].job.id <= tr[q].job.id
  }

  /** No attempt of a finished job. */
  ghost predicate NeverAgain(cfg: Config, tr: seq<Event>) {
    forall q, p | 0 <= q < p < |tr| && Final(cfg, tr[q]) && tr[p].Begin? :: tr[q].job.id != tr[p].job.id
  }

  /** An attempt starts only when every earlier job of its conversation is done. */
  ghost predicate AfterEarlier(cfg: Config, jobs: seq<Job>, tr: seq<Event>) {
    forall p, i | 0 <= p < |tr| && 0 <= i < |jobs| && tr[p].Begin? && jobs[i].conv == tr[p].job.conv && jobs[i].id < tr[p].job.id ::
      DoneBefore(cfg, tr, jobs[i].id, p)
  }

  /** Unfinished rows are not behind anything already attempted, and have not been finished. */
  ghost predicate PendingAhead(cfg: Config, jobs: seq<Job>, tr: seq<Event>) {
    && (forall p, i | 0 <= p < |tr| && 0 <= i < |jobs| && tr[p].Begin? && jobs[i].state.Pending? && jobs[i].conv == tr[p].job.conv ::
          tr[p].job.id <= jobs[i].id)
    && (forall q, i | 0 <= q < |tr| && 0 <= i < |jobs| && Final(cfg, tr[q]) && jobs[i].state.Pending? :: tr[q].job.id != jobs[i].id)
  }

  /** Same webhook, whatever its progress. */
  predicate SameHook(a: Job, b: Job) {
    a.id == b.id && a.conv == b.conv && a.wamid == b.wamid && a.kind == b.kind && a.payload == b.payload
  }

  /** What is attempted under the id of a row is the webhook of that row. */
  ghost predicate Faithful(jobs: seq<Job>, tr: seq<Event>) {
    forall p, i | 0 <= p < |tr| && 0 <= i < |jobs| && tr[p].job.id == jobs[i].id :: SameHook(tr[p].job, jobs[i])
  }

  ghost predicate OrderOk(s: State) {
    && (forall p | 0 <= p < |s.trace| :: s.trace[p].job.id < s.rows.nextId)
    && Faithful(s.rows.jobs, s.trace)
    && InIdOrder(s.trace)
    && NeverAgain(s.cfg, s.trace)
    && AfterEarlier(s.cfg, s.rows.jobs, s.trace)
    && PendingAhead(s.cfg, s.rows.jobs, s.trace)
    && Verdicts(s.cfg, s.rows.jobs, s.trace)
  }

  /** The job a current run is about to attempt is the oldest unfinished row of its conversation. */
  lemma HeadIsOldest(s: State, k: Key) returns (i: nat)
    requires Structured(s) && StoreOk(s) && k in s.runs && k.gen == s.Gen() && !s.runs[k].phase.Settled?
    ensures i < |s.rows.jobs| && s.rows.jobs[i].state.Pending? && s.rows.jobs[i].conv == k.conv && SameHook(s.runs[k].job, s.rows.jobs[i])
    ensures forall j | 0 <= j < |s.rows.jobs| && s.rows.jobs[j].state.Pending? && s.rows.jobs[j].conv == k.conv :: s.runs[k].job.id <= s.rows.jobs[j].id
  {
    var p := PendingOf(s.rows.jobs, k.conv);
    assert Active(s, k.conv) == s.Queue(k.conv);
    i := HeadRow(s, k.conv);
    PendingOfRows(s.rows.jobs, k.conv);
    assert p[0] == Core(s.runs[k].job);
    forall j | 0 <= j < |s.rows.jobs| && s.rows.jobs[j].state.Pending? && s.rows.jobs[j].conv == k.conv
      ensures s.runs[k].job.id <= s.rows.jobs[j].id
    {
      assert Core(s.rows.jobs[j]) in p;
      var a :| 0 <= a < |p| && p[a] == Core(s.rows.jobs[j]);
    }
  }

  lemma DoneMono(cfg: Config, tr: seq<Event>, e: Event, id: nat, p: nat)
    requires DoneBefore(cfg, tr, id, p)
    ensures DoneBefore(cfg, tr + [e], id, p)
  {
    var q :| 0 <= q < p && q < |tr| && Final(cfg, tr[q]) && tr[q].job.id == id;
    assert (tr + [e])[q] == tr[q];
  }

  lemma VerdictMono(cfg: Config, tr: seq<Event>, e: Event, row: Job)
    requires Verdict(cfg, tr, row)
    ensures Verdict(cfg, tr + [e], row)
    ensures DoneBefore(cfg, tr, row.id, |tr|)
  {
    var q :| 0 <= q < |tr| && Final(cfg, tr[q]) && tr[q].job.id == row.id && Judges(tr[q], row);
    assert (tr + [e])[q] == tr[q];
  }

  lemma UniqueId(jobs: seq<Job>, i: nat, j: nat)
    requires Ascending(jobs) && i < |jobs| && j < |jobs| && jobs[i].id == jobs[j].id
    ensures i == j
  {}

  /** Every finished row has its verdict in the trace; an unfinished one has no end. */
  ghost predicate Verdicts(cfg: Config, jobs: seq<Job>, tr: seq<Event>) {
    && (forall i | 0 <= i < |jobs| && !jobs[i].state.Pending? :: Verdict(cfg, tr, jobs[i]))
    && (forall i | 0 <= i < |jobs| && jobs[i].state.Pending? :: jobs[i].finishedAt.None?)
  }

  lemma BeginAfterEarlier(cfg: Config, jobs: seq<Job>, tr: seq<Event>, e: Event)
    requires AfterEarlier(cfg, jobs, tr) && Verdicts(cfg, jobs, tr)
    requires forall j | 0 <= j < |jobs| && jobs[j].state.Pending? && jobs[j].conv == e.job.conv :: e.job.id <= jobs[j].id
    ensures AfterEarlier(cfg, jobs, tr + [e])
  {
    var tr' := tr + [e];
    forall p, j | 0 <= p < |tr'| && 0 <= j < |jobs| && tr'[p].Begin? && jobs[j].conv == tr'[p].job.conv && jobs[j].id < tr'[p].job.id
      ensures DoneBefore(cfg, tr', jobs[j].id, p)
    {
      if p == |tr| { VerdictMono(cfg, tr, e, jobs[j]); }
      DoneMono(cfg, tr, e, jobs[j].id, p);
    }
  }

  lemma BeginFaithful(jobs: seq<Job>, tr: seq<Event>, e: Event, i: nat)
    requires Faithful(jobs, tr) && Ascending(jobs) && i < |jobs| && SameHook(e.job, jobs[i])
    ensures Faithful(jobs, tr + [e])
  {
    forall j | 0 <= j < |jobs| && jobs[j].id == e.job.id ensures SameHook(e.job, jobs[j]) { UniqueId(jobs, i, j); }
  }

  lemma BeginAhead(cfg: Config, jobs: seq<Job>, tr: seq<Event>, e: Event, i: nat)
    requires PendingAhead(cfg, jobs, tr) && e.Begin?
    requires i < |jobs| && jobs[i].state.Pending? && SameHook(e.job, jobs[i])
    requires forall j | 0 <= j < |jobs| && jobs[j].state.Pending? && jobs[j].conv == e.job.conv :: e.job.id <= jobs[j].id
    ensures PendingAhead(cfg, jobs, tr + [e])
    ensures InIdOrder(tr) ==> InIdOrder(tr + [e])
    ensures NeverAgain(cfg, tr) ==> NeverAgain(cfg, tr + [e])
  {}

  lemma VerdictsMono(cfg: Config, jobs: seq<Job>, tr: seq<Event>, e: Event)
    requires Verdicts(cfg, jobs, tr)
    ensures Verdicts(cfg, jobs, tr + [e])
  {
    forall j | 0 <= j < |jobs| && !jobs[j].state.Pending? ensures Verdict(cfg, tr + [e], jobs[j]) { VerdictMono(cfg, tr, e, jobs[j]); }
  }

  lemma BeginOrderOk(s: State, t: State, e: Event, i: nat)
    requires OrderOk(s) && RowsOk(s.rows) && t.rows == s.rows && t.trace == s.trace + [e] && t.cfg == s.cfg && e.Begin?
    requires i < |s.rows.jobs| && s.rows.jobs[i].state.Pending? && SameHook(e.job, s.rows.jobs[i])
    requires forall j | 0 <= j < |s.rows.jobs| && s.rows.jobs[j].state.Pending? && s.rows.jobs[j].conv == e.job.conv :: e.job.id <= s.rows.jobs[j].id
    ensures OrderOk(t)
  {
    BeginFaithful(s.rows.jobs, s.trace, e, i);
    BeginAfterEarlier(s.cfg, s.rows.jobs, s.trace, e);
    BeginAhead(s.cfg, s.rows.jobs, s.trace, e, i);
    VerdictsMono(s.cfg, s.rows.jobs, s.trace, e);
  }

  /** The rows before and after an answer: only the job it ends changes, to the verdict. */
  ghost predicate Judged(cfg: Config, jobs: seq<Job>, jobs': seq<Job>, e: Event) {
    && |jobs'| == |jobs|
    && forall i | 0 <= i < |jobs| ::
         && SameHook(jobs'[i], jobs[i])
         && if Final(cfg, e) && jobs[i].id == e.job.id
            then jobs'[i].state == (if e.status == Some(200) then Succeeded else Failed) && jobs'[i].finishedAt == Some(e.at)
            else jobs'[i].state == jobs[i].state && jobs'[i].finishedAt == jobs[i].finishedAt
  }

  lemma EndAfterEarlier(cfg: Config, jobs: seq<Job>, jobs': seq<Job>, tr: seq<Event>, e: Event)
    requires AfterEarlier(cfg, jobs, tr) && Judged(cfg, jobs, jobs', e) && e.End?
    ensures AfterEarlier(cfg, jobs', tr + [e])
  {
    var tr' := tr + [e];
    forall p, j | 0 <= p < |tr'| && 0 <= j < |jobs'| && tr'[p].Begin? && jobs'[j].conv == tr'[p].job.conv && jobs'[j].id < tr'[p].job.id
      ensures DoneBefore(cfg, tr', jobs'[j].id, p)
    {
      assert SameHook(jobs'[j], jobs[j]);
      DoneMono(cfg, tr, e, jobs[j].id, p);
    }
  }

  lemma EndVerdicts(cfg: Config, jobs: seq<Job>, jobs': seq<Job>, tr: seq<Event>, e: Event)
    requires Verdicts(cfg, jobs, tr) && Judged(cfg, jobs, jobs', e) && e.End?
    ensures Verdicts(cfg, jobs', tr + [e])
  {
    forall j | 0 <= j < |jobs'| && !jobs'[j].state.Pending? ensures Verdict(cfg, tr + [e], jobs'[j]) {
      assert SameHook(jobs'[j], jobs[j]);
      if Final(cfg, e) && jobs[j].id == e.job.id {
        assert (tr + [e])[|tr|] == e;
      } else {
        VerdictMono(cfg, tr, e, jobs[j]);
      }
    }
  }

  lemma EndPendingAhead(cfg: Config, jobs: seq<Job>, jobs': seq<Job>, tr: seq<Event>, e: Event)
    requires PendingAhead(cfg, jobs, tr) && Judged(cfg, jobs, jobs', e) && e.End?
    ensures PendingAhead(cfg, jobs', tr + [e])
  {
    var tr' := tr + [e];
    forall p, i | 0 <= p < |tr'| && 0 <= i < |jobs'| && tr'[p].Begin? && jobs'[i].state.Pending? && jobs'[i].conv == tr'[p].job.conv
      ensures tr'[p].job.id <= jobs'[i].id
    {
      assert SameHook(jobs'[i], jobs[i]) && jobs[i].state.Pending?;
    }
    forall q, i | 0 <= q < |tr'| && 0 <= i < |jobs'| && Final(cfg, tr'[q]) && jobs'[i].state.Pending?
      ensures tr'[q].job.id != jobs'[i].id
    {
      assert SameHook(jobs'[i], jobs[i]) && jobs[i].state.Pending?;
    }
  }

  /** An answer, together with what it does to the row of its job. */
  lemma EndOrderOk(s: State, t: State, e: Event)
    requires OrderOk(s) && t.cfg == s.cfg && e.End? && t.trace == s.trace + [e] && e.job.id < s.rows.nextId
    requires t.rows.nextId == s.rows.nextId && Judged(s.cfg, s.rows.jobs, t.rows.jobs, e)
    requires forall i | 0 <= i < |s.rows.jobs| && s.rows.jobs[i].id == e.job.id :: SameHook(e.job, s.rows.jobs[i])
    ensures OrderOk(t)
  {
    var tr, jobs, jobs' := s.trace, s.rows.jobs, t.rows.jobs;
    assert Faithful(jobs', t.trace) by {
      forall p, i | 0 <= p < |t.trace| && 0 <= i < |jobs'| && t.trace[p].job.id == jobs'[i].id ensures SameHook(t.trace[p].job, jobs'[i]) {
        assert SameHook(jobs'[i], jobs[i]);
      }
    }
    assert Verdicts(s.cfg, jobs, tr);
    EndAfterEarlier(s.cfg, jobs, jobs', tr, e);
    EndVerdicts(s.cfg, jobs, jobs', tr, e);
    EndPendingAhead(s.cfg, jobs, jobs', tr, e);
  }

  /** An answer of an old run meets no row. */
  lemma StaleAnswerOrderOk(s: State, k: Key, reply: Reply, now: int)
    requires StoreOk(s) && OrderOk(s) && CanRespond(s, k, now) && k.gen < s.Gen() && reply.Status?
    ensures OrderOk(Responded(s, k, reply, now))
  {
    var t, job := Responded(s, k, reply, now), s.runs[k].job;
    assert Absent(s.rows.jobs, job.id);
    AbsentUnchanged(s.rows.jobs, job.id, Succeeded, now);
    AbsentUnchanged(s.rows.jobs, job.id, Failed, now);
    EndOrderOk(s, t, End(k.gen, job, s.runs[k].phase.n, StatusOf(reply), now));
  }

  lemma AnswerOrderOk(s: State, k: Key, reply: Reply, now: int)
    requires Structured(s) && StoreOk(s) && OrderOk(s) && CanRespond(s, k, now) && RunFits(s, k) && k.gen == s.Gen()
    ensures OrderOk(Responded(s, k, reply, now))
  {
    var t, job := Responded(s, k, reply, now), s.runs[k].job;
    var i := HeadIsOldest(s, k);
    forall j | 0 <= j < |s.rows.jobs| && s.rows.jobs[j].id == job.id ensures SameHook(job, s.rows.jobs[j]) { UniqueId(s.rows.jobs, i, j); }
    EndOrderOk(s, t, End(k.gen, job, s.runs[k].phase.n, StatusOf(reply), now));
  }

  lemma RespondOrderOk(s: State, k: Key, reply: Reply, now: int)
    requires Structured(s) && StoreOk(s) && TraceOk(s) && OrderOk(s) && CanRespond(s, k, now)
    ensures OrderOk(Responded(s, k, reply, now))
  {
    if k.gen < s.Gen() {
      if reply.Status? { StaleAnswerOrderOk(s, k, reply, now); } else { SameRowsOrderOk(s, Responded(s, k, reply, now)); }
    } else {
      assert RunFits(s, k);
      AnswerOrderOk(s, k, reply, now);
    }
  }

  lemma FireOrderOk(s: State, k: Key, now: int)
    requires Structured(s) && StoreOk(s) && OrderOk(s) && CanFire(s, k, now)
    ensures OrderOk(Fired(s, k, now))
  {
    var t := Fired(s, k, now);
    if k.gen == s.Gen() {
      var i := HeadIsOldest(s, k);
      BeginOrderOk(s, t, t.trace[|s.trace|], i);
    }
  }

  /** A new row is behind everything and not finished. */
  lemma InsertedOrderOk(s: State, t: State, job: Job)
    requires OrderOk(s) && RowsOk(s.rows) && job.state.Pending? && job.finishedAt.None? && job.id == s.rows.nextId
    requires t.cfg == s.cfg && t.trace == s.trace && t.rows.jobs == s.rows.jobs + [job] && t.rows.nextId == s.rows.nextId + 1
    ensures OrderOk(t)
  {
    InsertedVerdicts(s.cfg, s.rows.jobs, s.trace, job);
    assert AfterEarlier(t.cfg, t.rows.jobs, t.trace);
    assert PendingAhead(t.cfg, t.rows.jobs, t.trace);
  }

  lemma InsertedVerdicts(cfg: Config, jobs: seq<Job>, tr: seq<Event>, job: Job)
    requires Verdicts(cfg, jobs, tr) && job.state.Pending? && job.finishedAt.None?
    ensures Verdicts(cfg, jobs + [job], tr)
  {
    forall i | 0 <= i < |jobs + [job]| && !(jobs + [job])[i].state.Pending? ensures Verdict(cfg, tr, (jobs + [job])[i]) {
      assert (jobs + [job])[i] == jobs[i];
    }
  }

  lemma EnqueueOrderOk(s: State, r: Request, now: int)
    requires OrderOk(s) && RowsOk(s.rows)
    ensures OrderOk(Enqueued(s, r, now))
  {
    PumpAdmits(Queued(s.(rows := Inserted(s.rows, r, now), clock := now), NewJob(r, s.rows.nextId, now)), r.conv);
    InsertedOrderOk(s, Enqueued(s, r, now), NewJob(r, s.rows.nextId, now));
  }

  lemma SameRowsOrderOk(s: State, t: State)
    requires OrderOk(s) && t.cfg == s.cfg && t.rows == s.rows && t.trace == s.trace
    ensures OrderOk(t)
  {}

  lemma FinallyOrderOk(s: State, k: Key)
    requires Structured(s) && OrderOk(s) && k in s.runs
    ensures OrderOk(Finalized(s, k))
  {
    if k.gen == s.Gen() { FinallyStructured(s, k); }
    SameRowsOrderOk(s, Finalized(s, k));
  }

  lemma ResetOrderOk(s: State)
    requires OrderOk(s)
    ensures OrderOk(WasReset(s))
  {
    var t := WasReset(s);
    assert t.trace == s.trace && t.rows.jobs == [] && t.rows.nextId == s.rows.nextId;
  }

  lemma RestartOrderOk(s: State)
    requires s.cfg.Ok() && OrderOk(s)
    ensures OrderOk(Resumed(Rebooted(s)))
  {
    ResumeQueues(s, 0);
    SameRowsOrderOk(s, Resumed(Rebooted(s)));
  }

  lemma StepOrderOk(s: State, step: Step)
    requires Structured(s) && StoreOk(s) && TraceOk(s) && OrderOk(s) && Enabled(s, step) && !step.Cancel?
    ensures OrderOk(Apply(s, step))
  {
    match step
    case Enqueue(r, now) => EnqueueOrderOk(s, r, now);
    case Fire(k, now) => FireOrderOk(s, k, now);
    case Respond(k, reply, now) => RespondOrderOk(s, k, reply, now);
    case Finally(k) => FinallyOrderOk(s, k);
    case Reset => ResetOrderOk(s);
    case Restart => RestartOrderOk(s);
    case AwaitIdle(w) => SameRowsOrderOk(s, AwaitedIdle(s, w));
  }
}
