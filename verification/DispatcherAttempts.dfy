/** The attempt rows: whatever happens, the rows of a webhook tell how each of its attempts ended, in order. */
module DispatcherAttempts {
  import opened Prelude
  import opened JobStore
  import opened Dispatcher
  import opened DispatcherSlots
  import opened DispatcherStore
  import opened DispatcherPushed
  import opened DispatcherRuns

  /** The attempt rows of one job, oldest first. */
  function AttemptsOf(xs: seq<Attempt>, id: nat): seq<Attempt> {
    if xs == [] then [] else
      var x := xs[|xs| - 1];
      AttemptsOf(xs[..|xs| - 1], id) + if x.jobId == id then [x] else []
  }

  /** How the attempts of one job ended, in any generation. */
  function EndsOf(tr: seq<Event>, id: nat): seq<Event> {
    if tr == [] then [] else
      var e := tr[|tr| - 1];
      EndsOf(tr[..|tr| - 1], id) + if e.End? && e.job.id == id then [e] else []
  }

  /** The row of an answer; there is an error exactly if there was no HTTP status. */
  predicate Tells(a: Attempt, e: Event) {
    && e.End? && a.jobId == e.job.id && a.n == e.n && a.status == e.status && a.at == e.at
    && (a.error.Some? <==> a.status.None?)
  }

  ghost predicate TellsAll(xs: seq<Attempt>, es: seq<Event>) {
    |xs| == |es| && forall i | 0 <= i < |xs| :: Tells(xs[i], es[i])
  }

  /** The attempt rows of job `id` are its answers on the trace. */
  ghost predicate Complete(xs: seq<Attempt>, tr: seq<Event>, id: nat) {
    TellsAll(AttemptsOf(xs, id), EndsOf(tr, id))
  }

  ghost predicate Below(xs: seq<Attempt>, tr: seq<Event>, id: nat) {
    && (forall i | 0 <= i < |tr| :: tr[i].job.id < id)
    && (forall i | 0 <= i < |xs| :: xs[i].jobId < id)
  }

  ghost predicate RowsTell(rows: Rows, tr: seq<Event>) {
    Below(rows.attempts, tr, rows.nextId) && forall i | 0 <= i < |rows.jobs| :: Complete(rows.attempts, tr, rows.jobs[i].id)
  }

  ghost predicate AttemptsOk(s: State) { RowsTell(s.rows, s.trace) }

  lemma AttemptsAppend(xs: seq<Attempt>, x: Attempt, id: nat)
    ensures AttemptsOf(xs + [x], id) == AttemptsOf(xs, id) + if x.jobId == id then [x] else []
  {
    assert (xs + [x])[..|xs|] == xs;
  }

  lemma EndsAppend(tr: seq<Event>, e: Event, id: nat)
    ensures EndsOf(tr + [e], id) == EndsOf(tr, id) + if e.End? && e.job.id == id then [e] else []
  {
    assert (tr + [e])[..|tr|] == tr;
  }

  lemma {:induction false} NoAttempts(xs: seq<Attempt>, id: nat)
    requires forall i | 0 <= i < |xs| :: xs[i].jobId < id
    ensures AttemptsOf(xs, id) == []
  {
    if xs != [] { NoAttempts(xs[..|xs| - 1], id); }
  }

  lemma {:induction false} NoEnds(tr: seq<Event>, id: nat)
    requires forall i | 0 <= i < |tr| :: tr[i].job.id < id
    ensures EndsOf(tr, id) == []
  {
    if tr != [] { NoEnds(tr[..|tr| - 1], id); }
  }

  /** A job that was just inserted has neither. */
  lemma NewComplete(xs: seq<Attempt>, tr: seq<Event>, id: nat)
    requires Below(xs, tr, id)
    ensures Complete(xs, tr, id)
  {
    NoAttempts(xs, id);
    NoEnds(tr, id);
  }

  lemma InsertedTells(rows: Rows, tr: seq<Event>, r: Request, now: int)
    requires RowsTell(rows, tr)
    ensures RowsTell(Inserted(rows, r, now), tr)
  {
    NewComplete(rows.attempts, tr, rows.nextId);
  }

  lemma EnqueueAttempts(s: State, r: Request, now: int)
    requires AttemptsOk(s)
    ensures AttemptsOk(Enqueued(s, r, now))
  {
    PumpAdmits(Queued(s.(rows := Inserted(s.rows, r, now), clock := now), NewJob(r, s.rows.nextId, now)), r.conv);
    InsertedTells(s.rows, s.trace, r, now);
  }

  /** The job of a run was queued, so its id was handed out. */
  lemma RunBelow(s: State, k: Key)
    requires PushedOk(s) && k in s.runs
    ensures s.runs[k].job.id < s.rows.nextId
  {
    assert Entry(k.gen, s.runs[k].job) in s.pushed;
  }

  lemma FireAttempts(s: State, k: Key, now: int)
    requires AttemptsOk(s) && PushedOk(s) && CanFire(s, k, now)
    ensures AttemptsOk(Fired(s, k, now))
  {
    var t := Fired(s, k, now);
    RunBelow(s, k);
    if k.gen == s.Gen() { BeginAttempts(s.rows, s.trace, t.trace[|s.trace|]); }
  }

  lemma BeginAttempts(rows: Rows, tr: seq<Event>, e: Event)
    requires RowsTell(rows, tr) && e.Begin? && e.job.id < rows.nextId
    ensures RowsTell(rows, tr + [e])
  {
    forall i | 0 <= i < |rows.jobs| ensures Complete(rows.attempts, tr + [e], rows.jobs[i].id) {
      EndsAppend(tr, e, rows.jobs[i].id);
      assert Complete(rows.attempts, tr, rows.jobs[i].id);
    }
  }

  lemma TellsMore(xs: seq<Attempt>, es: seq<Event>, a: Attempt, e: Event)
    requires TellsAll(xs, es) && Tells(a, e)
    ensures TellsAll(xs + [a], es + [e])
  {}

  /** One answer more and its row. */
  lemma OneMore(xs: seq<Attempt>, tr: seq<Event>, a: Attempt, e: Event, id: nat)
    requires Complete(xs, tr, id) && Tells(a, e)
    ensures Complete(xs + [a], tr + [e], id)
  {
    AttemptsAppend(xs, a, id);
    EndsAppend(tr, e, id);
    TellsMore(AttemptsOf(xs, id), EndsOf(tr, id), a, e);
  }

  lemma AnswerAttempts(rows: Rows, tr: seq<Event>, t: Rows, a: Attempt, e: Event)
    requires RowsTell(rows, tr) && Tells(a, e) && t.attempts == rows.attempts + [a]
    requires t.nextId == rows.nextId && e.job.id < rows.nextId && |t.jobs| == |rows.jobs|
    requires forall i | 0 <= i < |rows.jobs| :: t.jobs[i].id == rows.jobs[i].id
    ensures RowsTell(t, tr + [e])
  {
    forall i | 0 <= i < |t.jobs| ensures Complete(t.attempts, tr + [e], t.jobs[i].id) { OneMore(rows.attempts, tr, a, e, rows.jobs[i].id); }
  }

  lemma RespondAttempts(s: State, k: Key, reply: Reply, now: int)
    requires AttemptsOk(s) && PushedOk(s) && CanRespond(s, k, now)
    ensures AttemptsOk(Responded(s, k, reply, now))
  {
    var t := Responded(s, k, reply, now);
    RunBelow(s, k);
    AnswerIsRecorded(s, k, reply, now);
    if k.gen == s.Gen() || reply.Status? {
      assert t.rows.attempts == s.rows.attempts + [t.rows.attempts[|s.rows.attempts|]] && t.trace == s.trace + [t.trace[|s.trace|]];
      AnswerAttempts(s.rows, s.trace, t.rows, t.rows.attempts[|s.rows.attempts|], t.trace[|s.trace|]);
    }
  }

  lemma StepAttempts(s: State, step: Step)
    requires Base(s) && AttemptsOk(s) && Enabled(s, step)
    ensures AttemptsOk(Apply(s, step))
  {
    match step
    case Enqueue(r, now) => EnqueueAttempts(s, r, now);
    case Fire(k, now) => FireAttempts(s, k, now);
    case Respond(k, reply, now) => RespondAttempts(s, k, reply, now);
    case Finally(k) => FinallyAttempts(s, k);
    case Cancel =>
    case Reset => ResetAttempts(s);
    case Restart => ResumeQueues(s, 0);
    case AwaitIdle(w) =>
  }

  lemma FinallyAttempts(s: State, k: Key)
    requires Structured(s) && AttemptsOk(s) && k in s.runs
    ensures AttemptsOk(Finalized(s, k))
  {
    if k.gen == s.Gen() { FinallyStructured(s, k); }
  }

  /** Deleted rows leave no attempts; their answers on the trace are of lower ids. */
  lemma ResetAttempts(s: State)
    requires AttemptsOk(s)
    ensures AttemptsOk(WasReset(s))
  {}

  lemma {:induction false} RunAttempts(s: State, steps: seq<Step>)
    requires Base(s) && AttemptsOk(s) && CanRun(s, steps)
    ensures AttemptsOk(RunAll(s, steps))
    decreases |steps|
  {
    if steps != [] {
      StepBase(s, steps[0]);
      StepAttempts(s, steps[0]);
      RunAttempts(Apply(s, steps[0]), steps[1..]);
    }
  }

  // ---- main results ----

  /** Attempt `n` of job `id` was answered: one attempt row, one event, and the end of the job's row if that was the last. */
  ghost predicate Recorded(s: State, t: State, id: nat, n: nat, reply: Reply, now: int) {
    && |t.rows.attempts| == |s.rows.attempts| + 1 && t.rows.attempts[..|s.rows.attempts|] == s.rows.attempts
    && |t.trace| == |s.trace| + 1 && t.trace[..|s.trace|] == s.trace
    && var a := t.rows.attempts[|s.rows.attempts|];
    && Tells(a, t.trace[|s.trace|]) && a.jobId == id && a.n == n && a.at == now
    && (forall code :: reply == Status(code) <==> a.status == Some(code))
    && (forall error :: reply == NetworkError(error) <==> a.error == Some(error))
    && t.rows.nextId == s.rows.nextId && |t.rows.jobs| == |s.rows.jobs|
    && forall i | 0 <= i < |s.rows.jobs| ::
         t.rows.jobs[i] == if s.rows.jobs[i].id != id || (reply != Status(200) && n <= |s.cfg.delays|) then s.rows.jobs[i]
                           else s.rows.jobs[i].(state := if reply == Status(200) then Succeeded else Failed, finishedAt := Some(now))
  }

  /**
   An answer leaves one attempt row behind, with the number of the attempt, the time, and the status or else the error
   of the reply; only a failed request of a cancelled run leaves none. The job's own row ends if that was a 200 or the
   last attempt, and no other row changes.
   */
  lemma AnswerIsRecorded(s: State, k: Key, reply: Reply, now: int)
    requires Enabled(s, Respond(k, reply, now))
    ensures if k.gen < s.Gen() && reply.NetworkError? then Apply(s, Respond(k, reply, now)).rows == s.rows && Apply(s, Respond(k, reply, now)).trace == s.trace
            else Recorded(s, Apply(s, Respond(k, reply, now)), s.runs[k].job.id, s.runs[k].phase.n, reply, now)
  {}

  /**
   In every run, through retries, resets, cancels and restarts: the attempt rows of each webhook that still has a row
   are, in order, exactly the answers to its attempts, number, status and time, with an error where there was no answer.
   */
  lemma AttemptsMatchTrace(s: State, i: nat)
    requires Reachable(s) && i < |s.rows.jobs|
    ensures var id := s.rows.jobs[i].id; TellsAll(AttemptsOf(s.rows.attempts, id), EndsOf(s.trace, id))
  {
    var cfg: Config, clock: int, steps: seq<Step> :|
      cfg.Ok() && CanRun(Initial(cfg, EmptyRows, clock), steps) && s == RunAll(Initial(cfg, EmptyRows, clock), steps);
    InitialInv(cfg, clock);
    RunAttempts(Initial(cfg, EmptyRows, clock), steps);
    assert Complete(s.rows.attempts, s.trace, s.rows.jobs[i].id);
  }
}
