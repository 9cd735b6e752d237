/** What the change listener hears: once of every recorded attempt, once more of every end, and of nothing else. */
module DispatcherHeard {
  import opened Prelude
  import opened JobStore
  import opened Dispatcher
  import opened DispatcherSlots
  import opened DispatcherStore
  import opened DispatcherOrder
  import opened DispatcherRuns
  import opened DispatcherAttempts

  function Times(wamids: seq<string>, w: string): nat {
    if wamids == [] then 0 else Times(wamids[..|wamids| - 1], w) + if wamids[|wamids| - 1] == w then 1 else 0
  }

  /** An attempt of the webhook at this row was recorded. */
  predicate Attempted(d: State, t: State, i: nat)
    requires i < |d.rows.jobs|
  {
    |t.rows.attempts| > |d.rows.attempts| && t.rows.attempts[|d.rows.attempts|].jobId == d.rows.jobs[i].id
  }

  /** The webhook at this row came to its end. */
  predicate EndedNow(d: State, t: State, i: nat)
    requires i < |d.rows.jobs|
  {
    i < |t.rows.jobs| && d.rows.jobs[i].finishedAt.None? && t.rows.jobs[i].finishedAt.Some?
  }

  /** What the listener hears of this message: once for a recorded attempt, once more if the webhook ended with it. */
  ghost predicate Heard(d: State, t: State, w: string, heard: int) {
    && (forall i | 0 <= i < |d.rows.jobs| && d.rows.jobs[i].wamid == w && Attempted(d, t, i) :: heard == if EndedNow(d, t, i) then 2 else 1)
    && ((forall i | 0 <= i < |d.rows.jobs| && d.rows.jobs[i].wamid == w :: !Attempted(d, t, i)) ==> heard == 0)
  }

  lemma OneTwo(w: string)
    ensures Times([], w) == 0 && forall x :: Times([x], w) == (if x == w then 1 else 0) && Times([x, x], w) == if x == w then 2 else 0
  {
    forall x ensures Times([x], w) == (if x == w then 1 else 0) && Times([x, x], w) == if x == w then 2 else 0 {
      assert [x][..0] == [] && [x, x][..1] == [x];
    }
  }

  /** The row of a job, if it has one, is the only one with its id. */
  lemma OwnRow(jobs: seq<Job>, id: nat, i: nat)
    requires Ascending(jobs) && i < |jobs| && jobs[i].id == id
    ensures RowOf(jobs, id) == Some(jobs[i])
  {
    var r := RowOf(jobs, id).value;
    var j :| 0 <= j < |jobs| && jobs[j] == r;
    UniqueId(jobs, i, j);
  }

  /** A job that runs has a row that is not finished, or none at all. */
  lemma RunningRow(d: State, k: Key, i: nat)
    requires Inv(d) && k in d.runs && d.runs[k].phase.InFlight? && i < |d.rows.jobs| && d.rows.jobs[i].id == d.runs[k].job.id
    ensures k.gen == d.Gen() && d.rows.jobs[i].finishedAt.None?
  {
    OldHasNoRow(d, k);
    var j := HeadIsOldest(d, k);
    UniqueId(d.rows.jobs, i, j);
    assert Verdicts(d.cfg, d.rows.jobs, d.trace);
  }

  lemma OldHasNoRow(d: State, k: Key)
    requires StoreOk(d) && k in d.runs
    ensures k.gen < d.Gen() ==> Absent(d.rows.jobs, d.runs[k].job.id)
  {}

  /** An answer that ends its job, or one that does not, is announced as often if the job has a row. */
  lemma RowHeard(d: State, t: State, k: Key, reply: Reply, now: int, i: nat)
    requires Inv(d) && CanRespond(d, k, now) && Recorded(d, t, d.runs[k].job.id, d.runs[k].phase.n, reply, now)
    requires !(k.gen < d.Gen() && reply.NetworkError?) && i < |d.rows.jobs| && Attempted(d, t, i)
    ensures Times(Announced(d, k, reply), d.rows.jobs[i].wamid) == if EndedNow(d, t, i) then 2 else 1
  {
    OneTwo(d.rows.jobs[i].wamid);
    OwnRow(d.rows.jobs, d.runs[k].job.id, i);
    RunningRow(d, k, i);
  }

  lemma NoRowHeard(d: State, t: State, k: Key, reply: Reply, now: int, w: string)
    requires CanRespond(d, k, now) && Recorded(d, t, d.runs[k].job.id, d.runs[k].phase.n, reply, now)
    requires forall i | 0 <= i < |d.rows.jobs| && d.rows.jobs[i].wamid == w :: !Attempted(d, t, i)
    ensures Times(Announced(d, k, reply), w) == 0
  {
    var r := RowOf(d.rows.jobs, d.runs[k].job.id);
    OneTwo(w);
    if r.Some? { var i :| 0 <= i < |d.rows.jobs| && d.rows.jobs[i] == r.value; }
  }

  lemma RecordedHeard(d: State, t: State, k: Key, reply: Reply, now: int, w: string)
    requires Inv(d) && CanRespond(d, k, now) && Recorded(d, t, d.runs[k].job.id, d.runs[k].phase.n, reply, now)
    requires !(k.gen < d.Gen() && reply.NetworkError?)
    ensures Heard(d, t, w, Times(Announced(d, k, reply), w))
  {
    forall i | 0 <= i < |d.rows.jobs| && d.rows.jobs[i].wamid == w && Attempted(d, t, i)
      ensures Times(Announced(d, k, reply), w) == if EndedNow(d, t, i) then 2 else 1
    {
      RowHeard(d, t, k, reply, now, i);
    }
    if forall i | 0 <= i < |d.rows.jobs| && d.rows.jobs[i].wamid == w :: !Attempted(d, t, i) { NoRowHeard(d, t, k, reply, now, w); }
  }

  lemma AnswerHeard(d: State, k: Key, reply: Reply, now: int, w: string)
    requires Inv(d) && CanRespond(d, k, now)
    ensures Heard(d, Apply(d, Respond(k, reply, now)), w, Times(Announced(d, k, reply), w))
  {
    AnswerIsRecorded(d, k, reply, now);
    if !(k.gen < d.Gen() && reply.NetworkError?) { RecordedHeard(d, Apply(d, Respond(k, reply, now)), k, reply, now, w); }
  }

  /** Only an answer records an attempt. */
  lemma OthersUnheard(d: State, step: Step, w: string)
    requires Structured(d) && Enabled(d, step) && !step.Enqueue? && !step.Respond?
    ensures Heard(d, Apply(d, step), w, 0)
  {
    match step
    case Finally(k) => if k.gen == d.Gen() { FinallyStructured(d, k); }
    case Restart => ResumeQueues(d, 0);
    case _ =>
  }
}
