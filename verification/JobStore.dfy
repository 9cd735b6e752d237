/** The durable side of the webhook dispatcher: one row per webhook, one per HTTP attempt. */
module JobStore {
  import opened Prelude

  datatype JobKind = Inbound | Sent | Delivered | Read
  datatype JobState = Pending | Succeeded | Failed

  /** What an envelope says besides its wamid and kind; fixed at enqueue, like the bytes it stands for. */
  datatype Payload = Payload(phone: string, customer: string, body: string, at: int)

  /** `notBefore` is kept in memory only. */
  datatype Job = Job(id: nat, conv: nat, wamid: string, kind: JobKind, payload: Payload, notBefore: int,
                     state: JobState, createdAt: int, finishedAt: Option<int>)

  datatype Request = Request(conv: nat, wamid: string, kind: JobKind, payload: Payload, notBefore: int)

  datatype Attempt = Attempt(jobId: nat, n: nat, status: Option<int>, error: Option<string>, at: int)

  /** The rows, in insertion order (the iteration order of a JavaScript Map). */
  datatype Rows = Rows(jobs: seq<Job>, attempts: seq<Attempt>, nextId: nat)

  const EmptyRows := Rows([], [], 1)

  function NewJob(r: Request, id: nat, now: int): Job {
    Job(id, r.conv, r.wamid, r.kind, r.payload, r.notBefore, Pending, now, None)
  }

  function Inserted(rows: Rows, r: Request, now: int): Rows {
    rows.(jobs := rows.jobs + [NewJob(r, rows.nextId, now)], nextId := rows.nextId + 1)
  }

  function FinishedJobs(jobs: seq<Job>, id: nat, state: JobState, at: int): (r: seq<Job>)
    ensures |r| == |jobs|
    ensures forall i | 0 <= i < |jobs| ::
              r[i] == if jobs[i].id == id then jobs[i].(state := state, finishedAt := Some(at)) else jobs[i]
  {
    seq(|jobs|, i requires 0 <= i < |jobs| =>
      if jobs[i].id == id then jobs[i].(state := state, finishedAt := Some(at)) else jobs[i])
  }

  function Finished(rows: Rows, id: nat, state: JobState, at: int): Rows {
    rows.(jobs := FinishedJobs(rows.jobs, id, state, at))
  }

  function Cleared(rows: Rows): Rows {
    rows.(jobs := [], attempts := [])
  }

  /** The row with this id. */
  function RowOf(jobs: seq<Job>, id: nat): (r: Option<Job>)
    ensures r.Some? ==> r.value in jobs && r.value.id == id
    ensures r.None? ==> forall i | 0 <= i < |jobs| :: jobs[i].id != id
  {
    if jobs == [] then None else if jobs[0].id == id then Some(jobs[0]) else RowOf(jobs[1..], id)
  }

  /** The message of a job that still has a row. */
  function WamidOf(jobs: seq<Job>, id: nat): seq<string> {
    match RowOf(jobs, id) case Some(j) => [j.wamid] case None => []
  }

  lemma {:induction false} FinishedWamid(jobs: seq<Job>, id: nat, st: JobState, at: int)
    ensures WamidOf(FinishedJobs(jobs, id, st, at), id) == WamidOf(jobs, id)
  {
    if jobs != [] {
      assert FinishedJobs(jobs, id, st, at)[1..] == FinishedJobs(jobs[1..], id, st, at);
      FinishedWamid(jobs[1..], id, st, at);
    }
  }

  /** Ids are handed out in order and never twice, not even across `Cleared`. */
  ghost predicate RowsOk(rows: Rows) {
    && (forall i | 0 <= i < |rows.jobs| :: rows.jobs[i].id < rows.nextId)
    && (forall i, j | 0 <= i < j < |rows.jobs| :: rows.jobs[i].id < rows.jobs[j].id)
  }

  /** What survives a restart of a queued job: everything but its in-memory `notBefore`. */
  function Core(j: Job): Job { j.(notBefore := 0) }

  function Cores(js: seq<Job>): (r: seq<Job>)
    ensures |r| == |js| && forall i | 0 <= i < |js| :: r[i] == Core(js[i])
  {
    seq(|js|, i requires 0 <= i < |js| => Core(js[i]))
  }

  function AllPending(jobs: seq<Job>): seq<Job> {
    if jobs == [] then [] else
      var last := jobs[|jobs| - 1];
      AllPending(jobs[..|jobs| - 1]) + if last.state.Pending? then [last] else []
  }

  /** The unfinished jobs of one conversation, oldest first. */
  function PendingOf(jobs: seq<Job>, c: nat): seq<Job> {
    if jobs == [] then [] else
      var last := jobs[|jobs| - 1];
      PendingOf(jobs[..|jobs| - 1], c) + if last.state.Pending? && last.conv == c then [Core(last)] else []
  }

  function RemoveId(jobs: seq<Job>, id: nat): seq<Job> {
    if jobs == [] then [] else
      var last := jobs[|jobs| - 1];
      RemoveId(jobs[..|jobs| - 1], id) + if last.id == id then [] else [last]
  }

  lemma PendingOfAppend(jobs: seq<Job>, j: Job, c: nat)
    ensures PendingOf(jobs + [j], c) == PendingOf(jobs, c) + if j.state.Pending? && j.conv == c then [Core(j)] else []
  {
    assert (jobs + [j])[..|jobs|] == jobs;
  }

  /** `PendingOf` lists exactly the unfinished rows of the conversation, in id order. */
  lemma {:induction false} PendingOfRows(jobs: seq<Job>, c: nat)
    requires forall i, j | 0 <= i < j < |jobs| :: jobs[i].id < jobs[j].id
    ensures forall j :: j in PendingOf(jobs, c) <==> exists i :: 0 <= i < |jobs| && jobs[i].state.Pending? && jobs[i].conv == c && Core(jobs[i]) == j
    ensures forall a, b | 0 <= a < b < |PendingOf(jobs, c)| :: PendingOf(jobs, c)[a].id < PendingOf(jobs, c)[b].id
  {
    if jobs != [] {
      var n := |jobs| - 1;
      var init, last := jobs[..n], jobs[n];
      PendingOfRows(init, c);
      forall j
        ensures j in PendingOf(jobs, c) <==> exists i :: 0 <= i < |jobs| && jobs[i].state.Pending? && jobs[i].conv == c && Core(jobs[i]) == j
      {
        if j in PendingOf(init, c) {
          var i :| 0 <= i < |init| && init[i].state.Pending? && init[i].conv == c && Core(init[i]) == j;
          assert jobs[i] == init[i];
        }
        if i :| 0 <= i < |jobs| && jobs[i].state.Pending? && jobs[i].conv == c && Core(jobs[i]) == j {
          if i < n { assert init[i] == jobs[i]; }
        }
      }
      forall a | 0 <= a < |PendingOf(init, c)|
        ensures PendingOf(init, c)[a].id < last.id
      {
        assert PendingOf(init, c)[a] in PendingOf(init, c);
        var i :| 0 <= i < |init| && Core(init[i]) == PendingOf(init, c)[a];
        assert jobs[i].id < jobs[n].id;
      }
    }
  }

  lemma PendingOfLast(jobs: seq<Job>, c: nat)
    requires jobs != []
    ensures var n := |jobs| - 1;
            PendingOf(jobs, c) == if jobs[n].state.Pending? && jobs[n].conv == c then PendingOf(jobs[..n], c) + [Core(jobs[n])] else PendingOf(jobs[..n], c)
  {
    assert PendingOf(jobs[..|jobs| - 1], c) + [] == PendingOf(jobs[..|jobs| - 1], c);
  }

  lemma RemoveIdAppend(jobs: seq<Job>, j: Job, id: nat)
    ensures RemoveId(jobs + [j], id) == if j.id == id then RemoveId(jobs, id) else RemoveId(jobs, id) + [j]
  {
    assert (jobs + [j])[..|jobs|] == jobs;
  }

  /** Finishing a job takes it out of the unfinished list and touches no other. */
  lemma {:induction false} PendingOfFinished(jobs: seq<Job>, id: nat, st: JobState, at: int, c: nat)
    requires !st.Pending?
    ensures PendingOf(FinishedJobs(jobs, id, st, at), c) == RemoveId(PendingOf(jobs, c), id)
  {
    if jobs != [] {
      var n := |jobs| - 1;
      var done := FinishedJobs(jobs, id, st, at);
      PendingOfFinished(jobs[..n], id, st, at, c);
      assert done[..n] == FinishedJobs(jobs[..n], id, st, at);
      PendingOfLast(jobs, c);
      PendingOfLast(done, c);
      if jobs[n].state.Pending? && jobs[n].conv == c { RemoveIdAppend(PendingOf(jobs[..n], c), Core(jobs[n]), id); }
    }
  }

  lemma {:induction false} RemoveIdAbsent(jobs: seq<Job>, id: nat)
    requires forall i | 0 <= i < |jobs| :: jobs[i].id != id
    ensures RemoveId(jobs, id) == jobs
  {
    if jobs != [] { RemoveIdAbsent(jobs[..|jobs| - 1], id); }
  }

  lemma {:induction false} RemoveIdHead(jobs: seq<Job>)
    requires jobs != []
    requires forall i | 1 <= i < |jobs| :: jobs[i].id != jobs[0].id
    ensures RemoveId(jobs, jobs[0].id) == jobs[1..]
  {
    if |jobs| > 1 {
      var init := jobs[..|jobs| - 1];
      RemoveIdHead(init);
      assert init[1..] + [jobs[|jobs| - 1]] == jobs[1..];
    }
  }

  /** The in-memory store; every implementation of the job-store contract behaves like its `View`. */
  class MemoryJobStore {
    var jobs: seq<Job>
    var attemptRows: seq<Attempt>
    var nextId: nat

    ghost function View(): Rows
      reads this
    {
      Rows(jobs, attemptRows, nextId)
    }

    constructor ()
      ensures View() == EmptyRows && RowsOk(View())
    {
      jobs, attemptRows, nextId := [], [], 1;
    }

    /** A new id, above every id ever handed out, even by rows since deleted. */
    method Insert(r: Request, now: int) returns (job: Job)
      modifies this
      ensures View() == Inserted(old(View()), r, now) && job == NewJob(r, old(nextId), now)
      ensures old(RowsOk(View())) ==> RowsOk(View()) && forall i | 0 <= i < old(|jobs|) :: old(jobs)[i].id < job.id
    {
      job := Job(nextId, r.conv, r.wamid, r.kind, r.payload, r.notBefore, Pending, now, None);
      nextId := nextId + 1;
      jobs := jobs + [job];
    }

    method Get(id: nat) returns (job: Option<Job>)
      ensures job == RowOf(jobs, id)
    {
      for i := 0 to |jobs|
        invariant RowOf(jobs, id) == RowOf(jobs[i..], id)
      {
        assert jobs[i..][1..] == jobs[i + 1..];
        if jobs[i].id == id { return Some(jobs[i]); }
      }
      return None;
    }

    method AddAttempt(a: Attempt)
      modifies this
      ensures View() == old(View()).(attempts := old(attemptRows) + [a])
    {
      attemptRows := attemptRows + [a];
    }

    method Finish(id: nat, state: JobState, at: int)
      modifies this
      ensures View() == Finished(old(View()), id, state, at)
    {
      var done: seq<Job> := [];
      for i := 0 to |jobs|
        invariant View() == old(View())
        invariant done == FinishedJobs(jobs, id, state, at)[..i]
      {
        done := done + [if jobs[i].id == id then jobs[i].(state := state, finishedAt := Some(at)) else jobs[i]];
      }
      jobs := done;
    }

    /** The unfinished jobs in id order, for `resume`. */
    method PendingJobs() returns (r: seq<Job>)
      ensures r == AllPending(jobs)
    {
      r := [];
      for i := 0 to |jobs|
        invariant r == AllPending(jobs[..i])
      {
        assert jobs[..i + 1][..i] == jobs[..i];
        if jobs[i].state.Pending? { r := r + [jobs[i]]; }
      }
      assert jobs[..|jobs|] == jobs;
    }

    method Clear()
      modifies this
      ensures View() == Cleared(old(View()))
    {
      jobs, attemptRows := [], [];
    }
  }
}
