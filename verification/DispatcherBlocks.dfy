/**
 What Comdove can observe of one conversation within one generation: job after job in the order they were queued,
 each a block of attempts that ends with a 200 or with the last retry, none early.
 */
module DispatcherBlocks {
  import opened Prelude
  import opened JobStore
  import opened Dispatcher

  // ---- the reference: blocks of attempts ----

  datatype Try = Try(begin: int, end: int, status: Option<int>)

  /** When may the attempt after `tries` start? */
  function Ready(cfg: Config, job: Job, tries: seq<Try>): int
    requires |tries| <= |cfg.delays|
  {
    if tries == [] then job.notBefore else tries[|tries| - 1].end + cfg.delays[|tries| - 1]
  }

  /** Attempts that were made in time, one after the other, all but the last in vain. */
  ghost predicate Sequential(cfg: Config, job: Job, tries: seq<Try>) {
    && |tries| <= cfg.MaxAttempts()
    && (forall i | 0 <= i < |tries| :: Ready(cfg, job, tries[..i]) <= tries[i].begin <= tries[i].end)
    && (forall i | 0 <= i < |tries| - 1 :: tries[i].status != Some(200))
  }

  /** A finished job: it ends on a 200, or after every retry. */
  ghost predicate Complete(cfg: Config, job: Job, tries: seq<Try>) {
    && tries != []
    && Sequential(cfg, job, tries)
    && (tries[|tries| - 1].status == Some(200) || |tries| == cfg.MaxAttempts())
  }

  /** The job being served: every attempt so far failed and at least one is left. */
  ghost predicate Partial(cfg: Config, job: Job, tries: seq<Try>) {
    && Sequential(cfg, job, tries)
    && |tries| < cfg.MaxAttempts()
    && (tries != [] ==> tries[|tries| - 1].status != Some(200))
  }

  function RenderTries(g: nat, job: Job, tries: seq<Try>): seq<Event> {
    if tries == [] then [] else
      var i := |tries| - 1;
      RenderTries(g, job, tries[..i]) + [Begin(g, job, i + 1, tries[i].begin), End(g, job, i + 1, tries[i].status, tries[i].end)]
  }

  function Render(g: nat, jobs: seq<Job>, blocks: seq<seq<Try>>): seq<Event>
    requires |blocks| <= |jobs|
  {
    if blocks == [] then [] else
      var i := |blocks| - 1;
      Render(g, jobs, blocks[..i]) + RenderTries(g, jobs[i], blocks[i])
  }

  function RenderOpen(g: nat, job: Job, n: nat, open: Option<int>): seq<Event> {
    if open.Some? then [Begin(g, job, n + 1, open.value)] else []
  }

  /** `tr` serves a prefix of `jobs` in complete blocks, then possibly part of the next job, and nothing else. */
  ghost predicate ServedBy(cfg: Config, g: nat, jobs: seq<Job>, tr: seq<Event>,
                           blocks: seq<seq<Try>>, tries: seq<Try>, open: Option<int>) {
    && |blocks| <= |jobs|
    && (forall i | 0 <= i < |blocks| :: Complete(cfg, jobs[i], blocks[i]))
    && if |blocks| == |jobs| then tries == [] && open == None && tr == Render(g, jobs, blocks)
       else
         var job := jobs[|blocks|];
         && Partial(cfg, job, tries)
         && (open.Some? ==> open.value >= Ready(cfg, job, tries))
         && tr == Render(g, jobs, blocks) + RenderTries(g, job, tries) + RenderOpen(g, job, |tries|, open)
  }

  // ---- the recogniser the invariant uses ----

  /** `k` jobs are served; `tries` are the failed attempts of the next one; `open` is its attempt on the wire. */
  datatype Scan = Reject | At(k: nat, tries: seq<Try>, open: Option<int>)

  function ScanStep(cfg: Config, g: nat, jobs: seq<Job>, sc: Scan, e: Event): Scan {
    if sc.Reject? || sc.k >= |jobs| || e.gen != g || e.job != jobs[sc.k] || e.n != |sc.tries| + 1 || |sc.tries| > |cfg.delays| then Reject
    else match e
      case Begin(_, job, n, at) =>
        if sc.open.None? && at >= Ready(cfg, job, sc.tries) then sc.(open := Some(at)) else Reject
      case End(_, job, n, status, at) =>
        if sc.open.None? || at < sc.open.value then Reject
        else if status == Some(200) || n == cfg.MaxAttempts() then At(sc.k + 1, [], None)
        else At(sc.k, sc.tries + [Try(sc.open.value, at, status)], None)
  }

  function ScanAll(cfg: Config, g: nat, jobs: seq<Job>, tr: seq<Event>): Scan {
    if tr == [] then At(0, [], None)
    else ScanStep(cfg, g, jobs, ScanAll(cfg, g, jobs, tr[..|tr| - 1]), tr[|tr| - 1])
  }

  lemma ScanAppend(cfg: Config, g: nat, jobs: seq<Job>, tr: seq<Event>, e: Event)
    ensures ScanAll(cfg, g, jobs, tr + [e]) == ScanStep(cfg, g, jobs, ScanAll(cfg, g, jobs, tr), e)
  {
    assert (tr + [e])[..|tr|] == tr;
  }

  /** Jobs queued later do not change how the trace so far reads. */
  lemma {:induction false} ScanMoreJobs(cfg: Config, g: nat, jobs: seq<Job>, job: Job, tr: seq<Event>)
    requires ScanAll(cfg, g, jobs, tr).At?
    ensures ScanAll(cfg, g, jobs + [job], tr) == ScanAll(cfg, g, jobs, tr)
  {
    if tr != [] { ScanMoreJobs(cfg, g, jobs, job, tr[..|tr| - 1]); }
  }

  lemma RenderTriesAppend(g: nat, job: Job, tries: seq<Try>, t: Try)
    ensures RenderTries(g, job, tries + [t])
         == RenderTries(g, job, tries) + [Begin(g, job, |tries| + 1, t.begin)] + [End(g, job, |tries| + 1, t.status, t.end)]
  {
    assert (tries + [t])[..|tries|] == tries;
  }

  lemma RenderAppend(g: nat, jobs: seq<Job>, blocks: seq<seq<Try>>, b: seq<Try>)
    requires |blocks| < |jobs|
    ensures Render(g, jobs, blocks + [b]) == Render(g, jobs, blocks) + RenderTries(g, jobs[|blocks|], b)
  {
    assert (blocks + [b])[..|blocks|] == blocks;
  }

  lemma SequentialAppend(cfg: Config, job: Job, tries: seq<Try>, t: Try)
    requires Partial(cfg, job, tries)
    requires Ready(cfg, job, tries) <= t.begin <= t.end
    ensures Sequential(cfg, job, tries + [t])
  {
    var ts := tries + [t];
    forall i | 0 <= i < |ts| ensures Ready(cfg, job, ts[..i]) <= ts[i].begin <= ts[i].end {
      if i < |tries| { assert ts[..i] == tries[..i]; } else { assert ts[..i] == tries; }
    }
  }

  lemma ServeBegin(cfg: Config, g: nat, jobs: seq<Job>, tr: seq<Event>, blocks: seq<seq<Try>>, tries: seq<Try>, at: int)
    requires ServedBy(cfg, g, jobs, tr, blocks, tries, None) && |blocks| < |jobs|
    requires at >= Ready(cfg, jobs[|blocks|], tries)
    ensures ServedBy(cfg, g, jobs, tr + [Begin(g, jobs[|blocks|], |tries| + 1, at)], blocks, tries, Some(at))
  {}

  lemma ServeEnd(cfg: Config, g: nat, jobs: seq<Job>, tr: seq<Event>, blocks: seq<seq<Try>>, tries: seq<Try>, t: Try)
    requires ServedBy(cfg, g, jobs, tr, blocks, tries, Some(t.begin)) && |blocks| < |jobs|
    requires t.begin <= t.end
    ensures var tr' := tr + [End(g, jobs[|blocks|], |tries| + 1, t.status, t.end)];
            if t.status == Some(200) || |tries| + 1 == cfg.MaxAttempts()
            then ServedBy(cfg, g, jobs, tr', blocks + [tries + [t]], [], None)
            else ServedBy(cfg, g, jobs, tr', blocks, tries + [t], None)
  {
    var job := jobs[|blocks|];
    var tr' := tr + [End(g, job, |tries| + 1, t.status, t.end)];
    RenderTriesAppend(g, job, tries, t);
    SequentialAppend(cfg, job, tries, t);
    assert tr' == Render(g, jobs, blocks) + RenderTries(g, job, tries + [t]);
    if t.status == Some(200) || |tries| + 1 == cfg.MaxAttempts() {
      var bs := blocks + [tries + [t]];
      RenderAppend(g, jobs, blocks, tries + [t]);
      if |bs| < |jobs| {
        assert tr' == Render(g, jobs, bs) + RenderTries(g, jobs[|bs|], []) + RenderOpen(g, jobs[|bs|], 0, None);
      }
    }
  }

  /** Every accepted trace is a concatenation of blocks, one per job, in order. */
  lemma {:induction false} ScanIsServed(cfg: Config, g: nat, jobs: seq<Job>, tr: seq<Event>) returns (blocks: seq<seq<Try>>)
    requires ScanAll(cfg, g, jobs, tr).At?
    ensures var sc := ScanAll(cfg, g, jobs, tr);
            |blocks| == sc.k && ServedBy(cfg, g, jobs, tr, blocks, sc.tries, sc.open)
  {
    if tr == [] {
      blocks := [];
    } else {
      var init, e := tr[..|tr| - 1], tr[|tr| - 1];
      var sc := ScanAll(cfg, g, jobs, init);
      assert tr == init + [e];
      var b0 := ScanIsServed(cfg, g, jobs, init);
      blocks := b0;
      if e.Begin? {
        ServeBegin(cfg, g, jobs, init, b0, sc.tries, e.at);
      } else {
        var t := Try(sc.open.value, e.at, e.status);
        ServeEnd(cfg, g, jobs, init, b0, sc.tries, t);
        if e.status == Some(200) || e.n == cfg.MaxAttempts() { blocks := b0 + [sc.tries + [t]]; }
      }
    }
  }

  // ---- projections of the history ----

  /** The jobs queued for conversation `c` in generation `g`, in order. */
  function PushedOf(es: seq<Entry>, g: nat, c: nat): seq<Job> {
    if es == [] then [] else
      var e := es[|es| - 1];
      PushedOf(es[..|es| - 1], g, c) + if e.gen == g && e.job.conv == c then [e.job] else []
  }

  function TraceOf(tr: seq<Event>, g: nat, c: nat): seq<Event> {
    if tr == [] then [] else
      var e := tr[|tr| - 1];
      TraceOf(tr[..|tr| - 1], g, c) + if e.gen == g && e.job.conv == c then [e] else []
  }

  lemma PushedAppend(es: seq<Entry>, e: Entry, g: nat, c: nat)
    ensures PushedOf(es + [e], g, c) == PushedOf(es, g, c) + if e.gen == g && e.job.conv == c then [e.job] else []
  {
    assert (es + [e])[..|es|] == es;
  }

  lemma TraceAppend(tr: seq<Event>, e: Event, g: nat, c: nat)
    ensures TraceOf(tr + [e], g, c) == TraceOf(tr, g, c) + if e.gen == g && e.job.conv == c then [e] else []
  {
    assert (tr + [e])[..|tr|] == tr;
  }

  lemma {:induction false} PushedNone(es: seq<Entry>, g: nat, c: nat)
    requires forall i | 0 <= i < |es| :: es[i].gen != g
    ensures PushedOf(es, g, c) == []
  {
    if es != [] { PushedNone(es[..|es| - 1], g, c); }
  }

  lemma {:induction false} TraceNone(tr: seq<Event>, g: nat, c: nat)
    requires forall i | 0 <= i < |tr| :: tr[i].gen != g
    ensures TraceOf(tr, g, c) == []
  {
    if tr != [] { TraceNone(tr[..|tr| - 1], g, c); }
  }
}
