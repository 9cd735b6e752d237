/** Bounded bypass: a waiting conversation is overtaken only by those ahead of it when it joined the line. */
module DispatcherBypass {
  import opened Prelude
  import opened JobStore
  import opened Dispatcher
  import opened DispatcherSlots
  import opened DispatcherStore
  import opened DispatcherRuns

  /** The running conversations and those standing before position `i` of the line. */
  function Ahead(s: State, i: nat): set<nat>
    requires i <= |s.waiting|
  {
    s.running + Elems(s.waiting[..i])
  }

  /** The line only moves up: some of its front is admitted, newcomers stand at the end. */
  ghost predicate LineMoves(s: State, t: State, n: nat) {
    && n <= |s.waiting| && |s.waiting| - n <= |t.waiting|
    && t.waiting[..|s.waiting| - n] == s.waiting[n..]
    && (n > 0 ==> t.waiting == s.waiting[n..])
    && (s.waiting != [] ==> t.running <= s.running + Elems(s.waiting[..n]))
  }

  lemma FillMovesLine(p: State, c: nat, s: State) returns (n: nat)
    requires Scheduled(p) && c !in p.waiting && p.waiting == s.waiting && p.running <= s.running
    ensures LineMoves(s, SettleIdle(Fill(p, c)), n)
  {
    n := FillInOrder(p, c);
    SettledKeeps(Fill(p, c));
  }

  lemma FreedLine(s: State, k: Key)
    requires Slots(s) && RunsOk(s) && k in s.runs && k.gen == s.Gen()
    ensures var p := Pump(Freed(s, k), k.conv); Scheduled(p) && k.conv !in p.waiting && p.waiting == s.waiting && p.running <= s.running
  {
    FreedScheduled(s, k);
    PumpSchedules(Freed(s, k), k.conv);
    assert k.conv in s.running;
  }

  lemma FinallyMovesLine(s: State, k: Key) returns (n: nat)
    requires Structured(s) && k in s.runs
    ensures LineMoves(s, Finalized(s, k), n)
  {
    n := 0;
    if k.gen == s.Gen() {
      FreedLine(s, k);
      FinalizedIs(s, k);
      n := FillMovesLine(Pump(Freed(s, k), k.conv), k.conv, s);
    }
  }

  lemma EnqueueMovesLine(s: State, r: Request, now: int)
    requires Structured(s)
    ensures LineMoves(s, Enqueued(s, r, now), 0)
  {
    var s1 := s.(rows := Inserted(s.rows, r, now), clock := now);
    assert forall c: nat :: s1.Queue(c) == s.Queue(c);
    PushSlots(s1, NewJob(r, s.rows.nextId, now));
  }

  lemma StepMovesLine(s: State, step: Step) returns (n: nat)
    requires Structured(s) && Enabled(s, step) && !NewGeneration(step)
    ensures LineMoves(s, Apply(s, step), n)
  {
    n := 0;
    match step
    case Enqueue(r, now) => EnqueueMovesLine(s, r, now);
    case Fire(k, now) =>
    case Respond(k, reply, now) =>
    case Finally(k) => n := FinallyMovesLine(s, k);
    case AwaitIdle(w) =>
  }

  lemma LineKeepsAhead(s: State, t: State, n: nat, i: nat)
    requires LineMoves(s, t, n) && n <= i < |s.waiting|
    ensures i - n < |t.waiting| && t.waiting[i - n] == s.waiting[i] && Ahead(t, i - n) <= Ahead(s, i)
  {
    assert t.waiting[i - n] == t.waiting[..|s.waiting| - n][i - n] == s.waiting[n..][i - n];
    forall c | c in Ahead(t, i - n) ensures c in Ahead(s, i) {
      if c in t.running {
        if c !in s.running {
          var a :| 0 <= a < n && s.waiting[..n][a] == c;
          assert s.waiting[..i][a] == c;
        }
      } else {
        var a :| 0 <= a < i - n && t.waiting[..i - n][a] == c;
        assert t.waiting[a] == t.waiting[..|s.waiting| - n][a] == s.waiting[n..][a];
        assert s.waiting[..i][a + n] == c;
      }
    }
  }

  /** Conversation `c` stands in line in every state of the run. */
  ghost predicate WaitsThroughout(s: State, steps: seq<Step>, c: nat)
    requires CanRun(s, steps)
    decreases |steps|
  {
    c in s.waiting && (steps == [] || WaitsThroughout(Apply(s, steps[0]), steps[1..], c))
  }

  /** Who was admitted from the front waits no longer. */
  lemma StillWaiting(s: State, t: State, n: nat, i: nat)
    requires Distinct(s.waiting) && LineMoves(s, t, n) && i < |s.waiting| && s.waiting[i] in t.waiting
    ensures n <= i
  {}

  lemma OneStepAhead(s: State, step: Step, i: nat) returns (n: nat)
    requires Structured(s) && Enabled(s, step) && !NewGeneration(step)
    requires i < |s.waiting| && s.waiting[i] in Apply(s, step).waiting
    ensures var t := Apply(s, step);
            && n <= i && i - n < |t.waiting| && t.waiting[i - n] == s.waiting[i] && Ahead(t, i - n) <= Ahead(s, i)
            && StartsOnly(s, t, Ahead(s, i))
  {
    StepFrame(s, step);
    n := StepMovesLine(s, step);
    StillWaiting(s, Apply(s, step), n, i);
    LineKeepsAhead(s, Apply(s, step), n, i);
  }

  /** Every attempt started since `s` is of one of the conversations `cs`. */
  ghost predicate StartsOnly(s: State, t: State, cs: set<nat>) {
    s.trace <= t.trace && forall p | |s.trace| <= p < |t.trace| && t.trace[p].Begin? :: t.trace[p].job.conv in cs
  }

  lemma StartsCompose(s: State, t: State, u: State, cs: set<nat>, ds: set<nat>)
    requires StartsOnly(s, t, cs) && StartsOnly(t, u, ds) && ds <= cs
    ensures StartsOnly(s, u, cs)
  {
    forall p | |s.trace| <= p < |u.trace| && u.trace[p].Begin? ensures u.trace[p].job.conv in cs {
      if p < |t.trace| { assert u.trace[p] == t.trace[p]; }
    }
  }

  ghost predicate NoNewGeneration(steps: seq<Step>) {
    forall j | 0 <= j < |steps| :: !NewGeneration(steps[j])
  }

  lemma FirstStep(s: State, steps: seq<Step>, c: nat)
    requires Structured(s) && steps != [] && CanRun(s, steps) && WaitsThroughout(s, steps, c) && NoNewGeneration(steps)
    ensures Enabled(s, steps[0]) && !NewGeneration(steps[0]) && NoNewGeneration(steps[1..])
    ensures var s1 := Apply(s, steps[0]);
            && Structured(s1) && CanRun(s1, steps[1..]) && c in s1.waiting && WaitsThroughout(s1, steps[1..], c)
            && RunAll(s, steps) == RunAll(s1, steps[1..])
  {
    StepStructured(s, steps[0]);
  }

  lemma NothingStarted(s: State, cs: set<nat>)
    ensures StartsOnly(s, s, cs)
  {}

  /** The first step of the run, with all that the rest of the run needs. */
  lemma StepAhead(s: State, steps: seq<Step>, i: nat) returns (n: nat)
    requires Structured(s) && steps != [] && CanRun(s, steps) && i < |s.waiting| && WaitsThroughout(s, steps, s.waiting[i]) && NoNewGeneration(steps)
    ensures Enabled(s, steps[0]) && n <= i && NoNewGeneration(steps[1..])
    ensures var s1 := Apply(s, steps[0]);
            && Structured(s1) && CanRun(s1, steps[1..]) && RunAll(s, steps) == RunAll(s1, steps[1..])
            && i - n < |s1.waiting| && WaitsThroughout(s1, steps[1..], s1.waiting[i - n])
            && StartsOnly(s, s1, Ahead(s, i)) && Ahead(s1, i - n) <= Ahead(s, i)
  {
    FirstStep(s, steps, s.waiting[i]);
    n := OneStepAhead(s, steps[0], i);
  }

  lemma {:induction false} OnlyThoseAhead(s: State, steps: seq<Step>, i: nat)
    requires Structured(s) && CanRun(s, steps) && i < |s.waiting| && WaitsThroughout(s, steps, s.waiting[i]) && NoNewGeneration(steps)
    ensures StartsOnly(s, RunAll(s, steps), Ahead(s, i))
    decreases |steps|
  {
    if steps == [] {
      NothingStarted(s, Ahead(s, i));
    } else {
      var n := StepAhead(s, steps, i);
      var s1 := Apply(s, steps[0]);
      OnlyThoseAhead(s1, steps[1..], i - n);
      StartsCompose(s, s1, RunAll(s1, steps[1..]), Ahead(s, i), Ahead(s1, i - n));
    }
  }

  /**
   While a conversation waits, the only conversations that start an attempt are those that were running when it was
   at position `i` of the line or stood ahead of it there.
   */
  lemma BoundedBypass(s: State, steps: seq<Step>, i: nat)
    requires Reachable(s) && CanRun(s, steps) && i < |s.waiting| && WaitsThroughout(s, steps, s.waiting[i]) && NoNewGeneration(steps)
    ensures StartsOnly(s, RunAll(s, steps), Ahead(s, i))
  {
    ReachableBase(s);
    OnlyThoseAhead(s, steps, i);
  }
}
