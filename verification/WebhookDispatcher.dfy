/** The dispatcher object, callback by callback, proved against the state machine. */
module WebhookDispatcher {
  import opened Prelude
  import opened JobStore
  import opened Dispatcher

  class WebhookDispatcher {
    const cfg: Config
    const store: MemoryJobStore

    var generation: nat               // identity of the current maps and abort signal
    var queues: map<nat, seq<Job>>
    var running: set<nat>
    var waiting: seq<nat>
    var idleWaiters: seq<nat>
    var resolved: seq<nat>
    var runs: map<Key, Run>           // the suspended `runHead`s
    var clock: int

    ghost var past: seq<Tables>       // maps only old runs still hold
    ghost var pushed: seq<Entry>
    ghost var trace: seq<Event>

    ghost predicate Valid()
      reads this
    {
      |past| == generation && cfg.Ok()
    }

    ghost function View(): State
      reads this, store
    {
      State(cfg, past, queues, running, waiting, idleWaiters, resolved, runs, store.View(), clock, pushed, trace)
    }

    constructor (delays: seq<nat>, maxParallel: int, store: MemoryJobStore, now: int)
      ensures Valid() && this.store == store
      ensures View() == Initial(Config(delays, if maxParallel < 1 then 1 else maxParallel), store.View(), now)
    {
      cfg := Config(delays, if maxParallel < 1 then 1 else maxParallel);
      this.store := store;
      generation, queues, running, waiting := 0, map[], {}, [];
      idleWaiters, resolved, runs, clock := [], [], map[], now;
      past, pushed, trace := [], [], [];
    }

    method SettleIdle()
      requires Valid()
      modifies this
      ensures Valid() && View() == Dispatcher.SettleIdle(old(View()))
    {
      if running == {} && forall c | c in queues :: queues[c] == [] {
        resolved, idleWaiters := resolved + idleWaiters, [];
      }
    }

    method Pump(c: nat)
      requires Valid()
      modifies this
      ensures Valid() && View() == Dispatcher.Pump(old(View()), c)
    {
      if c in running || c !in queues || queues[c] == [] { return; }
      if |running| >= cfg.maxParallel {
        if c !in waiting { waiting := waiting + [c]; }
        return;
      }
      waiting := Without(waiting, c);
      running := running + {c};
      runs := runs[Key(generation, c) := Run(queues[c][0], Delay)];
    }

    method Push(job: Job)
      requires Valid()
      modifies this
      ensures Valid() && View() == Dispatcher.Push(old(View()), job)
    {
      var q := if job.conv in queues then queues[job.conv] else [];
      queues := queues[job.conv := q + [job]];
      pushed := pushed + [Entry(generation, job)];
      Pump(job.conv);
    }

    method Enqueue(r: Request, now: int) returns (job: Job)
      requires Valid() && now >= clock
      modifies this, store
      ensures Valid() && View() == Enqueued(old(View()), r, now)
      ensures job == NewJob(r, old(store.nextId), now)
    {
      clock := now;
      job := store.Insert(r, now);
      Push(job);
    }

    /** A timer of run `k` fired, or its zero delay is over. */
    method Fire(k: Key, now: int)
      requires Valid() && CanFire(View(), k, now)
      modifies this
      ensures Valid() && View() == Fired(old(View()), k, now)
    {
      var r := runs[k];
      clock := now;
      if k.gen < generation {
        runs := runs[k := r.(phase := Settled)];   // the sleep rejects: Cancelled
      } else {
        var n: Count := if r.phase.Backoff? then r.phase.n + 1 else 1;
        runs := runs[k := r.(phase := InFlight(n))];
        trace := trace + [Begin(k.gen, r.job, n, now)];
      }
    }

    /** The request of run `k` was answered or failed: record it, then finish, retry or give up. */
    /** Tell the listener about a job, if it still has a row. */
    method Changed(id: nat) returns (wamids: seq<string>)
      ensures wamids == WamidOf(store.jobs, id)
    {
      var job := store.Get(id);
      wamids := if job.Some? then [job.value.wamid] else [];
    }

    /** The job is done: finish its row and tell the listener. */
    method Conclude(id: nat, state: JobState, now: int) returns (wamids: seq<string>)
      modifies store
      ensures store.View() == Finished(old(store.View()), id, state, now)
      ensures wamids == WamidOf(old(store.jobs), id)
    {
      FinishedWamid(store.jobs, id, state, now);
      store.Finish(id, state, now);
      wamids := Changed(id);
    }

    method Respond(k: Key, reply: Reply, now: int) returns (announced: seq<string>)
      requires Valid() && CanRespond(View(), k, now)
      modifies this, store
      ensures Valid() && View() == Responded(old(View()), k, reply, now)
      ensures announced == Announced(old(View()), k, reply)
    {
      var r := runs[k];
      var n := r.phase.n;
      clock := now;
      if k.gen < generation && reply.NetworkError? {
        runs := runs[k := r.(phase := Settled)];
        return [];
      }
      store.AddAttempt(Attempt(r.job.id, n, StatusOf(reply), ErrorOf(reply), now));
      announced := Changed(r.job.id);
      trace := trace + [End(k.gen, r.job, n, StatusOf(reply), now)];
      if StatusOf(reply) == Some(200) {
        var again := Conclude(r.job.id, Succeeded, now);
        announced := announced + again;
        runs := runs[k := r.(phase := Settled)];
      } else if n < |cfg.delays| + 1 {
        runs := runs[k := r.(phase := if k.gen < generation then Settled else Backoff(n, now + cfg.delays[n - 1]))];
      } else {
        var again := Conclude(r.job.id, Failed, now);
        announced := announced + again;
        runs := runs[k := r.(phase := Settled)];
      }
    }

    /** The `finally` block of run `k`. */
    method Finally(k: Key)
      requires Valid() && k in runs && k.gen <= generation
      modifies this
      ensures Valid() && View() == Finalized(old(View()), k)
    {
      var cid := k.conv;
      runs := runs - {k};
      if k.gen < generation {
        past := past[k.gen := past[k.gen].(running := past[k.gen].running - {cid})];
        SettleIdle();
        return;
      }
      running := running - {cid};
      if cid in queues && queues[cid] != [] { queues := queues[cid := queues[cid][1..]]; }
      assert View() == Shifted(old(View()).(runs := runs, running := running), cid);
      Pump(cid);
      FillSlots(cid);
      SettleIdle();
    }

    /** A slot just freed up: let the longest-waiting conversations in. */
    method FillSlots(cid: nat)
      requires Valid()
      modifies this
      ensures Valid() && View() == Fill(old(View()), cid)
    {
      while |running| < cfg.maxParallel && waiting != []
        invariant Valid() && Fill(View(), cid) == Fill(old(View()), cid)
        decreases |waiting|
      {
        var next := waiting[0];
        WithoutShrinks(waiting[1..], next);
        waiting := waiting[1..];
        if next != cid { Pump(next); }
      }
    }

    method CancelAll()
      requires Valid()
      modifies this
      ensures Valid() && View() == CancelledAll(old(View()))
    {
      past := past + [Tables(queues, running)];
      generation := generation + 1;
      queues, running, waiting := map[], {}, [];
      SettleIdle();
    }

    /** Boot: only on a fresh dispatcher, before any enqueue. */
    method Resume()
      requires Valid() && queues == map[] && runs == map[]
      modifies this
      ensures Valid() && View() == Resumed(old(View()))
    {
      var jobs := store.PendingJobs();
      for i := 0 to |jobs|
        invariant Valid() && View() == PushAll(old(View()), jobs[..i])
      {
        assert jobs[..i + 1][..i] == jobs[..i];
        Push(jobs[i].(notBefore := 0));
      }
      assert jobs[..|jobs|] == jobs;
    }

    method Idle(w: nat)
      requires Valid()
      modifies this
      ensures Valid() && View() == AwaitedIdle(old(View()), w)
    {
      idleWaiters := idleWaiters + [w];
      SettleIdle();
    }
  }
}
