/**
 Lifecycle and dispatcher together: whatever callers, timers, answers, resets and restarts do, what Comdove can
 observe of a message is sent, then delivered, then read, and first webhooks in message order.
 */
module EndToEnd {
  import opened Prelude
  import opened JobStore
  import opened Registry
  import opened Lifecycle
  import opened Conservation
  import D = Dispatcher
  import DS = DispatcherSlots
  import DR = DispatcherRuns
  import DO = DispatcherOrder
  import DSt = DispatcherStore

  /** `delay` is the configured wait before an outbound message's first status. */
  datatype System = System(reg: Reg, dsp: D.State, delay: nat)

  datatype Call =
    | Accept(phone: string, customer: string, text: string, wamid: string, now: int)
    | Deliver(msgs: seq<Message>, now: int)
    | MarkRead(customer: string, peer: string, now: int)
    | Receive(sender: string, to: string, body: string, wamid: string, now: int)
    | MarkInbound(phone: string, wamid: string, now: int)
    | Numbers(businesses: seq<Business>, customers: seq<Customer>)
    | Wipe(keepNumbers: bool)
    | Dispatch(step: D.Step)

  function EffectOf(s: System, c: Call): Effect
    requires c.Accept? || c.Deliver? || c.MarkRead? || c.Receive? || c.MarkInbound?
  {
    match c
    case Accept(phone, customer, text, wamid, now) => Accepted(s.reg, phone, customer, text, wamid, s.delay, now)
    case Deliver(msgs, now) => DeliveredCall(s.reg, msgs, now)
    case MarkRead(customer, peer, now) => ReadCall(s.reg, customer, peer, now)
    case Receive(sender, to, body, wamid, now) => InboundCall(s.reg, sender, to, body, wamid, now)
    case MarkInbound(phone, wamid, now) => MarkInboundRead(s.reg, phone, wamid, now)
  }

  function EnqueueAll(d: D.State, rs: seq<Request>, now: int): D.State {
    if rs == [] then d else D.Enqueued(EnqueueAll(d, rs[..|rs| - 1], now), rs[|rs| - 1], now)
  }

  /**
   Wamids are random, so a new one is fresh. A send names a registered business; `delivered` is handed each message
   once and every business it concerns is still registered, the exact condition under which it keeps the books.
   */
  ghost predicate Allowed(s: System, c: Call) {
    match c
    case Accept(phone, _, _, wamid, now) => now >= s.dsp.clock && Fresh(s.reg, wamid) && Registered(s.reg, phone)
    case Deliver(msgs, now) =>
      && now >= s.dsp.clock && Copies(s.reg, msgs)
      && Unique(DeliveredTodo(s.reg, msgs))
      && forall m | m in DeliveredTodo(s.reg, msgs) :: Registered(s.reg, m.phone)
    case MarkRead(_, _, now) => now >= s.dsp.clock
    case Receive(_, _, _, wamid, now) => now >= s.dsp.clock && Fresh(s.reg, wamid)
    case MarkInbound(_, _, now) => now >= s.dsp.clock
    case Numbers(_, _) => true
    case Wipe(_) => true
    case Dispatch(step) => D.Enabled(s.dsp, step) && !step.Enqueue? && !step.Reset? && !step.Cancel?
  }

  ghost function Done(s: System, c: Call): System
    requires c.Dispatch? ==> D.Enabled(s.dsp, c.step)
  {
    match c
    case Numbers(bs, cs) => s.(reg := s.reg.(businesses := bs, customers := cs))
    case Wipe(keep) => s.(reg := WipedReg(s.reg, keep), dsp := D.WasReset(s.dsp))
    case Dispatch(step) => s.(dsp := D.Apply(s.dsp, step))
    case _ => var e := EffectOf(s, c); s.(reg := e.reg, dsp := EnqueueAll(s.dsp, e.requests, c.now))
  }

  ghost predicate SysInv(s: System) {
    DR.Inv(s.dsp) && Conserved(s.reg, Hooks(s.dsp.rows.jobs))
  }

  // ---- rows through dispatcher steps ----

  lemma EnqueuedRows(d: D.State, r: Request, now: int)
    ensures D.Enqueued(d, r, now).rows == Inserted(d.rows, r, now) && D.Enqueued(d, r, now).clock == now
  {
    DS.PumpAdmits(D.Queued(d.(rows := Inserted(d.rows, r, now), clock := now), NewJob(r, d.rows.nextId, now)), r.conv);
  }

  lemma EnqueuedHooks(d: D.State, r: Request, now: int)
    ensures Hooks(D.Enqueued(d, r, now).rows.jobs) == Hooks(d.rows.jobs) + [Hook(d.rows.nextId, r.conv, r.wamid, r.kind)]
    ensures D.Enqueued(d, r, now).rows.nextId == d.rows.nextId + 1 && D.Enqueued(d, r, now).clock == now
  {
    EnqueuedRows(d, r, now);
    HooksAppend(d.rows.jobs, NewJob(r, d.rows.nextId, now));
  }

  lemma AskedAppend(rs: seq<Request>, next: nat)
    requires rs != []
    ensures var n := |rs| - 1; Asked(rs, next) == Asked(rs[..n], next) + [Hook(next + n, rs[n].conv, rs[n].wamid, rs[n].kind)]
  {}

  lemma {:induction false} EnqueueAllHooks(d: D.State, rs: seq<Request>, now: int)
    ensures Hooks(EnqueueAll(d, rs, now).rows.jobs) == Hooks(d.rows.jobs) + Asked(rs, d.rows.nextId)
    ensures EnqueueAll(d, rs, now).rows.nextId == d.rows.nextId + |rs|
    ensures EnqueueAll(d, rs, now).clock == if rs == [] then d.clock else now
  {
    if rs == [] {
      assert Hooks(d.rows.jobs) + Asked([], d.rows.nextId) == Hooks(d.rows.jobs);
    } else {
      var n := |rs| - 1;
      EnqueueAllHooks(d, rs[..n], now);
      EnqueuedHooks(EnqueueAll(d, rs[..n], now), rs[n], now);
      AskedAppend(rs, d.rows.nextId);
    }
  }

  lemma {:induction false} EnqueueAllInv(d: D.State, rs: seq<Request>, now: int)
    requires DR.Inv(d) && now >= d.clock
    ensures DR.Inv(EnqueueAll(d, rs, now))
  {
    if rs != [] {
      var init := rs[..|rs| - 1];
      EnqueueAllInv(d, init, now);
      EnqueueAllHooks(d, init, now);
      DR.StepInv(EnqueueAll(d, init, now), D.Enqueue(rs[|rs| - 1], now));
    }
  }

  lemma HooksAppend(jobs: seq<Job>, j: Job)
    ensures Hooks(jobs + [j]) == Hooks(jobs) + [HookOf(j)]
  {}

  lemma FinishedHooks(jobs: seq<Job>, id: nat, st: JobState, at: int)
    ensures Hooks(FinishedJobs(jobs, id, st, at)) == Hooks(jobs)
  {}

  lemma RespondHooks(d: D.State, k: D.Key, reply: D.Reply, now: int)
    requires D.CanRespond(d, k, now)
    ensures Hooks(D.Responded(d, k, reply, now).rows.jobs) == Hooks(d.rows.jobs)
  {
    FinishedHooks(d.rows.jobs, d.runs[k].job.id, Succeeded, now);
    FinishedHooks(d.rows.jobs, d.runs[k].job.id, Failed, now);
  }

  lemma FinallyRows(d: D.State, k: D.Key)
    requires DS.Structured(d) && k in d.runs
    ensures D.Finalized(d, k).rows == d.rows
  {
    if k.gen == d.Gen() { DS.FinallyStructured(d, k); }
  }

  /** Progress of the dispatcher changes no webhook's identity. */
  lemma DispatchHooks(d: D.State, step: D.Step)
    requires DR.Inv(d) && D.Enabled(d, step) && !step.Enqueue? && !step.Reset? && !step.Cancel?
    ensures Hooks(D.Apply(d, step).rows.jobs) == Hooks(d.rows.jobs)
  {
    match step
    case Fire(k, now) =>
    case Respond(k, reply, now) => RespondHooks(d, k, reply, now);
    case Finally(k) => FinallyRows(d, k);
    case Restart => DSt.ResumeQueues(d, 0);
    case AwaitIdle(w) =>
  }

  lemma HooksBelow(d: D.State)
    requires DR.Inv(d)
    ensures forall h | h in Hooks(d.rows.jobs) :: h.id < d.rows.nextId
  {
    var hs := Hooks(d.rows.jobs);
    forall i | 0 <= i < |hs| ensures hs[i].id < d.rows.nextId {}
  }

  lemma EffectConserves(s: System, c: Call)
    requires SysInv(s) && Allowed(s, c) && (c.Accept? || c.Deliver? || c.MarkRead? || c.Receive? || c.MarkInbound?)
    ensures var e := EffectOf(s, c);
            Conserved(e.reg, Hooks(s.dsp.rows.jobs) + Asked(e.requests, s.dsp.rows.nextId))
  {
    var hs, next := Hooks(s.dsp.rows.jobs), s.dsp.rows.nextId;
    HooksBelow(s.dsp);
    match c
    case Accept(phone, customer, text, wamid, now) => AcceptedConserves(s.reg, hs, phone, customer, text, wamid, s.delay, now, next);
    case Deliver(msgs, now) => DeliveredConserves(s.reg, hs, msgs, now, next);
    case MarkRead(customer, peer, now) => ReadConserves(s.reg, hs, customer, peer, now, next);
    case Receive(sender, to, body, wamid, now) => InboundConserves(s.reg, hs, sender, to, body, wamid, now, next);
    case MarkInbound(phone, wamid, now) =>
      MarkInboundReadConserves(s.reg, hs, phone, wamid, now);
      assert hs + Asked([], next) == hs;
  }

  lemma NumbersConserve(reg: Reg, hs: seq<Hook>, bs: seq<Business>, cs: seq<Customer>)
    requires Conserved(reg, hs)
    ensures Conserved(reg.(businesses := bs, customers := cs), hs)
  {
    var t := reg.(businesses := bs, customers := cs);
    forall k | k in t.convs ensures Numbered(t, k) { assert Numbered(reg, k); }
  }

  lemma CallInv(s: System, c: Call)
    requires SysInv(s) && Allowed(s, c)
    ensures SysInv(Done(s, c))
  {
    match c
    case Numbers(bs, cs) => NumbersConserve(s.reg, Hooks(s.dsp.rows.jobs), bs, cs);
    case Wipe(keep) =>
      DR.StepInv(s.dsp, D.Reset);
      WipeConserves(s.reg, keep);
      assert Hooks(D.WasReset(s.dsp).rows.jobs) == [];
    case Dispatch(step) =>
      DR.StepInv(s.dsp, step);
      DispatchHooks(s.dsp, step);
    case _ =>
      var e := EffectOf(s, c);
      EffectConserves(s, c);
      EnqueueAllInv(s.dsp, e.requests, c.now);
      EnqueueAllHooks(s.dsp, e.requests, c.now);
  }

  /** A recorded time never changes, and nothing else about a stored message does either. */
  ghost predicate KeepsTimes(m: Message, n: Message) {
    && n == m.(deliveredAt := n.deliveredAt, readAt := n.readAt)
    && (m.deliveredAt.Some? ==> n.deliveredAt == m.deliveredAt)
    && (m.readAt.Some? ==> n.readAt == m.readAt)
  }

  /** A time that is new is that of the call, which is one that records it. */
  predicate TimedBy(m: Message, n: Message, c: Call) {
    && (n.deliveredAt == m.deliveredAt || (c.Deliver? && n.deliveredAt == Some(c.now)))
    && (n.readAt == m.readAt || ((c.MarkRead? || c.MarkInbound?) && n.readAt == Some(c.now)))
  }

  /** Times are written once, whatever happens short of a reset, and then with the time of the call. */
  lemma WrittenOnce(s: System, c: Call, i: nat)
    requires Allowed(s, c) && !c.Wipe? && i < |s.reg.messages|
    ensures i < |Done(s, c).reg.messages| && KeepsTimes(s.reg.messages[i], Done(s, c).reg.messages[i])
    ensures TimedBy(s.reg.messages[i], Done(s, c).reg.messages[i], c)
  {
    match c
    case Numbers(_, _) =>
    case Dispatch(_) =>
    case Accept(_, _, _, _, _) =>
    case Receive(_, _, _, _, _) =>
    case Deliver(msgs, now) => DeliverOnce(s.reg, msgs, now, i);
    case MarkRead(customer, peer, now) => ReadOnce(s.reg, customer, peer, now, i);
    case MarkInbound(phone, wamid, now) => MarkInboundOnce(s.reg, phone, wamid, now, i);
  }

  lemma DeliverOnce(reg: Reg, msgs: seq<Message>, now: int, i: nat)
    requires i < |reg.messages|
    ensures var t := DeliveredCall(reg, msgs, now).reg;
            && i < |t.messages| && KeepsTimes(reg.messages[i], t.messages[i])
            && TimedBy(reg.messages[i], t.messages[i], Deliver(msgs, now))
  {}

  lemma MarkInboundOnce(reg: Reg, phone: string, wamid: string, now: int, i: nat)
    requires i < |reg.messages|
    ensures var t := MarkInboundRead(reg, phone, wamid, now).reg;
            && i < |t.messages| && KeepsTimes(reg.messages[i], t.messages[i])
            && TimedBy(reg.messages[i], t.messages[i], MarkInbound(phone, wamid, now))
  {}

  lemma ReadOnce(reg: Reg, customer: string, peer: string, now: int, i: nat)
    requires i < |reg.messages|
    ensures var t := ReadCall(reg, customer, peer, now).reg;
            && i < |t.messages| && KeepsTimes(reg.messages[i], t.messages[i])
            && TimedBy(reg.messages[i], t.messages[i], Call.MarkRead(customer, peer, now))
  {}

  // ---- all runs ----

  ghost predicate CanDo(s: System, cs: seq<Call>)
    decreases |cs|
  {
    cs == [] || (Allowed(s, cs[0]) && CanDo(Done(s, cs[0]), cs[1..]))
  }

  ghost function DoAll(s: System, cs: seq<Call>): System
    requires CanDo(s, cs)
    decreases |cs|
  {
    if cs == [] then s else DoAll(Done(s, cs[0]), cs[1..])
  }

  function Boot(cfg: D.Config, delay: nat, clock: int): System {
    System(EmptyReg, D.Initial(cfg, EmptyRows, clock), delay)
  }

  ghost predicate Reachable(s: System) {
    exists cfg: D.Config, delay: nat, clock: int, cs: seq<Call> ::
      cfg.Ok() && CanDo(Boot(cfg, delay, clock), cs) && s == DoAll(Boot(cfg, delay, clock), cs)
  }

  lemma {:induction false} DoAllInv(s: System, cs: seq<Call>)
    requires SysInv(s) && CanDo(s, cs)
    ensures SysInv(DoAll(s, cs))
    decreases |cs|
  {
    if cs != [] {
      CallInv(s, cs[0]);
      DoAllInv(Done(s, cs[0]), cs[1..]);
    }
  }

  lemma BootInv(cfg: D.Config, delay: nat, clock: int)
    requires cfg.Ok()
    ensures SysInv(Boot(cfg, delay, clock))
  {
    DR.InitialInv(cfg, clock);
    assert Hooks([]) == [];
  }

  lemma ReachableInv(s: System)
    requires Reachable(s)
    ensures SysInv(s)
  {
    var cfg: D.Config, delay: nat, clock: int, cs: seq<Call> :|
      cfg.Ok() && CanDo(Boot(cfg, delay, clock), cs) && s == DoAll(Boot(cfg, delay, clock), cs);
    BootInv(cfg, delay, clock);
    DoAllInv(Boot(cfg, delay, clock), cs);
  }

  // ---- doing calls one after the other ----

  lemma {:induction false} DoCat(s: System, xs: seq<Call>, ys: seq<Call>)
    requires CanDo(s, xs) && CanDo(DoAll(s, xs), ys)
    ensures CanDo(s, xs + ys) && DoAll(s, xs + ys) == DoAll(DoAll(s, xs), ys)
    decreases |xs|, 0
  {
    if xs == [] {
      assert xs + ys == ys;
    } else {
      DoCatRest(s, Done(s, xs[0]), xs, ys);
    }
  }

  lemma {:induction false} DoCatRest(s: System, s1: System, xs: seq<Call>, ys: seq<Call>)
    requires xs != [] && CanDo(s, xs) && s1 == Done(s, xs[0]) && CanDo(DoAll(s, xs), ys)
    ensures CanDo(s, xs + ys) && DoAll(s, xs + ys) == DoAll(DoAll(s, xs), ys)
    decreases |xs| - 1, 1
  {
    assert (xs + ys)[0] == xs[0] && (xs + ys)[1..] == xs[1..] + ys;
    DoCat(s1, xs[1..], ys);
  }

  lemma DoUnfold(s: System, cs: seq<Call>)
    requires cs != [] && CanDo(s, cs)
    ensures Allowed(s, cs[0]) && CanDo(Done(s, cs[0]), cs[1..]) && DoAll(s, cs) == DoAll(Done(s, cs[0]), cs[1..])
  {}

  lemma DoOne(s: System, c: Call)
    requires Allowed(s, c)
    ensures CanDo(s, [c]) && DoAll(s, [c]) == Done(s, c)
  {
    assert [c][1..] == [];
    assert CanDo(Done(s, c), []);
  }

  lemma ReachableOn(s: System, cs: seq<Call>)
    requires Reachable(s) && CanDo(s, cs)
    ensures Reachable(DoAll(s, cs))
  {
    var cfg: D.Config, delay: nat, clock: int, before: seq<Call> :|
      cfg.Ok() && CanDo(Boot(cfg, delay, clock), before) && s == DoAll(Boot(cfg, delay, clock), before);
    DoCat(Boot(cfg, delay, clock), before, cs);
    assert DoAll(s, cs) == DoAll(Boot(cfg, delay, clock), before + cs);
  }

  // ---- main results ----

  /** Since the last reset every message has exactly its due webhooks, and no webhook is for anything else. */
  lemma MessagesMatchWebhooks(s: System, m: Message, kind: JobKind)
    requires Reachable(s) && m in s.reg.messages
    ensures Count(Hooks(s.dsp.rows.jobs), m.wamid, kind) == Due(m, kind)
    ensures Timeline(m)
    ensures forall h | h in Hooks(s.dsp.rows.jobs) :: exists x :: x in s.reg.messages && x.wamid == h.wamid && x.conv == h.conv
  {
    ReachableInv(s);
  }

  /** The messages of each conversation are numbered 1, 2, 3, ... without a gap. */
  lemma NumbersHaveNoGap(s: System, key: (string, string))
    requires Reachable(s) && key in s.reg.convs
    ensures var ms := OfConv(s.reg.messages, s.reg.convs[key].id);
            |ms| + 1 == s.reg.convs[key].next && forall i | 0 <= i < |ms| :: ms[i].no == i + 1
  {
    ReachableInv(s);
    assert Numbered(s.reg, key);
  }

  lemma {:induction false} CountWitness(hs: seq<Hook>, wamid: string, kind: JobKind) returns (i: nat)
    requires Count(hs, wamid, kind) >= 1
    ensures i < |hs| && hs[i].wamid == wamid && hs[i].kind == kind
  {
    var h := hs[|hs| - 1];
    if h.wamid == wamid && h.kind == kind { i := |hs| - 1; } else { i := CountWitness(hs[..|hs| - 1], wamid, kind); }
  }

  /** The answer that ended the webhook of this kind for this message came before position `p`. */
  ghost predicate Ended(d: D.State, wamid: string, kind: JobKind, p: nat) {
    exists q :: 0 <= q < p && q < |d.trace| && DO.Final(d.cfg, d.trace[q]) && d.trace[q].job.wamid == wamid && d.trace[q].job.kind == kind
  }

  function Previous(kind: JobKind): JobKind { if kind.Read? then Delivered else Sent }

  /** The webhook of the stage before was asked for earlier, in the same conversation. */
  lemma PreviousHook(reg: Reg, hs: seq<Hook>, i: nat) returns (k: nat)
    requires Conserved(reg, hs) && i < |hs| && (hs[i].kind.Delivered? || hs[i].kind.Read?)
    ensures k < i && hs[k].wamid == hs[i].wamid && hs[k].kind == Previous(hs[i].kind)
    ensures hs[k].conv == hs[i].conv && hs[k].id < hs[i].id
  {
    assert hs[i] in hs;
    HookMessage(reg, hs, hs[i]);
    var m := GetMessage(reg.messages, hs[i].wamid).value;
    CountPositive(hs, i);
    assert Count(hs, m.wamid, hs[i].kind) == Due(m, hs[i].kind);
    assert Count(hs, m.wamid, Previous(hs[i].kind)) == Due(m, Previous(hs[i].kind)) == 1;
    k := CountWitness(hs, m.wamid, Previous(hs[i].kind));
    assert hs[k] in hs;
    HookMessage(reg, hs, hs[k]);
    assert StagesAscend(hs) && IdsAscend(hs);
  }

  /** An earlier row of the same conversation was done before the attempt at `p` started. */
  lemma EarlierRowDone(cfg: D.Config, jobs: seq<Job>, tr: seq<D.Event>, p: nat, i: nat, k: nat) returns (q: nat)
    requires DO.Faithful(jobs, tr) && DO.AfterEarlier(cfg, jobs, tr) && p < |tr| && i < |jobs| && k < |jobs|
    requires tr[p].Begin? && jobs[i].id == tr[p].job.id && jobs[k].conv == jobs[i].conv && jobs[k].id < jobs[i].id
    ensures q < p && DO.Final(cfg, tr[q]) && tr[q].job.wamid == jobs[k].wamid && tr[q].job.kind == jobs[k].kind
  {
    assert DO.SameHook(tr[p].job, jobs[i]);
    assert DO.DoneBefore(cfg, tr, jobs[k].id, p);
    q :| 0 <= q < p && q < |tr| && DO.Final(cfg, tr[q]) && tr[q].job.id == jobs[k].id;
    assert DO.SameHook(tr[q].job, jobs[k]);
  }
}
