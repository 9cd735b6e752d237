/**
 What Comdove observes over a whole history, resets included: statuses of a message come in order, and the first
 webhooks of a conversation come in the order of its messages, even when a reset has since deleted rows and messages.
 */
module Observed {
  import opened Prelude
  import opened JobStore
  import opened Registry
  import opened Lifecycle
  import opened Conservation
  import opened EndToEnd
  import D = Dispatcher
  import DS = DispatcherSlots
  import DR = DispatcherRuns
  import DO = DispatcherOrder
  import DSt = DispatcherStore

  // ---- what calls do to the trace ----

  lemma {:induction false} EnqueueAllTrace(d: D.State, rs: seq<Request>, now: int)
    ensures EnqueueAll(d, rs, now).trace == d.trace && EnqueueAll(d, rs, now).cfg == d.cfg
  {
    if rs != [] {
      var init, r := EnqueueAll(d, rs[..|rs| - 1], now), rs[|rs| - 1];
      EnqueueAllTrace(d, rs[..|rs| - 1], now);
      DS.PumpAdmits(D.Queued(init.(rows := Inserted(init.rows, r, now), clock := now), NewJob(r, init.rows.nextId, now)), r.conv);
    }
  }

  /** An attempt that starts is of an unfinished row. */
  lemma BeginHasRow(d: D.State, k: D.Key, now: int) returns (i: nat)
    requires DR.Inv(d) && D.CanFire(d, k, now) && k.gen == d.Gen()
    ensures i < |d.rows.jobs| && DO.SameHook(d.runs[k].job, d.rows.jobs[i])
    ensures D.Fired(d, k, now).rows == d.rows
  {
    i := DO.HeadIsOldest(d, k);
  }

  /** The event a step added, if any, is no `Begin`. */
  ghost predicate NoBegin(d: D.State, t: D.State) {
    d.trace <= t.trace && forall p | |d.trace| <= p < |t.trace| :: !t.trace[p].Begin?
  }

  lemma RespondNoBegin(d: D.State, k: D.Key, reply: D.Reply, now: int)
    requires D.CanRespond(d, k, now)
    ensures NoBegin(d, D.Responded(d, k, reply, now)) && D.Responded(d, k, reply, now).rows.nextId == d.rows.nextId
  {}

  lemma FinallyNoBegin(d: D.State, k: D.Key)
    requires DS.Structured(d) && k in d.runs
    ensures NoBegin(d, D.Finalized(d, k)) && D.Finalized(d, k).rows == d.rows
  {
    if k.gen == d.Gen() { DS.FinallyStructured(d, k); }
  }

  lemma RestartNoBegin(d: D.State)
    requires DS.Structured(d)
    ensures NoBegin(d, D.Resumed(D.Rebooted(d))) && D.Resumed(D.Rebooted(d)).rows == d.rows
  {
    DSt.ResumeQueues(d, 0);
  }

  lemma QuietNoBegin(d: D.State, w: nat)
    ensures NoBegin(d, D.CancelledAll(d)) && NoBegin(d, D.WasReset(d)) && NoBegin(d, D.AwaitedIdle(d, w))
    ensures D.CancelledAll(d).rows == d.rows && D.WasReset(d).rows.nextId == d.rows.nextId && D.AwaitedIdle(d, w).rows == d.rows
  {}

  lemma StepNoBegin(d: D.State, step: D.Step)
    requires DS.Structured(d) && D.Enabled(d, step) && !step.Fire? && !step.Enqueue?
    ensures NoBegin(d, D.Apply(d, step)) && D.Apply(d, step).rows.nextId == d.rows.nextId
  {
    match step
    case Respond(k, reply, now) => RespondNoBegin(d, k, reply, now);
    case Finally(k) => FinallyNoBegin(d, k);
    case Restart => RestartNoBegin(d);
    case Cancel => QuietNoBegin(d, 0);
    case Reset => QuietNoBegin(d, 0);
    case AwaitIdle(w) => QuietNoBegin(d, w);
  }

  lemma FireBegins(d: D.State, k: D.Key, now: int)
    requires D.CanFire(d, k, now)
    ensures var t := D.Fired(d, k, now);
            && t.rows == d.rows && d.trace <= t.trace
            && (|t.trace| > |d.trace| ==> k.gen >= d.Gen() && t.trace[|d.trace|].job == d.runs[k].job)
  {}

  /** Only the start of an attempt adds a `Begin`. */
  lemma OnlyFireBegins(d: D.State, step: D.Step)
    requires DR.Inv(d) && D.Enabled(d, step) && !step.Enqueue?
    ensures var t := D.Apply(d, step);
            && t.cfg == d.cfg && d.trace <= t.trace && |t.trace| <= |d.trace| + 1
            && (|t.trace| > |d.trace| && t.trace[|d.trace|].Begin? ==>
                  step.Fire? && step.k.gen == d.Gen() && t.trace[|d.trace|].job == d.runs[step.k].job)
    ensures D.Apply(d, step).rows.nextId == d.rows.nextId
  {
    DR.StepFrame(d, step);
    if step.Fire? { FireBegins(d, step.k, step.now); } else { StepNoBegin(d, step); }
  }

  // ---- sent, delivered, read ----

  predicate IsLater(e: D.Event) { e.Begin? && (e.job.kind.Delivered? || e.job.kind.Read?) }

  /** Each attempt of a later status starts only after the status before it was done. */
  ghost predicate Staged(d: D.State) {
    forall p | 0 <= p < |d.trace| && IsLater(d.trace[p]) :: Ended(d, d.trace[p].job.wamid, Previous(d.trace[p].job.kind), p)
  }

  lemma EndedMono(d: D.State, t: D.State, wamid: string, kind: JobKind, p: nat)
    requires Ended(d, wamid, kind, p) && d.trace <= t.trace && t.cfg == d.cfg
    ensures Ended(t, wamid, kind, p)
  {
    var q :| 0 <= q < p && q < |d.trace| && DO.Final(d.cfg, d.trace[q]) && d.trace[q].job.wamid == wamid && d.trace[q].job.kind == kind;
    assert t.trace[q] == d.trace[q];
  }

  lemma KeptStaged(d: D.State, t: D.State)
    requires Staged(d) && d.trace <= t.trace && |t.trace| <= |d.trace| + 1 && t.cfg == d.cfg
    requires |t.trace| > |d.trace| && IsLater(t.trace[|d.trace|]) ==>
               Ended(t, t.trace[|d.trace|].job.wamid, Previous(t.trace[|d.trace|].job.kind), |d.trace|)
    ensures Staged(t)
  {
    forall p | 0 <= p < |t.trace| && IsLater(t.trace[p]) ensures Ended(t, t.trace[p].job.wamid, Previous(t.trace[p].job.kind), p) {
      if p < |d.trace| {
        assert t.trace[p] == d.trace[p];
        EndedMono(d, t, t.trace[p].job.wamid, Previous(t.trace[p].job.kind), p);
      }
    }
  }

  /** An attempt of a later status that has a row: the status before it is done. */
  lemma RowStaged(s: System, p: nat, i: nat)
    requires SysInv(s) && p < |s.dsp.trace| && IsLater(s.dsp.trace[p])
    requires i < |s.dsp.rows.jobs| && s.dsp.rows.jobs[i].id == s.dsp.trace[p].job.id
    ensures Ended(s.dsp, s.dsp.trace[p].job.wamid, Previous(s.dsp.trace[p].job.kind), p)
  {
    var d, jobs := s.dsp, s.dsp.rows.jobs;
    assert DO.SameHook(d.trace[p].job, jobs[i]);
    var k := PreviousHook(s.reg, Hooks(jobs), i);
    var q := EarlierRowDone(d.cfg, jobs, d.trace, p, i, k);
  }

  lemma DispatchStaged(s: System, step: D.Step)
    requires SysInv(s) && Staged(s.dsp) && Allowed(s, Dispatch(step))
    ensures Staged(D.Apply(s.dsp, step))
  {
    var d, t := s.dsp, Done(s, Dispatch(step));
    OnlyFireBegins(d, step);
    CallInv(s, Dispatch(step));
    if |t.dsp.trace| > |d.trace| && IsLater(t.dsp.trace[|d.trace|]) {
      var i := BeginHasRow(d, step.k, step.now);
      RowStaged(t, |d.trace|, i);
    }
    KeptStaged(d, t.dsp);
  }

  lemma CallStaged(s: System, c: Call)
    requires SysInv(s) && Staged(s.dsp) && Allowed(s, c)
    ensures Staged(Done(s, c).dsp)
  {
    match c
    case Numbers(_, _) =>
    case Wipe(_) => KeptStaged(s.dsp, D.WasReset(s.dsp));
    case Dispatch(step) => DispatchStaged(s, step);
    case _ =>
      EnqueueAllTrace(s.dsp, EffectOf(s, c).requests, c.now);
      KeptStaged(s.dsp, EnqueueAll(s.dsp, EffectOf(s, c).requests, c.now));
  }

  lemma CallKeepsStaged(s: System, c: Call)
    requires SysInv(s) && Staged(s.dsp) && Allowed(s, c)
    ensures SysInv(Done(s, c)) && Staged(Done(s, c).dsp)
  {
    CallInv(s, c);
    CallStaged(s, c);
  }

  lemma {:induction false} RunStaged(s: System, cs: seq<Call>)
    requires SysInv(s) && Staged(s.dsp) && CanDo(s, cs)
    ensures Staged(DoAll(s, cs).dsp)
    decreases |cs|
  {
    if cs != [] {
      DoUnfold(s, cs);
      CallKeepsStaged(s, cs[0]);
      RunStaged(Done(s, cs[0]), cs[1..]);
    }
  }

  /**
   End to end, over the whole trace of every run: no attempt of a message's `delivered` webhook starts before its
   `sent` webhook is done, and none of `read` before `delivered` is done.
   */
  lemma SentDeliveredRead(s: System, p: nat)
    requires Reachable(s) && p < |s.dsp.trace| && IsLater(s.dsp.trace[p])
    ensures Ended(s.dsp, s.dsp.trace[p].job.wamid, Previous(s.dsp.trace[p].job.kind), p)
  {
    var cfg: D.Config, delay: nat, clock: int, cs: seq<Call> :|
      cfg.Ok() && CanDo(Boot(cfg, delay, clock), cs) && s == DoAll(Boot(cfg, delay, clock), cs);
    BootInv(cfg, delay, clock);
    RunStaged(Boot(cfg, delay, clock), cs);
  }

  // ---- the place of each message ----

  /** A message's conversation and its number there; conversation ids are never reused. */
  datatype Place = Place(conv: nat, no: nat)

  /** A call that stores a message with its first webhook puts the message's place on record under the webhook's id. */
  function Placed(s: System, c: Call, ps: map<nat, Place>): map<nat, Place> {
    if (c.Accept? || c.Receive?) && EffectOf(s, c).requests != [] && EffectOf(s, c).reg.messages != [] then
      var ms := EffectOf(s, c).reg.messages;
      ps[s.dsp.rows.nextId := Place(ms[|ms| - 1].conv, ms[|ms| - 1].no)]
    else ps
  }

  ghost function PlacesAfter(s: System, cs: seq<Call>, ps: map<nat, Place>): map<nat, Place>
    requires CanDo(s, cs)
    decreases |cs|
  {
    if cs == [] then ps else PlacesAfter(Done(s, cs[0]), cs[1..], Placed(s, cs[0], ps))
  }

  /** Within a conversation, later webhooks are of later messages, and the next message comes after all of them. */
  ghost predicate PlacesAscend(reg: Reg, ps: map<nat, Place>, nextId: nat) {
    && (forall id | id in ps :: id < nextId && ps[id].conv < reg.nextConv)
    && (forall a, b | a in ps && b in ps && a < b && ps[a].conv == ps[b].conv :: ps[a].no < ps[b].no)
    && (forall key, id | key in reg.convs && id in ps && ps[id].conv == reg.convs[key].id :: ps[id].no < reg.convs[key].next)
  }

  /** The record agrees with the stored messages. */
  ghost predicate PlacesTrue(ms: seq<Message>, hs: seq<Hook>, ps: map<nat, Place>) {
    forall i | 0 <= i < |hs| && IsFirst(hs[i]) :: hs[i].id in ps && ps[hs[i].id] == Place(hs[i].conv, NoOf(ms, hs[i].wamid))
  }

  predicate StartsFirst(e: D.Event) { e.Begin? && Stage(e.job.kind) == 0 }

  /** Every attempt of a first webhook is of a message on record. */
  ghost predicate TracePlaced(tr: seq<D.Event>, ps: map<nat, Place>) {
    forall p | 0 <= p < |tr| && StartsFirst(tr[p]) :: tr[p].job.id in ps && ps[tr[p].job.id].conv == tr[p].job.conv
  }

  ghost predicate PlacesOk(s: System, ps: map<nat, Place>) {
    && PlacesAscend(s.reg, ps, s.dsp.rows.nextId)
    && PlacesTrue(s.reg.messages, Hooks(s.dsp.rows.jobs), ps)
    && TracePlaced(s.dsp.trace, ps)
  }

  lemma StoredAscends(reg: Reg, d: Draft, ps: map<nat, Place>, next: nat)
    requires RegOk(reg) && PlacesAscend(reg, ps, next)
    ensures PlacesAscend(Stored(reg, d), ps[next := Place(MessageOf(reg, d).conv, MessageOf(reg, d).no)], next + 1)
  {
    var t, c, qs := Stored(reg, d), ConvOf(reg, d), ps[next := Place(MessageOf(reg, d).conv, MessageOf(reg, d).no)];
    forall a | a in ps && ps[a].conv == c.id ensures ps[a].no < c.next {
      assert (d.phone, d.customer) in reg.convs;
    }
    forall key, id | key in t.convs && id in qs && qs[id].conv == t.convs[key].id ensures qs[id].no < t.convs[key].next {
      if key != (d.phone, d.customer) { OtherConv(reg, d, key); }
    }
  }

  lemma OtherConv(reg: Reg, d: Draft, key: (string, string))
    requires RegOk(reg) && key in reg.convs && key != (d.phone, d.customer)
    ensures Stored(reg, d).convs[key] == reg.convs[key] && reg.convs[key].id != ConvOf(reg, d).id
  {}

  lemma StoredTrue(reg: Reg, hs: seq<Hook>, d: Draft, ps: map<nat, Place>, h: Hook)
    requires RegOk(reg) && Balanced(reg.messages, hs) && PlacesTrue(reg.messages, hs, ps) && Fresh(reg, d.wamid)
    requires (forall i | 0 <= i < |hs| :: hs[i].id < h.id) && h.wamid == d.wamid && h.conv == MessageOf(reg, d).conv
    ensures PlacesTrue(Stored(reg, d).messages, hs + [h], ps[h.id := Place(MessageOf(reg, d).conv, MessageOf(reg, d).no)])
  {
    var m, all := MessageOf(reg, d), hs + [h];
    GetMessageNew(reg.messages, m);
    forall i | 0 <= i < |hs| ensures NoOf(reg.messages + [m], hs[i].wamid) == NoOf(reg.messages, hs[i].wamid) {
      assert hs[i] in hs;
      HookMessage(reg, hs, hs[i]);
      GetMessageAppend(reg.messages, m, hs[i].wamid);
    }
  }

  /** The draft behind a call that stores a message. */
  lemma StoringCall(s: System, c: Call) returns (d: Draft)
    requires Allowed(s, c) && (c.Accept? || c.Receive?) && EffectOf(s, c).requests != []
    ensures Fresh(s.reg, d.wamid)
    ensures var e := EffectOf(s, c);
            && e.reg == Stored(s.reg, d) && |e.requests| == 1
            && e.requests[0].wamid == d.wamid && e.requests[0].conv == MessageOf(s.reg, d).conv
  {
    match c
    case Accept(phone, customer, text, wamid, now) => d := Draft(wamid, ToCustomer, phone, customer, text, now);
    case Receive(sender, to, body, wamid, now) =>
      d := Draft(wamid, FromCustomer, GetBusiness(s.reg.businesses, to).value.phone, GetCustomer(s.reg.customers, sender).value.number, body, now);
  }

  lemma StoredRowsTrue(s: System, d: Draft, ps: map<nat, Place>, r: Request)
    requires SysInv(s) && PlacesOk(s, ps) && Fresh(s.reg, d.wamid) && r.wamid == d.wamid && r.conv == MessageOf(s.reg, d).conv
    ensures var next := s.dsp.rows.nextId;
            PlacesTrue(Stored(s.reg, d).messages, Hooks(s.dsp.rows.jobs) + Asked([r], next), ps[next := Place(MessageOf(s.reg, d).conv, MessageOf(s.reg, d).no)])
  {
    var hs, next := Hooks(s.dsp.rows.jobs), s.dsp.rows.nextId;
    HooksBelow(s.dsp);
    forall i | 0 <= i < |hs| ensures hs[i].id < next { assert hs[i] in hs; }
    StoredTrue(s.reg, hs, d, ps, Hook(next, r.conv, r.wamid, r.kind));
    assert Asked([r], next) == [Hook(next, r.conv, r.wamid, r.kind)];
  }

  /** The message, its webhook and its place, all at once. */
  lemma StoringDone(s: System, c: Call, ps: map<nat, Place>) returns (d: Draft, r: Request)
    requires Allowed(s, c) && (c.Accept? || c.Receive?) && EffectOf(s, c).requests != []
    ensures Fresh(s.reg, d.wamid) && r.wamid == d.wamid && r.conv == MessageOf(s.reg, d).conv
    ensures var t, next := Done(s, c), s.dsp.rows.nextId;
            && t.reg == Stored(s.reg, d) && t.dsp.trace == s.dsp.trace
            && Hooks(t.dsp.rows.jobs) == Hooks(s.dsp.rows.jobs) + Asked([r], next) && t.dsp.rows.nextId == next + 1
            && Placed(s, c, ps) == ps[next := Place(MessageOf(s.reg, d).conv, MessageOf(s.reg, d).no)]
  {
    var e := EffectOf(s, c);
    d := StoringCall(s, c);
    r := e.requests[0];
    assert e.requests == [r];
    EnqueueAllHooks(s.dsp, e.requests, c.now);
    EnqueueAllTrace(s.dsp, e.requests, c.now);
  }

  lemma StoringPlaces(s: System, c: Call, ps: map<nat, Place>)
    requires SysInv(s) && PlacesOk(s, ps) && Allowed(s, c) && (c.Accept? || c.Receive?) && EffectOf(s, c).requests != []
    ensures PlacesOk(Done(s, c), Placed(s, c, ps))
  {
    var d, r := StoringDone(s, c, ps);
    StoredAscends(s.reg, d, ps, s.dsp.rows.nextId);
    StoredRowsTrue(s, d, ps, r);
    TraceKept(s.dsp.trace, ps, s.dsp.rows.nextId, Place(MessageOf(s.reg, d).conv, MessageOf(s.reg, d).no));
  }

  lemma TraceKept(tr: seq<D.Event>, ps: map<nat, Place>, id: nat, place: Place)
    requires TracePlaced(tr, ps) && forall a | a in ps :: a < id
    ensures TracePlaced(tr, ps[id := place])
  {}

  /** The same messages but for their times, and only webhooks of later statuses. */
  ghost predicate OnlyTimes(reg: Reg, t: Reg) {
    && t.convs == reg.convs && t.nextConv == reg.nextConv && |t.messages| == |reg.messages|
    && forall i | 0 <= i < |reg.messages| :: t.messages[i].wamid == reg.messages[i].wamid && t.messages[i].no == reg.messages[i].no
  }

  lemma MarkingTrue(reg: Reg, t: Reg, hs: seq<Hook>, gs: seq<Hook>, ps: map<nat, Place>)
    requires OnlyTimes(reg, t) && PlacesTrue(reg.messages, hs, ps) && forall i | 0 <= i < |gs| :: !IsFirst(gs[i])
    ensures PlacesTrue(t.messages, hs + gs, ps)
  {
    forall i | 0 <= i < |hs| ensures NoOf(t.messages, hs[i].wamid) == NoOf(reg.messages, hs[i].wamid) {
      GetMessageSame(reg.messages, t.messages, hs[i].wamid);
    }
  }

  lemma MarkingCall(s: System, c: Call)
    requires c.Deliver? || c.MarkRead? || c.MarkInbound? || ((c.Accept? || c.Receive?) && Allowed(s, c) && EffectOf(s, c).requests == [])
    ensures OnlyTimes(s.reg, EffectOf(s, c).reg)
    ensures forall i | 0 <= i < |EffectOf(s, c).requests| :: Stage(EffectOf(s, c).requests[i].kind) != 0
  {
    match c
    case Deliver(msgs, now) => DeliverMarks(s.reg, msgs, now);
    case MarkRead(customer, peer, now) => ReadMarks(s.reg, customer, peer, now);
    case MarkInbound(_, wamid, now) => MarkedTimes(s.reg, [wamid], now);
    case Accept(_, _, _, _, _) =>
    case Receive(_, _, _, _, _) =>
  }

  lemma MarkedTimes(reg: Reg, wamids: seq<string>, now: int)
    ensures OnlyTimes(reg, SetDelivered(reg, wamids, now)) && OnlyTimes(reg, SetRead(reg, wamids, now)) && OnlyTimes(reg, reg)
  {}

  lemma DeliverMarks(reg: Reg, msgs: seq<Message>, now: int)
    ensures var e := DeliveredCall(reg, msgs, now);
            OnlyTimes(reg, e.reg) && forall i | 0 <= i < |e.requests| :: Stage(e.requests[i].kind) != 0
  {
    MarkedTimes(reg, Wamids(DeliveredTodo(reg, msgs)), now);
  }

  lemma ReadMarks(reg: Reg, customer: string, peer: string, now: int)
    ensures var e := ReadCall(reg, customer, peer, now);
            OnlyTimes(reg, e.reg) && forall i | 0 <= i < |e.requests| :: Stage(e.requests[i].kind) != 0
  {
    match GetBusiness(reg.businesses, peer)
    case None =>
    case Some(b) => MarkedTimes(reg, Wamids(UnreadDelivered(reg, customer, b.phone)), now);
  }

  lemma MarkingPlaces(s: System, c: Call, ps: map<nat, Place>)
    requires SysInv(s) && PlacesOk(s, ps) && Allowed(s, c) && !c.Numbers? && !c.Wipe? && !c.Dispatch?
    requires (c.Accept? || c.Receive?) ==> EffectOf(s, c).requests == []
    ensures PlacesOk(Done(s, c), ps)
  {
    MarkingCall(s, c);
    EffectPlaces(s, EffectOf(s, c), c.now, ps);
  }

  lemma EffectPlaces(s: System, e: Effect, now: int, ps: map<nat, Place>)
    requires PlacesOk(s, ps) && OnlyTimes(s.reg, e.reg) && forall i | 0 <= i < |e.requests| :: Stage(e.requests[i].kind) != 0
    ensures PlacesOk(s.(reg := e.reg, dsp := EnqueueAll(s.dsp, e.requests, now)), ps)
  {
    EnqueueAllHooks(s.dsp, e.requests, now);
    EnqueueAllTrace(s.dsp, e.requests, now);
    MarkingTrue(s.reg, e.reg, Hooks(s.dsp.rows.jobs), Asked(e.requests, s.dsp.rows.nextId), ps);
  }

  lemma DispatchPlaces(s: System, step: D.Step, ps: map<nat, Place>)
    requires SysInv(s) && PlacesOk(s, ps) && Allowed(s, Dispatch(step))
    ensures PlacesOk(Done(s, Dispatch(step)), ps)
  {
    var d, t := s.dsp, D.Apply(s.dsp, step);
    OnlyFireBegins(d, step);
    DispatchHooks(d, step);
    if |t.trace| > |d.trace| && StartsFirst(t.trace[|d.trace|]) {
      var i := BeginHasRow(d, step.k, step.now);
      RowPlaced(s, i, t.trace[|d.trace|].job, ps);
    }
    TraceGrows(d.trace, t.trace, ps);
  }

  /** A row of a first webhook is on record with its conversation. */
  lemma RowPlaced(s: System, i: nat, job: Job, ps: map<nat, Place>)
    requires PlacesOk(s, ps) && i < |s.dsp.rows.jobs| && DO.SameHook(job, s.dsp.rows.jobs[i]) && Stage(job.kind) == 0
    ensures job.id in ps && ps[job.id].conv == job.conv
  {
    assert IsFirst(Hooks(s.dsp.rows.jobs)[i]);
  }

  lemma TraceGrows(tr: seq<D.Event>, tr': seq<D.Event>, ps: map<nat, Place>)
    requires TracePlaced(tr, ps) && tr <= tr' && |tr'| <= |tr| + 1
    requires |tr'| > |tr| && StartsFirst(tr'[|tr|]) ==> tr'[|tr|].job.id in ps && ps[tr'[|tr|].job.id].conv == tr'[|tr|].job.conv
    ensures TracePlaced(tr', ps)
  {
    forall p | 0 <= p < |tr'| && StartsFirst(tr'[p]) ensures tr'[p].job.id in ps && ps[tr'[p].job.id].conv == tr'[p].job.conv {
      if p < |tr| { assert tr'[p] == tr[p]; }
    }
  }

  lemma StoringOrNot(s: System, c: Call, ps: map<nat, Place>)
    requires SysInv(s) && PlacesOk(s, ps) && Allowed(s, c) && (c.Accept? || c.Receive?)
    ensures PlacesOk(Done(s, c), Placed(s, c, ps))
  {
    if EffectOf(s, c).requests != [] { StoringPlaces(s, c, ps); } else { MarkingPlaces(s, c, ps); }
  }

  lemma WipePlaces(s: System, keep: bool, ps: map<nat, Place>)
    requires PlacesOk(s, ps)
    ensures PlacesOk(Done(s, Wipe(keep)), ps)
  {
    assert Hooks([]) == [];
  }

  lemma CallPlaces(s: System, c: Call, ps: map<nat, Place>)
    requires SysInv(s) && PlacesOk(s, ps) && Allowed(s, c)
    ensures PlacesOk(Done(s, c), Placed(s, c, ps))
  {
    match c
    case Numbers(_, _) =>
    case Wipe(keep) => WipePlaces(s, keep, ps);
    case Dispatch(step) => DispatchPlaces(s, step, ps);
    case Accept(_, _, _, _, _) => StoringOrNot(s, c, ps);
    case Receive(_, _, _, _, _) => StoringOrNot(s, c, ps);
    case _ => MarkingPlaces(s, c, ps);
  }

  lemma CallKeepsPlaces(s: System, c: Call, ps: map<nat, Place>)
    requires SysInv(s) && PlacesOk(s, ps) && Allowed(s, c)
    ensures SysInv(Done(s, c)) && PlacesOk(Done(s, c), Placed(s, c, ps))
  {
    CallInv(s, c);
    CallPlaces(s, c, ps);
  }

  lemma {:induction false} RunPlaces(s: System, cs: seq<Call>, ps: map<nat, Place>)
    requires SysInv(s) && PlacesOk(s, ps) && CanDo(s, cs)
    ensures SysInv(DoAll(s, cs)) && PlacesOk(DoAll(s, cs), PlacesAfter(s, cs, ps))
    decreases |cs|
  {
    if cs != [] {
      DoUnfold(s, cs);
      CallKeepsPlaces(s, cs[0], ps);
      RunPlaces(Done(s, cs[0]), cs[1..], Placed(s, cs[0], ps));
    }
  }

  lemma BootPlaces(cfg: D.Config, delay: nat, clock: int, cs: seq<Call>)
    requires cfg.Ok() && CanDo(Boot(cfg, delay, clock), cs)
    ensures var s := DoAll(Boot(cfg, delay, clock), cs); SysInv(s) && PlacesOk(s, PlacesAfter(Boot(cfg, delay, clock), cs, map[]))
  {
    BootInv(cfg, delay, clock);
    assert Hooks([]) == [];
    RunPlaces(Boot(cfg, delay, clock), cs, map[]);
  }

  /**
   End to end, over the whole trace of every run: the `sent` and `inbound` webhooks of a conversation reach Comdove in
   the order of its messages; two attempts are of the same webhook or of an earlier and a later message.
   */
  lemma FirstsInMessageOrder(cfg: D.Config, delay: nat, clock: int, cs: seq<Call>, p: nat, q: nat)
    requires cfg.Ok() && CanDo(Boot(cfg, delay, clock), cs)
    requires var tr := DoAll(Boot(cfg, delay, clock), cs).dsp.trace;
             p < q < |tr| && StartsFirst(tr[p]) && StartsFirst(tr[q]) && tr[p].job.conv == tr[q].job.conv
    ensures var tr := DoAll(Boot(cfg, delay, clock), cs).dsp.trace;
            var ps := PlacesAfter(Boot(cfg, delay, clock), cs, map[]);
            var a, b := tr[p].job.id, tr[q].job.id;
            && a in ps && b in ps && ps[a].conv == ps[b].conv == tr[p].job.conv
            && (a == b || ps[a].no < ps[b].no)
  {
    BootPlaces(cfg, delay, clock, cs);
    var s := DoAll(Boot(cfg, delay, clock), cs);
    assert DO.InIdOrder(s.dsp.trace);
  }

  /** The places on record are those of the stored messages. */
  lemma PlacesAreNumbers(cfg: D.Config, delay: nat, clock: int, cs: seq<Call>, i: nat)
    requires cfg.Ok() && CanDo(Boot(cfg, delay, clock), cs)
    requires var jobs := DoAll(Boot(cfg, delay, clock), cs).dsp.rows.jobs; i < |jobs| && Stage(jobs[i].kind) == 0
    ensures var s := DoAll(Boot(cfg, delay, clock), cs);
            var ps := PlacesAfter(Boot(cfg, delay, clock), cs, map[]);
            var job := s.dsp.rows.jobs[i];
            && GetMessage(s.reg.messages, job.wamid).Some? && job.id in ps
            && ps[job.id] == Place(GetMessage(s.reg.messages, job.wamid).value.conv, GetMessage(s.reg.messages, job.wamid).value.no)
  {
    BootPlaces(cfg, delay, clock, cs);
    var s := DoAll(Boot(cfg, delay, clock), cs);
    var hs := Hooks(s.dsp.rows.jobs);
    assert hs[i] in hs && IsFirst(hs[i]);
    HookMessage(s.reg, hs, hs[i]);
  }
}
