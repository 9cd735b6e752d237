/** An outbound message keeps its webhooks, and everything queued behind them, back for the configured delay. */
module Timing {
  import opened Prelude
  import opened JobStore
  import opened Registry
  import opened Lifecycle
  import opened Conservation
  import E = EndToEnd
  import D = Dispatcher
  import DS = DispatcherSlots
  import DB = DispatcherBlocks
  import DD = DispatcherDrain
  import DR = DispatcherRuns

  /** Every queued `sent` webhook is held back until `delay` after its message was accepted, and no other webhook is. */
  ghost predicate Held(pushed: seq<D.Entry>, delay: nat) {
    forall i | 0 <= i < |pushed| :: HeldJob(pushed[i].job, delay)
  }

  predicate HeldJob(j: Job, delay: nat) { j.notBefore == if j.kind.Sent? then j.payload.at + delay else 0 }

  predicate HeldRequest(r: Request, delay: nat) { r.notBefore == if r.kind.Sent? then r.payload.at + delay else 0 }

  lemma {:induction false} EnqueueAllHeld(d: D.State, rs: seq<Request>, now: int, delay: nat)
    requires Held(d.pushed, delay) && forall i | 0 <= i < |rs| :: HeldRequest(rs[i], delay)
    ensures Held(E.EnqueueAll(d, rs, now).pushed, delay)
  {
    if rs != [] {
      var n := |rs| - 1;
      EnqueueAllHeld(d, rs[..n], now, delay);
      EnqueuedHeld(E.EnqueueAll(d, rs[..n], now), rs[n], now, delay);
    }
  }

  lemma EnqueuedHeld(d: D.State, r: Request, now: int, delay: nat)
    requires Held(d.pushed, delay) && HeldRequest(r, delay)
    ensures Held(D.Enqueued(d, r, now).pushed, delay)
  {
    DS.PumpAdmits(D.Queued(d.(rows := Inserted(d.rows, r, now), clock := now), NewJob(r, d.rows.nextId, now)), r.conv);
  }

  lemma EffectHeld(s: E.System, c: E.Call)
    requires c.Accept? || c.Deliver? || c.MarkRead? || c.Receive? || c.MarkInbound?
    ensures forall i | 0 <= i < |E.EffectOf(s, c).requests| :: HeldRequest(E.EffectOf(s, c).requests[i], s.delay)
  {}

  /** A restart queues what is unfinished with no delay: the hold is kept in memory only. */
  predicate Unbroken(cs: seq<E.Call>) {
    forall i | 0 <= i < |cs| :: !(cs[i].Dispatch? && cs[i].step.Restart?)
  }

  lemma CallHeld(s: E.System, c: E.Call)
    requires E.SysInv(s) && E.Allowed(s, c) && Held(s.dsp.pushed, s.delay) && !(c.Dispatch? && c.step.Restart?)
    ensures Held(E.Done(s, c).dsp.pushed, s.delay) && E.Done(s, c).delay == s.delay
  {
    match c
    case Numbers(_, _) =>
    case Wipe(_) =>
    case Dispatch(step) => if DD.Internal(step) { DD.InternalKeepsPushed(s.dsp, step); }
    case _ =>
      EffectHeld(s, c);
      EnqueueAllHeld(s.dsp, E.EffectOf(s, c).requests, c.now, s.delay);
  }

  lemma CallKeepsHeld(s: E.System, c: E.Call)
    requires E.SysInv(s) && E.Allowed(s, c) && Held(s.dsp.pushed, s.delay) && !(c.Dispatch? && c.step.Restart?)
    ensures Held(E.Done(s, c).dsp.pushed, s.delay) && E.Done(s, c).delay == s.delay && E.SysInv(E.Done(s, c))
  {
    CallHeld(s, c);
    E.CallInv(s, c);
  }

  lemma UnbrokenRest(cs: seq<E.Call>)
    requires cs != [] && Unbroken(cs)
    ensures !(cs[0].Dispatch? && cs[0].step.Restart?) && Unbroken(cs[1..])
  {}

  lemma {:induction false} RunHeld(s: E.System, cs: seq<E.Call>)
    requires E.SysInv(s) && E.CanDo(s, cs) && Held(s.dsp.pushed, s.delay) && Unbroken(cs)
    ensures Held(E.DoAll(s, cs).dsp.pushed, s.delay) && E.DoAll(s, cs).delay == s.delay && E.SysInv(E.DoAll(s, cs))
    decreases |cs|
  {
    if cs != [] {
      UnbrokenRest(cs);
      CallKeepsHeld(s, cs[0]);
      RunHeld(E.Done(s, cs[0]), cs[1..]);
    }
  }

  lemma {:induction false} PushedOfIn(es: seq<D.Entry>, g: nat, c: nat, delay: nat)
    requires Held(es, delay)
    ensures forall i | 0 <= i < |DB.PushedOf(es, g, c)| :: HeldJob(DB.PushedOf(es, g, c)[i], delay)
  {
    if es != [] { PushedOfIn(es[..|es| - 1], g, c, delay); }
  }

  /** `job` stands in `js`, and every outbound message announced up to there was accepted at least `delay` before `at`. */
  ghost predicate DelayOver(js: seq<Job>, job: Job, at: int, delay: nat) {
    exists k :: 0 <= k < |js| && js[k] == job && forall i | 0 <= i <= k && js[i].kind.Sent? :: js[i].payload.at + delay <= at
  }

  lemma HeldUntilDelay(d: D.State, delay: nat, g: nat, c: nat, p: nat)
    requires DR.Inv(d) && Held(d.pushed, delay)
    requires p < |DB.TraceOf(d.trace, g, c)| && DB.TraceOf(d.trace, g, c)[p].Begin?
    ensures DelayOver(DB.PushedOf(d.pushed, g, c), DB.TraceOf(d.trace, g, c)[p].job, DB.TraceOf(d.trace, g, c)[p].at, delay)
  {
    PushedOfIn(d.pushed, g, c, delay);
    DR.NothingEarlyIn(d, g, c, p);
  }

  lemma UnbrokenHeld(cfg: D.Config, delay: nat, clock: int, cs: seq<E.Call>)
    requires cfg.Ok() && E.CanDo(E.Boot(cfg, delay, clock), cs) && Unbroken(cs)
    ensures var s := E.DoAll(E.Boot(cfg, delay, clock), cs); DR.Inv(s.dsp) && Held(s.dsp.pushed, delay)
  {
    E.BootInv(cfg, delay, clock);
    RunHeld(E.Boot(cfg, delay, clock), cs);
  }

  /** Without a restart, exactly the `sent` webhooks wait: until their message was accepted plus the configured delay. */
  lemma OnlySentIsHeld(cfg: D.Config, delay: nat, clock: int, cs: seq<E.Call>, k: D.Key)
    requires cfg.Ok() && E.CanDo(E.Boot(cfg, delay, clock), cs) && Unbroken(cs)
    requires k in E.DoAll(E.Boot(cfg, delay, clock), cs).dsp.runs
    ensures var j := E.DoAll(E.Boot(cfg, delay, clock), cs).dsp.runs[k].job;
            j.notBefore == if j.kind.Sent? then j.payload.at + delay else 0
  {
    UnbrokenHeld(cfg, delay, clock, cs);
    var d := E.DoAll(E.Boot(cfg, delay, clock), cs).dsp;
    assert D.Entry(k.gen, d.runs[k].job) in d.pushed;
    var i :| 0 <= i < |d.pushed| && d.pushed[i] == D.Entry(k.gen, d.runs[k].job);
    assert HeldJob(d.pushed[i].job, delay);
  }

  /**
   Without a restart, no webhook of an outbound message, and nothing queued behind it in its conversation, is attempted
   before the message was accepted plus the configured delay.
   */
  lemma NothingBeforeDelay(cfg: D.Config, delay: nat, clock: int, cs: seq<E.Call>, g: nat, c: nat, p: nat)
    requires cfg.Ok() && E.CanDo(E.Boot(cfg, delay, clock), cs) && Unbroken(cs)
    requires var tr := DB.TraceOf(E.DoAll(E.Boot(cfg, delay, clock), cs).dsp.trace, g, c); p < |tr| && tr[p].Begin?
    ensures var d := E.DoAll(E.Boot(cfg, delay, clock), cs).dsp;
            DelayOver(DB.PushedOf(d.pushed, g, c), DB.TraceOf(d.trace, g, c)[p].job, DB.TraceOf(d.trace, g, c)[p].at, delay)
  {
    UnbrokenHeld(cfg, delay, clock, cs);
    HeldUntilDelay(E.DoAll(E.Boot(cfg, delay, clock), cs).dsp, delay, g, c, p);
  }
}
