/** All runs of the live engine, and what they guarantee to the tabs, the admin pages and the messages. */
module LiveRuns {
  import opened Prelude
  import opened JobStore
  import opened Registry
  import opened Lifecycle
  import opened Conservation
  import opened StoreGroups
  import opened Sessions
  import opened Live
  import opened LiveNet
  import opened LiveFeed
  import opened LiveLog
  import opened LiveQueue
  import opened LiveTabs
  import opened LiveMirror
  import opened LiveTabSteps
  import opened LiveHidden

  ghost predicate LiveInv(l: Live) {
    NetOk(l) && FeedsOk(l) && LogOk(l) && StoreOk(l) && TabsOk(l) && AllHiddenOk(l)
  }

  /** A server that just started over a sound store: no session, no response under way. */
  ghost predicate Booted(l: Live) {
    && l == Live(EmptyNet, l.groups, l.reg, map[], map[], map[], map[], {}, map[], {}, [])
    && RegOk(l.reg) && AllRegistered(l.reg, l.reg.businesses) && CustomersOnce(l.reg.customers)
  }

  lemma BootedInv(l: Live)
    requires Booted(l)
    ensures LiveInv(l)
  {
    assert forall sid: nat :: Hidden(l, sid) == {};
  }

  lemma StepInv(l: Live, st: LiveStep)
    requires LiveInv(l) && LiveEnabled(l, st)
    ensures LiveInv(LiveApply(l, st))
  {
    StepNetOk(l, st);
    StepFeedsOk(l, st);
    StepLogOk(l, st);
    StepStoreOk(l, st);
    StepTabsOk(l, st);
    StepHiddenOk(l, st);
  }

  ghost predicate LiveCanRun(l: Live, steps: seq<LiveStep>)
    decreases |steps|
  {
    steps == [] || (LiveEnabled(l, steps[0]) && LiveCanRun(LiveApply(l, steps[0]), steps[1..]))
  }

  ghost function LiveRun(l: Live, steps: seq<LiveStep>): Live
    requires LiveCanRun(l, steps)
    decreases |steps|
  {
    if steps == [] then l else LiveRun(LiveApply(l, steps[0]), steps[1..])
  }

  ghost predicate LiveReachable(l: Live) {
    exists l0: Live, steps: seq<LiveStep> :: Booted(l0) && LiveCanRun(l0, steps) && l == LiveRun(l0, steps)
  }

  lemma {:induction false} RunInv(l: Live, steps: seq<LiveStep>)
    requires LiveInv(l) && LiveCanRun(l, steps)
    ensures LiveInv(LiveRun(l, steps))
    decreases |steps|
  {
    if steps != [] {
      StepInv(l, steps[0]);
      RunInv(LiveApply(l, steps[0]), steps[1..]);
    }
  }

  lemma ReachableInv(l: Live)
    requires LiveReachable(l)
    ensures LiveInv(l)
  {
    var l0: Live, steps: seq<LiveStep> :| Booted(l0) && LiveCanRun(l0, steps) && l == LiveRun(l0, steps);
    BootedInv(l0);
    RunInv(l0, steps);
  }

  // ---- main results ----

  /**
   The tab that holds a group tells, for each message of the group, the status the store has now, or `sent` for a
   delivered message that a late copy put back since the last snapshot. What it does not show nobody delivered yet, or
   the last snapshot cut it, and then fifty others of its tile are not older.
   */
  lemma TabMirror(l: Live, sid: nat, g: string, m: Message)
    requires LiveReachable(l) && Holds(l.net, sid, g) && Open(l, sid)
    requires m in l.reg.messages && InGroup(l.reg, m, g)
    ensures m.wamid in View(Tab(l, sid)) ==>
              View(Tab(l, sid))[m.wamid] == StatusOf(m) || (m.wamid in Stale(l, sid) && View(Tab(l, sid))[m.wamid] == WasSent)
    ensures m.wamid !in View(Tab(l, sid)) ==> Waiting(m) || (m.wamid in Hidden(l, sid) && Buried(l.reg, m))
  {
    ReachableInv(l);
    TabTells(l, sid, g, m);
    assert HiddenOk(l.reg, Hidden(l, sid));
  }

  lemma TabTells(l: Live, sid: nat, g: string, m: Message)
    requires NetOk(l) && TabsOk(l) && Holds(l.net, sid, g) && Open(l, sid) && m in l.reg.messages && InGroup(l.reg, m, g)
    ensures Tells(m, View(Tab(l, sid)), Hidden(l, sid), Stale(l, sid))
  {
    assert Indexed(l.net, sid, g);
    assert TabOk(l, sid, g);
  }

  /** No response that finishes in the run is a late copy. */
  ghost predicate NoLateCopies(l: Live, steps: seq<LiveStep>)
    requires LiveCanRun(l, steps)
    decreases |steps|
  {
    steps == [] || (!LateStep(l, steps[0]) && NoLateCopies(LiveApply(l, steps[0]), steps[1..]))
  }

  lemma {:induction false} RunStale(l: Live, steps: seq<LiveStep>, sid: nat)
    requires LiveInv(l) && LiveCanRun(l, steps) && NoLateCopies(l, steps) && Stale(l, sid) == {}
    ensures Stale(LiveRun(l, steps), sid) == {}
    decreases |steps|
  {
    if steps != [] {
      StepStale(l, steps[0], sid);
      StepInv(l, steps[0]);
      RunStale(LiveApply(l, steps[0]), steps[1..], sid);
    }
  }

  /** Without late copies every bubble shows exactly the stored status. */
  lemma ExactMirror(l0: Live, steps: seq<LiveStep>, sid: nat, g: string, m: Message)
    requires Booted(l0) && LiveCanRun(l0, steps) && NoLateCopies(l0, steps)
    requires var l := LiveRun(l0, steps);
             && Holds(l.net, sid, g) && Open(l, sid) && m in l.reg.messages && InGroup(l.reg, m, g) && m.wamid in View(Tab(l, sid))
    ensures View(Tab(LiveRun(l0, steps), sid))[m.wamid] == StatusOf(m)
  {
    BootedInv(l0);
    RunStale(l0, steps, sid);
    RunInv(l0, steps);
    TabTells(LiveRun(l0, steps), sid, g, m);
  }

  ghost predicate NoSnapshots(steps: seq<LiveStep>, sid: nat) {
    forall i | 0 <= i < |steps| :: NoSnapshot(steps[i], sid)
  }

  lemma {:induction false} HiddenStays(l: Live, steps: seq<LiveStep>, sid: nat)
    requires LiveInv(l) && LiveCanRun(l, steps) && NoSnapshots(steps, sid)
    ensures Hidden(LiveRun(l, steps), sid) == Hidden(l, sid)
    decreases |steps|
  {
    if steps != [] {
      assert NoSnapshot(steps[0], sid);
      StepMarks(l, steps[0], sid);
      StepInv(l, steps[0]);
      HiddenStays(LiveApply(l, steps[0]), steps[1..], sid);
    }
  }

  /** What nobody had delivered at some time since the last snapshot is never hidden by it, whatever happens later. */
  lemma WaitingStaysShown(l: Live, steps: seq<LiveStep>, sid: nat, m: Message)
    requires LiveReachable(l) && m in l.reg.messages && Waiting(m)
    requires LiveCanRun(l, steps) && NoSnapshots(steps, sid)
    ensures m.wamid !in Hidden(LiveRun(l, steps), sid)
  {
    ReachableInv(l);
    assert HiddenOk(l.reg, Hidden(l, sid));
    HiddenStays(l, steps, sid);
  }

  /** The session steps of a run of the engine. */
  ghost function NetStepsOf(l: Live, steps: seq<LiveStep>): seq<NetStep>
    requires LiveCanRun(l, steps)
    decreases |steps|
  {
    if steps == [] then [] else NetSteps(l, steps[0]) + NetStepsOf(LiveApply(l, steps[0]), steps[1..])
  }

  /** Every run of the engine is, for sessions, lock and index, a run of session steps. */
  lemma {:induction false} RunIsNet(l: Live, steps: seq<LiveStep>)
    requires LiveInv(l) && LiveCanRun(l, steps)
    ensures NetCanRun(l.net, NetStepsOf(l, steps)) && NetRun(l.net, NetStepsOf(l, steps)) == LiveRun(l, steps).net
    decreases |steps|
  {
    if steps != [] {
      StepIsNet(l, steps[0]);
      StepInv(l, steps[0]);
      RunIsNet(LiveApply(l, steps[0]), steps[1..]);
      RunCat(l.net, NetSteps(l, steps[0]), NetStepsOf(LiveApply(l, steps[0]), steps[1..]));
    }
  }

  /** Lock, index and role agree about every group, and only groups that exist are held. */
  lemma HoldersAgree(l: Live, sid: nat, g: string)
    requires LiveReachable(l)
    ensures Owns(l.net, sid, g) <==> Holds(l.net, sid, g)
    ensures Indexed(l.net, sid, g) <==> Holds(l.net, sid, g)
    ensures Holds(l.net, sid, g) ==> g in l.groups
  {
    var l0: Live, steps: seq<LiveStep> :| Booted(l0) && LiveCanRun(l0, steps) && l == LiveRun(l0, steps);
    BootedInv(l0);
    RunIsNet(l0, steps);
    HolderAgreement(NetStepsOf(l0, steps));
    RunInv(l0, steps);
  }

  /** A client of the engine that sends no pong between two heartbeats is ended by the second. */
  lemma SilentTabIsDropped(l: Live, steps: seq<LiveStep>, sid: nat)
    requires LiveReachable(l) && LiveCanRun(l, steps) && sid in l.net.sessions && l.net.sessions[sid].client
    requires SilentInterval(NetStepsOf(l, steps), sid)
    ensures sid in LiveRun(l, steps).net.sessions && !Open(LiveRun(l, steps), sid)
  {
    ReachableInv(l);
    RunIsNet(l, steps);
    SilentIsDropped(l.net, NetStepsOf(l, steps), sid, "");
  }

  /** Between two resets an admin's log has one entry per message, then only updates. */
  lemma OneEntryPerMessage(l: Live, j: nat)
    requires LiveReachable(l) && j < |l.log| && (l.log[j].LogEntry? || l.log[j].LogUpdate?)
    ensures l.log[j].LogUpdate? <==> exists i :: 0 <= i < j && l.log[i] == LogEntry(l.log[j].wamid) && NoReset(l.log, i, j)
  {
    ReachableInv(l);
    EntryThenUpdates(l, j);
  }

  // ---- the flush, exactly ----

  lemma {:induction false} SortFixed(ms: seq<Message>)
    requires SortedByNo(ms)
    ensures SortByNo(ms) == ms
  {
    if ms != [] {
      var n := |ms| - 1;
      SortFixed(ms[..n]);
      InsertBehind(ms[..n], ms[n]);
      assert ms == ms[..n] + [ms[n]];
    }
  }

  lemma InsertBehind(ms: seq<Message>, m: Message)
    requires ms == [] || !Before(m, ms[|ms| - 1])
    ensures InsertByNo(ms, m) == ms + [m]
  {}

  lemma {:induction false} AllUndelivered(reg: Reg, msgs: seq<Message>)
    requires RegOk(reg) && forall m | m in msgs :: m in reg.messages && Waiting(m)
    ensures Undelivered(reg, msgs) == msgs
  {
    if msgs != [] {
      var n := |msgs| - 1;
      AllUndelivered(reg, msgs[..n]);
      assert msgs[n] in msgs;
      SameWamid(reg, msgs[n], GetMessage(reg.messages, msgs[n].wamid).value);
      assert msgs == msgs[..n] + [msgs[n]];
    }
  }

  /**
   A flush hands `delivered` exactly the tile's queue, by conversation and number, each message once; one webhook is
   asked for each of them, in that order, and the queue is empty afterwards.
   */
  lemma FlushHandsQueue(reg: Reg, number: string, now: int)
    requires RegOk(reg) && AllRegistered(reg, reg.businesses)
    ensures var q, e := QueuedFor(reg, number), DeliveredCall(reg, QueuedFor(reg, number), now);
            && DeliveredTodo(reg, q) == q && SortedByNo(q) && Unique(q)
            && e.requests == StatusRequests(reg.businesses, q, Delivered, now) && e.error.None?
            && QueuedFor(e.reg, number) == []
  {
    var q, e := QueuedFor(reg, number), DeliveredCall(reg, QueuedFor(reg, number), now);
    QueuedForIs(reg, number);
    AllUndelivered(reg, q);
    SortFixed(q);
    QueueDelivered(reg, number, now);
    DeliveredEffect(reg, q, now);
    if q != [] { StatusEffectAll(SetDelivered(reg, Wamids(q), now), q, Delivered, WasDelivered, now); }
    QueueGone(e.reg, number);
  }

  lemma {:induction false} QueueOfNone(ms: seq<Message>, number: string)
    requires forall m | m in ms :: !InQueue(m, number)
    ensures QueueOf(ms, number) == []
  {
    if ms != [] { QueueOfNone(ms[..|ms| - 1], number); }
  }

  lemma QueueGone(reg: Reg, number: string)
    requires forall m | m in reg.messages && m.customer == number :: !Waiting(m)
    ensures QueuedFor(reg, number) == []
  {
    QueueOfNone(reg.messages, number);
  }
}
