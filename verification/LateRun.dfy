/**
 A run in which a late copy shows an old status: a send is accepted, a claim delivers it before its response is over,
 the tab closes, fifty newer messages come in, the group is claimed again, and only then the response finishes.
 */
module LateRun {
  import opened Prelude
  import opened Registry
  import opened Lifecycle
  import opened Conservation
  import opened StoreGroups
  import opened Sessions
  import opened Live
  import opened LiveNet
  import opened LiveQueue
  import opened LiveTabs
  import opened LiveMirror
  import opened LiveTabSteps
  import opened LiveHidden
  import opened LiveRuns

  const SHOP := Business("B", "B")
  const GUEST := Customer("C", "g", true, Manual)

  function Start(): Live {
    Live(EmptyNet, ["g"], Reg([SHOP], [GUEST], [], map[], 1), map[], map[], map[], map[], {}, map[], {}, [])
  }

  lemma StartReachable()
    ensures LiveReachable(Start())
  {
    assert Booted(Start());
    assert LiveCanRun(Start(), []) && LiveRun(Start(), []) == Start();
  }

  lemma {:induction false} RunSnoc(l: Live, steps: seq<LiveStep>, st: LiveStep)
    requires LiveCanRun(l, steps) && LiveEnabled(LiveRun(l, steps), st)
    ensures LiveCanRun(l, steps + [st]) && LiveRun(l, steps + [st]) == LiveApply(LiveRun(l, steps), st)
    decreases |steps|
  {
    if steps == [] {
      assert [st][1..] == [] && [] + [st] == [st];
      assert LiveCanRun(LiveApply(l, st), []);
    } else {
      assert (steps + [st])[1..] == steps[1..] + [st];
      RunSnoc(LiveApply(l, steps[0]), steps[1..], st);
    }
  }

  lemma ReachOn(l: Live, st: LiveStep)
    requires LiveReachable(l) && LiveEnabled(l, st)
    ensures LiveReachable(LiveApply(l, st))
  {
    var l0: Live, steps: seq<LiveStep> :| Booted(l0) && LiveCanRun(l0, steps) && l == LiveRun(l0, steps);
    RunSnoc(l0, steps, st);
  }

  // ---- the send ----

  /** The same shop and guest as at the start, and nobody listens to the log. */
  ghost predicate Scene(l: Live) {
    l.groups == ["g"] && l.reg.businesses == [SHOP] && l.reg.customers == [GUEST] && l.admins == {}
  }

  predicate TheSend(m: Message) {
    m.wamid == "w" && m.dir.ToCustomer? && m.phone == "B" && m.customer == "C" && m.createdAt == 1
  }

  ghost predicate AfterSend(l: Live) {
    && Scene(l) && l.net == Connected(EmptyNet, 1)
    && |l.reg.messages| == 1 && TheSend(l.reg.messages[0]) && l.pending == map["w" := l.reg.messages[0]]
    && l.tabs == map[] && l.hidden == map[] && l.stale == map[]
  }

  lemma QuietLog(l: Live, wamid: string)
    requires l.admins == {}
    ensures EmitAll(l, [LogChanged(wamid)]) == l
  {
    assert [LogChanged(wamid)][..0] == [];
  }

  lemma Send() returns (l: Live)
    ensures LiveReachable(l) && AfterSend(l)
  {
    StartReachable();
    ReachOn(Start(), Linking(Opened(1)));
    var l1 := LinkApply(Start(), Opened(1));
    FirstSend(l1);
    ReachOn(l1, Talking(HttpSend("B", "C", "hi", "w", 0, 1)));
    l := AcceptSend(l1, "B", "C", "hi", "w", 0, 1);
  }

  lemma FirstSend(l: Live)
    requires l == LinkApply(Start(), Opened(1))
    ensures Unseen(l, "w") && Registered(l.reg, "B") && AfterSend(AcceptSend(l, "B", "C", "hi", "w", 0, 1))
  {
    var d := Draft("w", ToCustomer, "B", "C", "hi", 1);
    QuietLog(l.(pending := l.pending["w" := MessageOf(l.reg, d)], reg := Stored(l.reg, d)), "w");
  }

  // ---- the claim that delivers it, and the end of that tab ----

  lemma OneTile()
    ensures TilesOf([GUEST], "g") == ["C"] && GetCustomer([GUEST], "C") == Some(GUEST)
  {
    assert [GUEST][..0] == [];
  }

  /** Some run may have shown the send, and nothing else. */
  ghost predicate OnlyTheSend(l: Live) {
    forall sid: nat :: View(Tab(l, sid)).Keys <= {"w"} && Hidden(l, sid) <= {"w"} && Stale(l, sid) == {} && (sid != 1 ==> Tab(l, sid) == [])
  }

  lemma SnapshotView(l: Live, sid: nat, g: string)
    requires Open(l, sid)
    ensures View(Tab(SendSnapshot(l, sid, g), sid)) == Shown(map[], SnapshotOf(l.reg, TilesOf(l.reg.customers, g)))
  {
    ViewAppend(Tab(l, sid), GroupClaimed(SnapshotOf(l.reg, TilesOf(l.reg.customers, g))));
  }

  lemma SnapshotKeys(reg: Reg, g: string)
    requires RegOk(reg) && forall m | m in reg.messages :: m.wamid == "w"
    ensures Shown(map[], SnapshotOf(reg, TilesOf(reg.customers, g))).Keys <= {"w"} && LeftOut(reg, g) <= {"w"}
  {
    var bs := SnapshotOf(reg, TilesOf(reg.customers, g));
    SnapshotStored(reg, TilesOf(reg.customers, g));
    ShownIs(map[], bs);
    forall w | w in Shown(map[], bs) ensures w == "w" { var b :| b in bs && b.wamid == w; }
  }

  lemma SnapshotOnlyTheSend(l: Live)
    requires l.net == Claimed(Connected(EmptyNet, 1), 1, "g", 2) && l.tabs == map[] && l.hidden == map[] && l.stale == map[]
    requires RegOk(l.reg) && forall m | m in l.reg.messages :: m.wamid == "w"
    ensures OnlyTheSend(SendSnapshot(l, 1, "g"))
  {
    SnapshotView(l, 1, "g");
    SnapshotKeys(l.reg, "g");
    OnlyOneTab(l, SendSnapshot(l, 1, "g"));
  }

  lemma OnlyOneTab(l: Live, t: Live)
    requires t.tabs.Keys <= {1} && t.hidden.Keys <= {1} && t.stale.Keys <= {1}
    requires View(Tab(t, 1)).Keys <= {"w"} && Hidden(t, 1) <= {"w"} && Stale(t, 1) == {}
    ensures OnlyTheSend(t)
  {
    forall sid: nat | sid != 1 ensures Tab(t, sid) == [] && Hidden(t, sid) == {} && Stale(t, sid) == {} {}
    assert View([]) == map[];
  }

  lemma OneDelivery(l: Live, now: int)
    requires IsOnline(l, "C")
    ensures var q := QueuedFor(l.reg, "C");
            DeliverTiles(l, ["C"], now) == if q == [] then l else Happened(l, DeliveredCall(l.reg, q, now))
  {
    assert ["C"][..0] == [] && ["C"][0] == "C";
    assert DeliverTiles(l, [], now) == l;
  }

  lemma EffectKeys(l: Live, e: Effect, todo: seq<Message>, now: int, sid: nat)
    requires e.events == Announcements(todo, WasDelivered, now)
    ensures View(Tab(Happened(l, e), sid)).Keys == View(Tab(l, sid)).Keys
    ensures !Open(l, sid) ==> Tab(Happened(l, e), sid) == Tab(l, sid)
  {
    if Open(l, sid) { TicksView(l.(reg := e.reg), todo, WasDelivered, now, sid); } else { ShutTab(l.(reg := e.reg), e.events, sid); }
  }

  /** Ticks add and remove no bubble. */
  lemma TickKeys(l: Live, q: seq<Message>, now: int, sid: nat)
    requires RegOk(l.reg) && AllRegistered(l.reg, l.reg.businesses) && Copies(l.reg, q)
    ensures View(Tab(Happened(l, DeliveredCall(l.reg, q, now)), sid)).Keys == View(Tab(l, sid)).Keys
    ensures !Open(l, sid) ==> Tab(Happened(l, DeliveredCall(l.reg, q, now)), sid) == Tab(l, sid)
  {
    DeliveredEffect(l.reg, q, now);
    EffectKeys(l, DeliveredCall(l.reg, q, now), DeliveredTodo(l.reg, q), now, sid);
  }

  /** Delivering the one tile ticks bubbles and marks the send. */
  lemma TileTicks(l: Live, now: int)
    requires RegOk(l.reg) && AllRegistered(l.reg, l.reg.businesses) && IsOnline(l, "C")
    ensures var t := DeliverTiles(l, ["C"], now);
            && Talk(l, t) && SameMarks(l, t) && t.pending == l.pending && Aged(l.reg, t.reg)
            && (forall m | m in t.reg.messages && m.customer == "C" :: !Waiting(m))
  {
    DeliverTilesTalk(l, ["C"], now);
    TilesDelivered(l, ["C"], now);
  }

  lemma TileKeys(l: Live, now: int, sid: nat)
    requires RegOk(l.reg) && AllRegistered(l.reg, l.reg.businesses) && IsOnline(l, "C")
    ensures var t := DeliverTiles(l, ["C"], now);
            View(Tab(t, sid)).Keys == View(Tab(l, sid)).Keys && (!Open(l, sid) ==> Tab(t, sid) == Tab(l, sid))
  {
    OneDelivery(l, now);
    QueueTodo(l.reg, "C");
    TickKeys(l, QueuedFor(l.reg, "C"), now, sid);
  }

  lemma ShutOne(l: Live, e: BusEvent, sid: nat)
    requires !Open(l, sid)
    ensures Tab(Emit(l, e), sid) == Tab(l, sid)
  {}

  lemma {:induction false} ShutTab(l: Live, es: seq<BusEvent>, sid: nat)
    requires !Open(l, sid)
    ensures Tab(EmitAll(l, es), sid) == Tab(l, sid)
  {
    if es != [] {
      ShutTab(l, es[..|es| - 1], sid);
      EmitAllTalk(l, es[..|es| - 1]);
      ShutOne(EmitAll(l, es[..|es| - 1]), es[|es| - 1], sid);
    }
  }

  lemma DeliveredShows(l: Live, now: int)
    requires OnlyTheSend(l) && l.net.sessions.Keys == {1}
    requires RegOk(l.reg) && AllRegistered(l.reg, l.reg.businesses) && IsOnline(l, "C")
    ensures OnlyTheSend(DeliverTiles(l, ["C"], now))
  {
    var t := DeliverTiles(l, ["C"], now);
    TileTicks(l, now);
    forall sid: nat
      ensures View(Tab(t, sid)).Keys <= {"w"} && Hidden(t, sid) <= {"w"} && Stale(t, sid) == {} && (sid != 1 ==> Tab(t, sid) == [])
    {
      TileKeys(l, now, sid);
    }
  }

  /** After the claim: the send is delivered and its response still under way. */
  ghost predicate AfterClaim(l: Live) {
    && Scene(l) && OnlyTheSend(l) && l.net == Claimed(Connected(EmptyNet, 1), 1, "g", 2)
    && l.pending.Keys == {"w"} && TheSend(l.pending["w"])
    && |l.reg.messages| == 1 && TheSend(l.reg.messages[0]) && !Waiting(l.reg.messages[0])
  }

  lemma ClaimTakes(l: Live)
    requires AfterSend(l)
    ensures CanTake(l, 1, "g")
    ensures var l1 := SendSnapshot(l.(net := Claimed(l.net, 1, "g", 2)), 1, "g");
            l1.reg == l.reg && ClaimGroup(l, 1, "g", 2) == LockChanged(DeliverTiles(l1, ["C"], 2)) && IsOnline(l1, "C")
  {
    OneTile();
    SnapshotTalk(l.(net := Claimed(l.net, 1, "g", 2)), 1, "g");
  }

  lemma AgedSend(reg: Reg, t: Reg)
    requires Aged(reg, t) && |reg.messages| == 1 && TheSend(reg.messages[0])
    ensures |t.messages| == 1 && TheSend(t.messages[0]) && t.messages[0] in t.messages
  {
    assert t.messages[0] == reg.messages[0].(deliveredAt := t.messages[0].deliveredAt, readAt := t.messages[0].readAt);
  }

  lemma ListsShown(l: Live)
    requires AfterClaim(l)
    ensures AfterClaim(LockChanged(l))
  {
    var t := LockChanged(l);
    LockChangedNet(l);
    forall sid: nat ensures Tab(t, sid) == Tab(l, sid) && Hidden(t, sid) == Hidden(l, sid) && Stale(t, sid) == Stale(l, sid) {}
  }

  /** The snapshot is sent, the send still waits. */
  ghost predicate BeforeDelivery(l: Live) {
    && Scene(l) && OnlyTheSend(l) && l.net == Claimed(Connected(EmptyNet, 1), 1, "g", 2)
    && l.pending.Keys == {"w"} && TheSend(l.pending["w"])
    && |l.reg.messages| == 1 && TheSend(l.reg.messages[0])
  }

  lemma TakenDelivers(l: Live)
    requires BeforeDelivery(l) && IsOnline(l, "C") && RegOk(l.reg) && AllRegistered(l.reg, l.reg.businesses)
    ensures AfterClaim(DeliverTiles(l, ["C"], 2))
  {
    TileTicks(l, 2);
    DeliveredShows(l, 2);
    AgedSend(l.reg, DeliverTiles(l, ["C"], 2).reg);
  }

  lemma SnapshotBefore(l: Live)
    requires AfterSend(l) && RegOk(l.reg)
    ensures BeforeDelivery(SendSnapshot(l.(net := Claimed(l.net, 1, "g", 2)), 1, "g"))
  {
    var l0 := l.(net := Claimed(l.net, 1, "g", 2));
    SnapshotOnlyTheSend(l0);
    SnapshotTalk(l0, 1, "g");
  }

  lemma ClaimShows(l: Live)
    requires AfterSend(l) && StoreOk(l)
    ensures AfterClaim(ClaimGroup(l, 1, "g", 2))
  {
    var l1 := SendSnapshot(l.(net := Claimed(l.net, 1, "g", 2)), 1, "g");
    ClaimTakes(l);
    SnapshotBefore(l);
    TakenDelivers(l1);
    ListsShown(DeliverTiles(l1, ["C"], 2));
  }

  function Id(i: nat): string { seq(i + 1, _ => 'x') }

  /** The send is delivered, its response still under way, `k` later messages came in, and no tab is open. */
  ghost predicate Quiet(l: Live, k: nat) {
    && Scene(l) && OnlyTheSend(l) && l.net.locks == map[] && l.net.index == map[] && l.net.sessions.Keys == {1}
    && l.pending.Keys == {"w"} && TheSend(l.pending["w"])
    && |l.reg.messages| == k + 1 && TheSend(l.reg.messages[0]) && !Waiting(l.reg.messages[0])
    && forall i | 1 <= i <= k :: Later(l.reg.messages[i], i)
  }

  predicate Later(m: Message, i: nat) { m.wamid == Id(i) && m.dir.FromCustomer? && m.customer == "C" && m.createdAt == 3 }

  lemma CloseNetEmpty(l: Live)
    requires AfterClaim(l)
    ensures var t := GoneSession(l, 1, true);
            && t.net.locks == map[] && t.net.index == map[] && t.net.sessions.Keys == {1}
            && t == l.(net := t.net, admins := {}, feeds := t.feeds)
  {
    CloseNet(l.(net := Shut(l.net, 1, false)), 1);
  }

  lemma CloseQuiet(l: Live)
    requires AfterClaim(l)
    ensures Quiet(GoneSession(l, 1, true), 0)
  {
    var t := GoneSession(l, 1, true);
    CloseNetEmpty(l);
    forall sid: nat ensures Tab(t, sid) == Tab(l, sid) && Hidden(t, sid) == Hidden(l, sid) && Stale(t, sid) == Stale(l, sid) {}
  }

  lemma ClaimReached(l: Live)
    requires LiveReachable(l) && AfterSend(l)
    ensures LiveReachable(ClaimGroup(l, 1, "g", 2)) && AfterClaim(ClaimGroup(l, 1, "g", 2))
  {
    ReachableInv(l);
    ReachOn(l, Linking(ClaimFrame(1, "g", 2)));
    ClaimShows(l);
  }

  lemma CloseReached(l: Live)
    requires LiveReachable(l) && AfterClaim(l)
    ensures LiveReachable(GoneSession(l, 1, true)) && Quiet(GoneSession(l, 1, true), 0)
  {
    ReachOn(l, Linking(SocketEnds(1, true)));
    CloseQuiet(l);
  }

  lemma DeliveredOnTheWay() returns (l: Live)
    ensures LiveReachable(l) && Quiet(l, 0)
  {
    var l1 := Send();
    ClaimReached(l1);
    CloseReached(ClaimGroup(l1, 1, "g", 2));
    l := GoneSession(ClaimGroup(l1, 1, "g", 2), 1, true);
  }

  // ---- fifty newer messages ----

  lemma InjectStores(l: Live, wamid: string)
    requires Scene(l) && l.net.index == map[]
    ensures Happened(l, InboundCall(l.reg, "C", "B", "x", wamid, 3)) == l.(reg := Stored(l.reg, Draft(wamid, FromCustomer, "B", "C", "x", 3)))
  {
    var d := Draft(wamid, FromCustomer, "B", "C", "x", 3);
    OneTile();
    assert GetBusiness([SHOP], "B") == Some(SHOP);
    InboundHappened(l, MessageOf(l.reg, d), Stored(l.reg, d));
  }

  lemma QuietUnseen(l: Live, k: nat)
    requires Quiet(l, k)
    ensures Unseen(l, Id(k + 1))
  {
    assert |Id(k + 1)| == k + 2 && |"w"| == 1;
    forall m | m in l.reg.messages ensures m.wamid != Id(k + 1) {
      var i :| 0 <= i < |l.reg.messages| && l.reg.messages[i] == m;
      if i > 0 { assert Later(l.reg.messages[i], i) && |Id(i)| == i + 1; }
    }
    assert Id(k + 1) !in {"w"};
  }

  lemma InjectOne(l: Live, k: nat) returns (t: Live)
    requires LiveReachable(l) && Quiet(l, k)
    ensures LiveReachable(t) && Quiet(t, k + 1)
  {
    QuietUnseen(l, k);
    ReachOn(l, Talking(Inject("C", "B", "x", Id(k + 1), 3)));
    InjectStores(l, Id(k + 1));
    t := l.(reg := Stored(l.reg, Draft(Id(k + 1), FromCustomer, "B", "C", "x", 3)));
    MoreQuiet(l, t, k);
  }

  lemma MoreQuiet(l: Live, t: Live, k: nat)
    requires Quiet(l, k) && t == l.(reg := Stored(l.reg, Draft(Id(k + 1), FromCustomer, "B", "C", "x", 3)))
    ensures Quiet(t, k + 1)
  {
    forall sid: nat ensures Tab(t, sid) == Tab(l, sid) && Hidden(t, sid) == Hidden(l, sid) && Stale(t, sid) == Stale(l, sid) {}
    forall i | 1 <= i <= k + 1 ensures Later(t.reg.messages[i], i) { if i <= k { assert t.reg.messages[i] == l.reg.messages[i]; } }
  }

  lemma {:induction false} InjectMany(k: nat) returns (l: Live)
    ensures LiveReachable(l) && Quiet(l, k)
  {
    if k == 0 {
      l := DeliveredOnTheWay();
    } else {
      var l1 := InjectMany(k - 1);
      l := InjectOne(l1, k - 1);
    }
  }

  // ---- the second claim leaves the send out ----

  lemma {:induction false} PastOfAll(ms: seq<Message>)
    requires forall m | m in ms :: m.customer == "C" && !Waiting(m)
    ensures PastOf(ms, "C") == ms
  {
    if ms != [] {
      var init, last := ms[..|ms| - 1], ms[|ms| - 1];
      assert last in ms && ms == init + [last];
      PastOfAll(init);
      assert PastOf(ms, "C") == PastOf(init, "C") + [last];
    }
  }

  lemma QuietMessages(l: Live, k: nat, m: Message)
    requires Quiet(l, k) && m in l.reg.messages
    ensures m.customer == "C" && !Waiting(m) && (m == l.reg.messages[0] || Older(l.reg.messages[0], m))
  {
    var i :| 0 <= i < |l.reg.messages| && l.reg.messages[i] == m;
    if i > 0 { assert Later(l.reg.messages[i], i); }
  }

  /** The oldest message comes first. */
  lemma OldestFirst(past: seq<Message>, m: Message)
    requires ByAge(past) && m in past && forall x | x in past :: x == m || Older(m, x)
    ensures past[0] == m
  {
    var i :| 0 <= i < |past| && past[i] == m;
    if i > 0 { assert past[0] in past && !Older(past[i], past[0]); }
  }

  lemma SendIsCut(l: Live)
    requires Quiet(l, 50) && RegOk(l.reg)
    ensures forall b | b in SnapshotOf(l.reg, ["C"]) :: b.wamid != "w"
    ensures QueuedFor(l.reg, "C") == []
  {
    var ms, past := l.reg.messages, Past(l.reg, "C");
    forall m | m in ms ensures m.customer == "C" && !Waiting(m) && (m == ms[0] || Older(ms[0], m)) { QuietMessages(l, 50, m); }
    QueueGone(l.reg, "C");
    HistoryAndQueuePartition(l.reg, "C");
    PastOfAll(ms);
    assert |past| == |multiset(past)| == |multiset(ms)| == 51;
    forall m | m in past ensures m in ms { assert m in multiset(past); }
    assert ms[0] in multiset(past);
    OldestFirst(past, ms[0]);
    PastUnique(l.reg, "C");
    NewestWithoutFirst(past);
    OnlyTile(l.reg);
  }

  lemma OnlyTile(reg: Reg)
    requires QueuedFor(reg, "C") == []
    ensures SnapshotOf(reg, ["C"]) == Bubbles(Newest(Past(reg, "C"), SNAPSHOT_HISTORY_PER_TILE))
  {
    assert ["C"][..0] == [] && SnapshotOf(reg, []) == [];
    assert Bubbles([]) == [];
  }

  lemma NewestWithoutFirst(past: seq<Message>)
    requires |past| == 51 && Unique(past)
    ensures forall b | b in Bubbles(Newest(past, SNAPSHOT_HISTORY_PER_TILE)) :: b.wamid != past[0].wamid
  {
    var shown := Newest(past, SNAPSHOT_HISTORY_PER_TILE);
    assert shown == past[1..];
    forall i | 0 <= i < |shown| ensures Bubbles(shown)[i].wamid != past[0].wamid { assert shown[i] == past[i + 1]; }
  }

  /** The group is claimed again, and the tab does not show the send. */
  ghost predicate Reclaimed(l: Live) {
    && l.reg.customers == [GUEST] && "w" in l.pending && TheSend(l.pending["w"])
    && Holds(l.net, 2, "g") && Indexed(l.net, 2, "g") && Open(l, 2) && "w" !in View(Tab(l, 2))
    && |l.reg.messages| > 0 && TheSend(l.reg.messages[0]) && !Waiting(l.reg.messages[0])
  }

  lemma ReclaimSteps(l: Live)
    requires Scene(l) && l.net.locks == map[] && l.net.index == map[] && 2 !in l.net.sessions && QueuedFor(l.reg, "C") == []
    ensures var l6 := l.(net := Connected(l.net, 2));
            var l1 := SendSnapshot(l6.(net := Claimed(l6.net, 2, "g", 4)), 2, "g");
            && l1.reg == l.reg && l1.pending == l.pending && ClaimGroup(l6, 2, "g", 4) == LockChanged(l1)
            && Open(l1, 2) && Holds(l1.net, 2, "g") && Indexed(l1.net, 2, "g")
  {
    var l6 := l.(net := Connected(l.net, 2));
    var l1 := SendSnapshot(l6.(net := Claimed(l6.net, 2, "g", 4)), 2, "g");
    SnapshotTalk(l6.(net := Claimed(l6.net, 2, "g", 4)), 2, "g");
    NothingTaken(l6, 2, 4);
  }

  lemma NothingTaken(l: Live, sid: nat, now: int)
    requires Scene(l) && sid in l.net.sessions && CanTake(l, sid, "g") && QueuedFor(l.reg, "C") == []
    ensures ClaimGroup(l, sid, "g", now) == LockChanged(SendSnapshot(l.(net := Claimed(l.net, sid, "g", now)), sid, "g"))
  {
    var l1 := SendSnapshot(l.(net := Claimed(l.net, sid, "g", now)), sid, "g");
    OneTile();
    SnapshotTalk(l.(net := Claimed(l.net, sid, "g", now)), sid, "g");
    NothingToDeliver(l1, now);
    assert TakeGroup(l, sid, "g", now) == l1;
  }

  lemma NothingToDeliver(l: Live, now: int)
    requires QueuedFor(l.reg, "C") == []
    ensures DeliverTiles(l, ["C"], now) == l
  {
    assert ["C"][..0] == [] && DeliverTiles(l, [], now) == l;
  }

  lemma CutIsNotShown(bs: seq<Bubble>, w: string)
    requires forall b | b in bs :: b.wamid != w
    ensures w !in Shown(map[], bs)
  {
    ShownIs(map[], bs);
  }

  lemma ReclaimMisses(l: Live)
    requires Quiet(l, 50) && RegOk(l.reg)
    ensures Reclaimed(ClaimGroup(l.(net := Connected(l.net, 2)), 2, "g", 4))
  {
    var l6 := l.(net := Connected(l.net, 2));
    var l0 := l6.(net := Claimed(l6.net, 2, "g", 4));
    SendIsCut(l);
    ReclaimSteps(l);
    OneTile();
    CutIsNotShown(SnapshotOf(l.reg, ["C"]), "w");
    SnapshotView(l0, 2, "g");
    LockChangedNet(SendSnapshot(l0, 2, "g"));
  }

  lemma Reclaim() returns (l: Live)
    ensures LiveReachable(l) && Reclaimed(l)
  {
    var l5 := InjectMany(50);
    ReachableInv(l5);
    ReachOn(l5, Linking(Opened(2)));
    var l6 := l5.(net := Connected(l5.net, 2));
    assert LinkApply(l5, Opened(2)) == l6;
    ReachOn(l6, Linking(ClaimFrame(2, "g", 4)));
    ReclaimMisses(l5);
    l := ClaimGroup(l6, 2, "g", 4);
  }

  // ---- the response finishes ----

  /** An open tab says sent, the store says delivered. */
  ghost predicate ShowsOld(l: Live, sid: nat, m: Message) {
    && Holds(l.net, sid, "g") && Open(l, sid) && m in l.reg.messages && InGroup(l.reg, m, "g")
    && m.wamid in View(Tab(l, sid)) && View(Tab(l, sid))[m.wamid] == WasSent && StatusOf(m) != WasSent
  }

  lemma ShownOne(view: map<string, Status>, b: Bubble)
    requires b.wamid !in view
    ensures Shown(view, [b]) == view[b.wamid := b.status]
  {
    assert [b][..0] == [];
  }

  lemma FinishIsLate(l: Live)
    requires Reclaimed(l) && RegOk(l.reg)
    ensures LateCopy(l, l.pending["w"]) && SessionFor(l, "C") == Some(2)
    ensures GetMessage(l.reg.messages, "w") == Some(l.reg.messages[0])
  {
    OneTile();
    assert l.reg.messages[0] in l.reg.messages;
    SameWamid(l.reg, l.reg.messages[0], GetMessage(l.reg.messages, "w").value);
  }

  lemma FinishSends(l: Live, now: int)
    requires Reclaimed(l) && RegOk(l.reg)
    ensures var l1 := NoteLate(l.(pending := l.pending - {"w"}), l.pending["w"]);
            ResponseFinished(l, "w", now) == SendTile(l1, "C", NewBubble(BubbleOf(l.pending["w"]))) && l1.net == l.net && l1.reg == l.reg && l1.tabs == l.tabs
  {
    FinishIsLate(l);
    NothingTodo(l.reg, l.pending["w"], l.reg.messages[0]);
    assert DeliveredCall(l.reg, [l.pending["w"]], now) == Effect(l.reg, [], [], None);
  }

  lemma FinishShowsOld(l: Live, now: int)
    requires Reclaimed(l) && RegOk(l.reg) && StatusOf(l.pending["w"]) == WasSent
    ensures LateCopy(l, l.pending["w"]) && ShowsOld(ResponseFinished(l, "w", now), 2, l.reg.messages[0])
  {
    var l1 := NoteLate(l.(pending := l.pending - {"w"}), l.pending["w"]);
    FinishIsLate(l);
    FinishSends(l, now);
    SendTileView(l1, "C", NewBubble(BubbleOf(l.pending["w"])), 2);
    ShownOne(View(Tab(l, 2)), BubbleOf(l.pending["w"]));
  }

  /** Such a run exists: a late copy makes a tab say sent where the store says delivered. */
  lemma LateCopyRun() returns (l: Live, m: Message)
    ensures LiveReachable(l) && ShowsOld(l, 2, m)
  {
    var l1 := Reclaim();
    ReachableInv(l1);
    ReachOn(l1, Talking(HttpFinished("w", 5)));
    FinishShowsOld(l1, 5);
    l, m := ResponseFinished(l1, "w", 5), l1.reg.messages[0];
  }
}
