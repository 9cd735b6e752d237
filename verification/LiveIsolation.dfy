/** Who sees what: a tab shows messages of the group its session holds and no others; the lists go to admin pages only. */
module LiveIsolation {
  import opened Prelude
  import opened JobStore
  import opened Registry
  import opened Lifecycle
  import opened Conservation
  import opened StoreGroups
  import opened Sessions
  import opened Live
  import opened LiveNet
  import opened LiveQueue
  import opened LiveTabs
  import opened LiveMirror
  import opened LiveTabSteps
  import LiveRuns

  // ---- which bubbles a tab has ----

  function Keys(l: Live, sid: nat): set<string> { View(Tab(l, sid)).Keys }

  ghost predicate SameKeys(l: Live, t: Live) {
    forall sid: nat :: Keys(t, sid) == Keys(l, sid)
  }

  lemma SendTabKeys(l: Live, sid: nat, f: TabFrame, tid: nat)
    ensures Keys(SendTab(l, sid, f), tid) == if tid == sid && Open(l, sid) then Folded(View(Tab(l, sid)), f).Keys else Keys(l, tid)
  {
    ViewAppend(Tab(l, sid), f);
  }

  lemma QuietFold(v: map<string, Status>, f: TabFrame)
    requires f.StatusTick? || f.Other?
    ensures Folded(v, f).Keys == v.Keys
  {}

  lemma QuietTab(l: Live, sid: nat, f: TabFrame)
    requires f.StatusTick? || f.Other?
    ensures SameKeys(l, SendTab(l, sid, f))
  {
    forall tid: nat ensures Keys(SendTab(l, sid, f), tid) == Keys(l, tid) {
      SendTabKeys(l, sid, f, tid);
      QuietFold(View(Tab(l, sid)), f);
    }
  }

  /** Ticks and echoes show no new bubble. */
  lemma QuietKeys(l: Live, number: string, f: TabFrame)
    requires f.StatusTick? || f.Other?
    ensures SameKeys(l, SendTile(l, number, f))
  {
    match SessionFor(l, number)
    case Some(sid) => QuietTab(l, sid, f);
    case None =>
  }

  lemma NoiseKeys(l: Live, sid: nat)
    ensures SameKeys(l, SendTab(l, sid, Other))
  {
    QuietTab(l, sid, Other);
  }

  lemma {:induction false} QuietEvents(l: Live, es: seq<BusEvent>)
    requires forall i | 0 <= i < |es| :: !es[i].MessageNew?
    ensures SameKeys(l, EmitAll(l, es))
  {
    if es != [] {
      var n := |es| - 1;
      var l1 := EmitAll(l, es[..n]);
      QuietEvents(l, es[..n]);
      QuietEvent(l1, es[n]);
    }
  }

  lemma QuietEvent(l: Live, e: BusEvent)
    requires !e.MessageNew?
    ensures SameKeys(l, Emit(l, e))
  {
    match e
    case StatusChanged(wamid, number, status, _) => QuietKeys(l, number, StatusTick(wamid, status));
    case LogChanged(_) =>
  }

  lemma {:induction false} AnnouncementsQuiet(todo: seq<Message>, st: Status, at: int)
    ensures forall i | 0 <= i < |Announcements(todo, st, at)| :: !Announcements(todo, st, at)[i].MessageNew?
  {
    if todo != [] { AnnouncementsQuiet(todo[..|todo| - 1], st, at); }
  }

  lemma StatusQuiet(reg: Reg, todo: seq<Message>, kind: JobKind, st: Status, at: int)
    ensures var es := StatusEffect(reg, todo, kind, st, at).events; forall i | 0 <= i < |es| :: !es[i].MessageNew?
  {
    AnnouncementsQuiet(todo[..Leading(reg, todo)], st, at);
  }

  lemma DeliveredQuiet(l: Live, msgs: seq<Message>, now: int)
    ensures SameKeys(l, Happened(l, DeliveredCall(l.reg, msgs, now)))
  {
    var e, todo := DeliveredCall(l.reg, msgs, now), DeliveredTodo(l.reg, msgs);
    StatusQuiet(SetDelivered(l.reg, Wamids(todo), now), todo, Delivered, WasDelivered, now);
    QuietEvents(l.(reg := e.reg), e.events);
  }

  lemma ReadQuiet(l: Live, customer: string, peer: string, now: int)
    ensures SameKeys(l, Happened(l, ReadCall(l.reg, customer, peer, now)))
  {
    var e := ReadCall(l.reg, customer, peer, now);
    if GetBusiness(l.reg.businesses, peer).Some? {
      var todo := UnreadDelivered(l.reg, customer, GetBusiness(l.reg.businesses, peer).value.phone);
      StatusQuiet(SetRead(l.reg, Wamids(todo), now), todo, JobKind.Read, WasRead, now);
    }
    QuietEvents(l.(reg := e.reg), e.events);
  }

  lemma MarkInboundQuiet(l: Live, phone: string, wamid: string, now: int)
    ensures SameKeys(l, Happened(l, MarkInboundRead(l.reg, phone, wamid, now)))
  {
    var e := MarkInboundRead(l.reg, phone, wamid, now);
    QuietEvents(l.(reg := e.reg), e.events);
  }

  // ---- only of the own group ----

  /** The session may see the message: it holds the group of the message's customer. */
  predicate Mine(l: Live, sid: nat, m: Message) {
    sid in l.net.sessions && l.net.sessions[sid].role.GroupRole? && InGroup(l.reg, m, l.net.sessions[sid].role.group)
  }

  predicate Over(l: Live, sid: nat) { sid in l.net.sessions && l.net.sessions[sid].closed }

  ghost predicate OnlyMine(l: Live, sid: nat, keys: set<string>) {
    Over(l, sid) || forall m | m in l.reg.messages && m.wamid in keys :: Mine(l, sid, m)
  }

  /** Until a session is over, its tab shows stored messages of the group it holds, and no others. */
  ghost predicate OwnOnly(l: Live) {
    forall sid: nat :: OnlyMine(l, sid, Keys(l, sid))
  }

  /** The stored messages are old ones, to the same customers. */
  ghost predicate SameChats(l: Live, t: Live) {
    forall m | m in t.reg.messages :: exists x :: x in l.reg.messages && x.wamid == m.wamid && x.customer == m.customer
  }

  lemma AgedChats(l: Live, t: Live)
    requires Aged(l.reg, t.reg) && t.reg.customers == l.reg.customers
    ensures SameChats(l, t)
  {
    forall m | m in t.reg.messages ensures exists x :: x in l.reg.messages && x.wamid == m.wamid && x.customer == m.customer {
      var x := AgedMessage(l.reg, t.reg, m);
    }
  }

  /** Only times, and no new bubble. */
  lemma AgedOwn(l: Live, t: Live)
    requires OwnOnly(l) && Aged(l.reg, t.reg) && t.reg.customers == l.reg.customers && t.net == l.net && SameKeys(l, t)
    ensures OwnOnly(t)
  {
    AgedChats(l, t);
    forall sid: nat ensures OnlyMine(t, sid, Keys(t, sid)) {
      assert OnlyMine(l, sid, Keys(l, sid));
      AgedMine(l, t, sid);
    }
  }

  lemma AgedMine(l: Live, t: Live, sid: nat)
    requires OnlyMine(l, sid, Keys(l, sid)) && SameChats(l, t) && t.reg.customers == l.reg.customers && t.net == l.net && Keys(t, sid) == Keys(l, sid)
    ensures OnlyMine(t, sid, Keys(t, sid))
  {
    forall m | m in t.reg.messages && m.wamid in Keys(t, sid) && !Over(t, sid) ensures Mine(t, sid, m) {
      var x :| x in l.reg.messages && x.wamid == m.wamid && x.customer == m.customer;
      assert Mine(l, sid, x);
    }
  }

  // ---- new bubbles ----

  /** Bubbles of a tile go to the session that holds its group; all stored messages among them are to that customer. */
  lemma ShowOwn(l: Live, number: string, f: TabFrame)
    requires OwnOnly(l) && Agreement(l.net) && (f.NewBubble? || f.QueueFlush?)
    requires forall b, m | b in BubblesIn(f) && m in l.reg.messages && m.wamid == b.wamid :: m.customer == number
    ensures OwnOnly(SendTile(l, number, f))
  {
    var t := SendTile(l, number, f);
    forall tid: nat ensures OnlyMine(t, tid, Keys(t, tid)) {
      assert OnlyMine(l, tid, Keys(l, tid));
      if SessionFor(l, number) == Some(tid) { ShownOwn(l, number, f, tid); } else { assert Tab(t, tid) == Tab(l, tid); }
    }
  }

  lemma ShownOwn(l: Live, number: string, f: TabFrame, sid: nat)
    requires OnlyMine(l, sid, Keys(l, sid)) && Agreement(l.net) && (f.NewBubble? || f.QueueFlush?) && SessionFor(l, number) == Some(sid)
    requires forall b, m | b in BubblesIn(f) && m in l.reg.messages && m.wamid == b.wamid :: m.customer == number
    ensures OnlyMine(SendTile(l, number, f), sid, Keys(SendTile(l, number, f), sid))
  {
    var g := GetCustomer(l.reg.customers, number).value.group;
    assert Indexed(l.net, sid, g) && Holds(l.net, sid, g);
    SendTabKeys(l, sid, f, sid);
    FoldShows(View(Tab(l, sid)), f);
    forall m | m in l.reg.messages && m.wamid in Keys(SendTab(l, sid, f), sid) ensures Mine(l, sid, m) {
      if m.wamid !in Keys(l, sid) { var b :| b in BubblesIn(f) && b.wamid == m.wamid; }
    }
  }

  lemma FoldShows(v: map<string, Status>, f: TabFrame)
    requires f.NewBubble? || f.QueueFlush?
    ensures forall w | w in Folded(v, f) && w !in v :: exists b :: b in BubblesIn(f) && b.wamid == w
  {
    ShownIs(v, BubblesIn(f));
  }

  lemma PushOwn(l: Live, number: string, f: TabFrame, ms: seq<Message>, now: int)
    requires OwnOnly(l) && Agreement(l.net) && RegOk(l.reg) && Copies(l.reg, ms) && (f.NewBubble? || f.QueueFlush?)
    requires forall b, m | b in BubblesIn(f) && m in l.reg.messages && m.wamid == b.wamid :: m.customer == number
    ensures OwnOnly(PushAndMark(l, number, f, ms, now))
  {
    var l1 := SendTile(l, number, f);
    ShowOwn(l, number, f);
    DeliveredQuiet(l1, ms, now);
    DeliveredAged(l.reg, ms, now);
    PushTalk(l, number, f, ms, now);
    AgedOwn(l1, PushAndMark(l, number, f, ms, now));
  }

  lemma QueueToCustomer(reg: Reg, number: string)
    requires RegOk(reg)
    ensures forall b, m | b in Bubbles(QueuedFor(reg, number)) && m in reg.messages && m.wamid == b.wamid :: m.customer == number
  {
    QueuedForIs(reg, number);
    BubblesOf(QueuedFor(reg, number));
    forall b, m | b in Bubbles(QueuedFor(reg, number)) && m in reg.messages && m.wamid == b.wamid ensures m.customer == number {
      var x :| x in QueuedFor(reg, number) && b == BubbleOf(x);
      SameWamid(reg, x, m);
    }
  }

  lemma FlushOwn(l: Live, number: string, now: int)
    requires OwnOnly(l) && Agreement(l.net) && RegOk(l.reg)
    ensures OwnOnly(FlushTile(l, number, now))
  {
    QueueToCustomer(l.reg, number);
    QueueDelivered(l.reg, number, now);
    PushOwn(l, number, QueueFlush(Bubbles(QueuedFor(l.reg, number))), QueuedFor(l.reg, number), now);
  }

  lemma FinishedOwn(l: Live, w: string, now: int)
    requires OwnOnly(l) && NetOk(l) && StoreOk(l) && w in l.pending
    ensures OwnOnly(ResponseFinished(l, w, now))
  {
    var p := l.pending[w];
    var l0 := NoteLate(l.(pending := l.pending - {w}), p);
    QuietOwn(l, l0);
    PendingCopies(l, w);
    HandedOwn(l0, p, now);
  }

  lemma HandedOwn(l: Live, p: Message, now: int)
    requires OwnOnly(l) && Agreement(l.net) && RegOk(l.reg) && Copies(l.reg, [p])
    requires forall m | m in l.reg.messages && m.wamid == p.wamid :: m.customer == p.customer
    ensures OwnOnly(DeliverNow(l, p, now))
  {
    PushOwn(l, p.customer, NewBubble(BubbleOf(p)), [p], now);
  }

  // ---- new messages ----

  /** A new message stands in no tab. */
  lemma StoredOwn(l: Live, t: Live, d: Draft)
    requires OwnOnly(l) && t.reg == Stored(l.reg, d) && t.net == l.net && t.tabs == l.tabs && forall sid: nat :: d.wamid !in View(Tab(l, sid))
    ensures OwnOnly(t)
  {
    forall sid: nat ensures OnlyMine(t, sid, Keys(t, sid)) {
      assert OnlyMine(l, sid, Keys(l, sid));
    }
  }

  lemma AcceptOwn(l: Live, phone: string, customer: string, text: string, wamid: string, delay: nat, now: int)
    requires OwnOnly(l) && Unseen(l, wamid) && RegOk(l.reg)
    ensures OwnOnly(AcceptSend(l, phone, customer, text, wamid, delay, now))
  {
    var d := Draft(wamid, ToCustomer, phone, customer, text, now);
    var l1 := l.(pending := l.pending[wamid := MessageOf(l.reg, d)], reg := Stored(l.reg, d));
    StoredOwn(l, l1, d);
    StoredOk(l.reg, d);
    AgedSelf(l1.reg);
    QuietEvents(l1, Accepted(l.reg, phone, customer, text, wamid, delay, now).events);
    EmitAllTalk(l1, Accepted(l.reg, phone, customer, text, wamid, delay, now).events);
    AgedOwn(l1, AcceptSend(l, phone, customer, text, wamid, delay, now));
  }

  lemma NewInboundOwn(l: Live, d: Draft)
    requires OwnOnly(l) && Agreement(l.net) && Unseen(l, d.wamid) && d.dir.FromCustomer?
    ensures OwnOnly(SendTile(l.(reg := Stored(l.reg, d)), d.customer, NewBubble(BubbleOf(MessageOf(l.reg, d)))))
  {
    StoredOwn(l, l.(reg := Stored(l.reg, d)), d);
    ShowOwn(l.(reg := Stored(l.reg, d)), d.customer, NewBubble(BubbleOf(MessageOf(l.reg, d))));
  }

  lemma LoggedOwn(l: Live, wamid: string)
    requires OwnOnly(l)
    ensures OwnOnly(LogTo(l, wamid))
  {
    QuietOwn(l, LogTo(l, wamid));
  }

  lemma InboundOwn(l: Live, sender: string, to: string, body: string, wamid: string, now: int)
    requires OwnOnly(l) && Agreement(l.net) && Unseen(l, wamid)
    ensures OwnOnly(Happened(l, InboundCall(l.reg, sender, to, body, wamid, now)))
  {
    var e := InboundCall(l.reg, sender, to, body, wamid, now);
    if e.error.None? {
      var c, b := GetCustomer(l.reg.customers, sender).value, GetBusiness(l.reg.businesses, to).value;
      var d := Draft(wamid, FromCustomer, b.phone, c.number, body, now);
      var l1 := SendTile(l.(reg := Stored(l.reg, d)), d.customer, NewBubble(BubbleOf(MessageOf(l.reg, d))));
      NewInboundOwn(l, d);
      InboundHappened(l, MessageOf(l.reg, d), Stored(l.reg, d));
      LoggedOwn(l1, wamid);
    } else {
      assert Happened(l, e) == l;
    }
  }

  // ---- claims ----

  lemma {:induction false} TileQuiet(l: Live, tiles: seq<string>, now: int)
    ensures SameKeys(l, DeliverTiles(l, tiles, now))
  {
    if tiles != [] {
      var n := |tiles| - 1;
      var l1 := DeliverTiles(l, tiles[..n], now);
      TileQuiet(l, tiles[..n], now);
      DeliveredQuiet(l1, QueuedFor(l1.reg, tiles[n]), now);
    }
  }

  /** Every bubble of a snapshot is of a message to a customer of the group. */
  lemma {:induction false} SnapshotToGroup(reg: Reg, tiles: seq<string>, m: Message)
    requires RegOk(reg) && m in reg.messages && exists b :: b in SnapshotOf(reg, tiles) && b.wamid == m.wamid
    ensures m.customer in tiles
  {
    var n := |tiles| - 1;
    var b :| b in SnapshotOf(reg, tiles) && b.wamid == m.wamid;
    SnapshotLast(reg, tiles, b);
    if b in TileBubbles(reg, tiles[n]) { TileToCustomer(reg, tiles[n], b, m); } else { SnapshotToGroup(reg, tiles[..n], m); }
  }

  lemma SnapshotLast(reg: Reg, tiles: seq<string>, b: Bubble)
    requires b in SnapshotOf(reg, tiles)
    ensures tiles != [] && (b in SnapshotOf(reg, tiles[..|tiles| - 1]) || b in TileBubbles(reg, tiles[|tiles| - 1]))
    ensures forall k | k in tiles[..|tiles| - 1] :: k in tiles
  {}

  lemma TileToCustomer(reg: Reg, number: string, b: Bubble, m: Message)
    requires RegOk(reg) && m in reg.messages && b in TileBubbles(reg, number) && b.wamid == m.wamid
    ensures m.customer == number
  {
    var past, q := Past(reg, number), QueuedFor(reg, number);
    var shown := Newest(past, SNAPSHOT_HISTORY_PER_TILE);
    PastStored(reg, number);
    PastToCustomer(reg, number);
    QueuedForIs(reg, number);
    BubblesOf(shown);
    BubblesOf(q);
    var x :| (x in shown || x in q) && b == BubbleOf(x);
    assert x in shown ==> x in past;
    SameWamid(reg, x, m);
  }

  lemma PastToCustomer(reg: Reg, number: string)
    requires RegOk(reg)
    ensures forall x | x in Past(reg, number) :: x.customer == number
  {
    HistoryAndQueuePartition(reg, number);
    PastOfIn(reg.messages, number);
    forall x | x in Past(reg, number) ensures x.customer == number { assert x in multiset(Past(reg, number)); }
  }

  lemma SnapshotOwn(l: Live, sid: nat, g: string, m: Message)
    requires RegOk(l.reg) && CustomersOnce(l.reg.customers) && Open(l, sid)
    requires m in l.reg.messages && m.wamid in Keys(SendSnapshot(l, sid, g), sid)
    ensures InGroup(l.reg, m, g)
  {
    var bs := SnapshotOf(l.reg, TilesOf(l.reg.customers, g));
    ViewAppend(Tab(l, sid), GroupClaimed(bs));
    ShownIs(map[], bs);
    SnapshotToGroup(l.reg, TilesOf(l.reg.customers, g), m);
    TilesInGroup(l.reg.customers, g);
  }

  /** A claim changes the view of the claiming tab only, and that to the snapshot; one that cannot be sent shows nothing. */
  lemma ClaimedOwn(l: Live, sid: nat, g: string, now: int)
    requires OwnOnly(l) && StoreOk(l) && sid in l.net.sessions && !l.net.sessions[sid].closed && CanTake(l, sid, g)
    ensures OwnOnly(SendSnapshot(l.(net := Claimed(l.net, sid, g, now)), sid, g))
  {
    var l0 := l.(net := Claimed(l.net, sid, g, now));
    var t := SendSnapshot(l0, sid, g);
    forall tid: nat ensures OnlyMine(t, tid, Keys(t, tid)) {
      assert OnlyMine(l, tid, Keys(l, tid));
      if tid == sid && Open(l0, sid) {
        forall m | m in t.reg.messages && m.wamid in Keys(t, sid) ensures Mine(t, sid, m) { SnapshotOwn(l0, sid, g, m); }
      } else {
        assert Tab(t, tid) == Tab(l, tid);
      }
    }
  }

  lemma TakeOwn(l: Live, sid: nat, g: string, now: int)
    requires OwnOnly(l) && StoreOk(l) && sid in l.net.sessions && !l.net.sessions[sid].closed && CanTake(l, sid, g)
    ensures OwnOnly(TakeGroup(l, sid, g, now))
  {
    var l0 := l.(net := Claimed(l.net, sid, g, now));
    var l1 := SendSnapshot(l0, sid, g);
    var tiles := TilesOf(l1.reg.customers, g);
    ClaimedOwn(l, sid, g, now);
    SnapshotTalk(l0, sid, g);
    TileQuiet(l1, tiles, now);
    TilesDelivered(l1, tiles, now);
    DeliverTilesTalk(l1, tiles, now);
    AgedOwn(l1, DeliverTiles(l1, tiles, now));
  }

  /** Nothing but feeds, the log or timers of sockets changed. */
  lemma QuietOwn(l: Live, t: Live)
    requires OwnOnly(l) && t.reg.messages == l.reg.messages && t.reg.customers == l.reg.customers && t.net == l.net && SameKeys(l, t)
    ensures OwnOnly(t)
  {
    forall sid: nat ensures OnlyMine(t, sid, Keys(t, sid)) { assert OnlyMine(l, sid, Keys(l, sid)); }
  }

  lemma ClaimOwn(l: Live, sid: nat, g: string, now: int)
    requires OwnOnly(l) && StoreOk(l) && sid in l.net.sessions && !l.net.sessions[sid].closed
    ensures OwnOnly(ClaimGroup(l, sid, g, now))
  {
    if CanTake(l, sid, g) {
      var t := TakeGroup(l, sid, g, now);
      TakeOwn(l, sid, g, now);
      LockChangedNet(t);
      QuietOwn(t, LockChanged(t));
    } else {
      NoiseKeys(l, sid);
      QuietOwn(l, SendTab(l, sid, Other));
    }
  }

  // ---- sessions ----

  /** A session that ends, begins, or becomes an admin page sees no more than before. */
  lemma SessionsOwn(l: Live, t: Live)
    requires OwnOnly(l) && t.reg == l.reg && t.tabs == l.tabs
    requires forall sid: nat | sid in l.net.sessions :: sid in t.net.sessions && (l.net.sessions[sid].closed ==> t.net.sessions[sid].closed)
    requires forall sid: nat | sid in t.net.sessions && !t.net.sessions[sid].closed && sid in l.net.sessions && l.net.sessions[sid].role.GroupRole? ::
               t.net.sessions[sid].role == l.net.sessions[sid].role
    ensures OwnOnly(t)
  {
    forall sid: nat ensures OnlyMine(t, sid, Keys(t, sid)) { assert OnlyMine(l, sid, Keys(l, sid)); }
  }

  lemma SubscribeOwn(l: Live, sid: nat)
    requires OwnOnly(l) && sid in l.net.sessions
    ensures OwnOnly(SubscribeAdmin(l, sid))
  {
    if l.net.sessions[sid].role.NoRole? {
      var l1 := l.(net := Subscribed(l.net, sid));
      SessionsOwn(l, l1);
      SubscribeIs(l, sid);
      QuietOwn(l1, SubscribeAdmin(l, sid));
    } else {
      NoiseKeys(l, sid);
      QuietOwn(l, SendTab(l, sid, Other));
    }
  }

  lemma SubscribeIs(l: Live, sid: nat)
    requires sid in l.net.sessions && l.net.sessions[sid].role.NoRole?
    ensures var t := SubscribeAdmin(l, sid); t == l.(net := Subscribed(l.net, sid), admins := t.admins, feeds := t.feeds)
  {
    var l1 := l.(net := Subscribed(l.net, sid), admins := l.admins + {sid});
    SendFeedFrame(l1, sid, GroupsFrame(l1));
    SendFeedFrame(SendFeed(l1, sid, GroupsFrame(l1)), sid, NumbersFrame(SendFeed(l1, sid, GroupsFrame(l1))));
  }

  lemma GoneSessions(n: Net, sid: nat, final: bool)
    requires sid in n.sessions
    ensures var t := SocketGone(n, sid, final);
            && t.sessions.Keys == n.sessions.Keys
            && forall tid: nat | tid in n.sessions :: t.sessions[tid].role == n.sessions[tid].role && (n.sessions[tid].closed ==> t.sessions[tid].closed)
  {}

  lemma GoneOwn(l: Live, sid: nat, final: bool)
    requires OwnOnly(l) && sid in l.net.sessions
    ensures OwnOnly(GoneSession(l, sid, final))
  {
    GoneIs(l, sid, final);
    GoneSessions(l.net, sid, final);
    SessionsOwn(l, GoneSession(l, sid, final));
  }

  lemma LinkingOwn(l: Live, st: LinkStep)
    requires OwnOnly(l) && StoreOk(l) && LinkEnabled(l, st)
    ensures OwnOnly(LinkApply(l, st))
  {
    match st
    case Opened(sid) => SessionsOwn(l, l.(net := Connected(l.net, sid)));
    case ClaimFrame(sid, g, now) => ClaimOwn(l, sid, g, now);
    case SubscribeFrame(sid) => SubscribeOwn(l, sid);
    case SocketEnds(sid, final) => GoneOwn(l, sid, final);
    case Heartbeat => SessionsOwn(l, l.(net := Ticked(l.net)));
    case PongFrame(sid) => SessionsOwn(l, l.(net := Ponged(l.net, sid)));
  }

  // ---- frames and requests ----

  lemma SendOwn(l: Live, sid: nat, number: string, to: string, body: string, wamid: string, now: int)
    requires OwnOnly(l) && Agreement(l.net) && RegOk(l.reg) && sid in l.net.sessions && Unseen(l, wamid)
    ensures OwnOnly(SendMessage(l, sid, number, to, body, wamid, now))
  {
    NoiseKeys(l, sid);
    QuietOwn(l, SendTab(l, sid, Other));
    if GetBusiness(l.reg.businesses, to).Some? { InboundOwn(l, number, GetBusiness(l.reg.businesses, to).value.phone, body, wamid, now); }
  }

  lemma ReadOwn(l: Live, sid: nat, number: string, peer: string, now: int)
    requires OwnOnly(l) && RegOk(l.reg) && sid in l.net.sessions
    ensures OwnOnly(ReadChat(l, sid, number, peer, now))
  {
    NoiseKeys(l, sid);
    QuietOwn(l, SendTab(l, sid, Other));
    if GetBusiness(l.reg.businesses, peer).Some? {
      var phone := GetBusiness(l.reg.businesses, peer).value.phone;
      ReadCallTalk(l, number, phone, now);
      ReadAged(l.reg, number, phone, now);
      ReadNumbers(l.reg, number, phone, now);
      HappenedTalk(l, ReadCall(l.reg, number, phone, now));
      ReadQuiet(l, number, phone, now);
      AgedOwn(l, Happened(l, ReadCall(l.reg, number, phone, now)));
    }
  }

  lemma MarkInboundOwn(l: Live, phone: string, wamid: string, now: int)
    requires OwnOnly(l) && RegOk(l.reg)
    ensures OwnOnly(Happened(l, MarkInboundRead(l.reg, phone, wamid, now)))
  {
    MarkInboundAged(l.reg, phone, wamid, now);
    HappenedTalk(l, MarkInboundRead(l.reg, phone, wamid, now));
    MarkInboundQuiet(l, phone, wamid, now);
    AgedOwn(l, Happened(l, MarkInboundRead(l.reg, phone, wamid, now)));
  }

  lemma TalkingOwn(l: Live, st: TalkStep)
    requires OwnOnly(l) && NetOk(l) && StoreOk(l) && TalkEnabled(l, st)
    ensures OwnOnly(TalkApply(l, st))
  {
    match st
    case SendFrame(sid, number, to, body, wamid, now) => SendOwn(l, sid, number, to, body, wamid, now);
    case ReadFrame(sid, number, peer, now) => ReadOwn(l, sid, number, peer, now);
    case HttpSend(phone, customer, text, wamid, delay, now) => AcceptOwn(l, phone, customer, text, wamid, delay, now);
    case HttpFinished(wamid, now) => FinishedOwn(l, wamid, now);
    case HttpRead(phone, wamid, now) => MarkInboundOwn(l, phone, wamid, now);
    case Inject(sender, to, body, wamid, now) => InboundOwn(l, sender, to, body, wamid, now);
    case AutoReply(customer, to, body, wamid, now) => InboundOwn(l, customer, to, body, wamid, now);
  }

  /** The customers changed, but nobody who shows a tile lost it. */
  lemma CustomersOwn(l: Live, t: Live)
    requires OwnOnly(l) && t.net == l.net && t.tabs == l.tabs && t.reg.messages == l.reg.messages
    requires forall sid: nat, x | sid in l.net.sessions && !l.net.sessions[sid].closed && Mine(l, sid, x) :: InGroup(t.reg, x, l.net.sessions[sid].role.group)
    ensures OwnOnly(t)
  {
    forall sid: nat ensures OnlyMine(t, sid, Keys(t, sid)) {
      assert OnlyMine(l, sid, Keys(l, sid));
      forall m | m in t.reg.messages && m.wamid in Keys(t, sid) && !Over(t, sid) ensures Mine(t, sid, m) { assert Mine(l, sid, m); }
    }
  }

  lemma PresenceOwn(l: Live, number: string, online: bool, now: int)
    requires OwnOnly(l) && NetOk(l) && StoreOk(l)
    ensures OwnOnly(SetPresence(l, number, online, now))
  {
    var cs := WithOnline(l.reg.customers, number, online);
    var l1 := NumbersChanged(l.(reg := l.reg.(customers := cs)));
    var l2 := SendTile(l1, number, Other);
    forall x: Message, g | InGroup(l.reg, x, g) ensures InGroup(l1.reg, x, g) { GetSwitched(l.reg.customers, number, online, x.customer); }
    CustomersOwn(l, l1);
    QuietKeys(l1, number, Other);
    QuietOwn(l1, l2);
    NumbersOk(l.reg, l.reg.businesses, cs);
    FlushOwn(l2, number, now);
  }

  lemma ModeOwn(l: Live, number: string, mode: ReplyMode)
    requires OwnOnly(l)
    ensures OwnOnly(SetAutoReply(l, number, mode)) && OwnOnly(NumbersChanged(SetAutoReply(l, number, mode)))
  {
    var l1 := NumbersChanged(l.(reg := l.reg.(customers := WithMode(l.reg.customers, number, mode))));
    forall x: Message, g | InGroup(l.reg, x, g) ensures InGroup(l1.reg, x, g) { GetModed(l.reg.customers, number, mode, x.customer); }
    CustomersOwn(l, l1);
    QuietKeys(l1, number, Other);
    QuietOwn(l1, SetAutoReply(l, number, mode));
    QuietOwn(l1, NumbersChanged(SetAutoReply(l, number, mode)));
  }

  lemma SwitchOwn(l: Live, st: SwitchStep)
    requires OwnOnly(l) && NetOk(l) && StoreOk(l) && SwitchEnabled(l, st)
    ensures OwnOnly(SwitchApply(l, st))
  {
    match st
    case PresenceFrame(sid, number, online, now) =>
      NoiseKeys(l, sid);
      QuietOwn(l, SendTab(l, sid, Other));
      PresenceOwn(l, number, online, now);
    case ApiPresence(number, online, now) => PresenceOwn(l, number, online, now);
    case AutoReplyFrame(sid, number, mode) =>
      NoiseKeys(l, sid);
      QuietOwn(l, SendTab(l, sid, Other));
      ModeOwn(l, number, mode);
    case ApiAutoReply(number, mode) => ModeOwn(l, number, mode);
  }

  lemma CreateOwn(l: Live, g: string, numbers: seq<string>)
    requires OwnOnly(l)
    ensures OwnOnly(CreateGroup(l, g, numbers))
  {
    var added := seq(|numbers|, i requires 0 <= i < |numbers| => Customer(numbers[i], g, true, Manual));
    var t := CreateGroup(l, g, numbers);
    forall x: Message, h | InGroup(l.reg, x, h) ensures InGroup(t.reg, x, h) { GetAppended(l.reg.customers, added, x.customer); }
    CustomersOwn(l, t);
  }

  lemma DeletedKeeps(cs: seq<Customer>, g: string, k: string)
    requires CustomersOnce(cs) && GetCustomer(cs, k).Some? && GetCustomer(cs, k).value.group != g
    ensures GetCustomer(WithoutGroup(cs, g), k) == GetCustomer(cs, k)
  {
    GetWithout(cs, g, k);
    assert GetCustomer(cs, k).value in WithoutGroup(cs, g);
  }

  /** A group that somebody shows is not deleted. */
  lemma DeleteOwn(l: Live, g: string)
    requires OwnOnly(l) && NetOk(l) && CustomersOnce(l.reg.customers)
    ensures OwnOnly(DeleteGroup(l, g))
  {
    var t := DeleteGroup(l, g);
    DeleteFrame(l, g);
    forall sid: nat, x | sid in l.net.sessions && !l.net.sessions[sid].closed && Mine(l, sid, x)
      ensures InGroup(t.reg, x, l.net.sessions[sid].role.group)
    {
      var h := l.net.sessions[sid].role.group;
      assert Holds(l.net, sid, h) && Owns(l.net, sid, h);
      if h != g { DeletedKeeps(l.reg.customers, g, x.customer); }
    }
    CustomersOwn(l, t);
  }

  /** After a reset there is nothing to see. */
  lemma WipedOwn(l: Live, keep: bool, holders: seq<(string, nat)>)
    ensures OwnOnly(WipeAll(l, keep, holders))
  {
    WipeReg(l, keep, holders);
    assert WipeAll(l, keep, holders).reg.messages == [];
  }

  lemma TableOwn(l: Live, st: TableStep)
    requires OwnOnly(l) && NetOk(l) && StoreOk(l) && TableEnabled(l, st)
    ensures OwnOnly(TableApply(l, st))
  {
    match st
    case ApiBusinesses(bs) => QuietOwn(l, NumbersChanged(l.(reg := l.reg.(businesses := bs))));
    case ApiCreateGroup(g, numbers) => CreateOwn(l, g, numbers);
    case ApiDeleteGroup(g) => DeleteOwn(l, g);
    case ApiReset(keep, holders) => WipedOwn(l, keep, holders);
  }

  /** After every callback a tab shows stored messages of its own group only. */
  lemma StepOwn(l: Live, st: LiveStep)
    requires OwnOnly(l) && NetOk(l) && StoreOk(l) && LiveEnabled(l, st)
    ensures OwnOnly(LiveApply(l, st))
  {
    match st
    case Linking(s) => LinkingOwn(l, s);
    case Talking(s) => TalkingOwn(l, s);
    case Switching(s) => SwitchOwn(l, s);
    case Arranging(s) => TableOwn(l, s);
    case Logging(s) =>
      NoteTalk(l, s);
      QuietOwn(l, NoteApply(l, s));
  }

  lemma {:induction false} RunOwn(l: Live, steps: seq<LiveStep>)
    requires OwnOnly(l) && LiveRuns.LiveInv(l) && LiveRuns.LiveCanRun(l, steps)
    ensures OwnOnly(LiveRuns.LiveRun(l, steps))
    decreases |steps|
  {
    if steps != [] {
      StepOwn(l, steps[0]);
      LiveRuns.StepInv(l, steps[0]);
      RunOwn(LiveApply(l, steps[0]), steps[1..]);
    }
  }

  // ---- the lists ----

  /** A list went to admin pages only. */
  ghost predicate AdminsOnly(n: Net, feeds: map<nat, seq<FeedFrame>>) {
    forall sid: nat | sid in feeds && feeds[sid] != [] :: sid in n.sessions && n.sessions[sid].role.AdminRole?
  }

  ghost predicate FeedsPrivate(l: Live) { AdminsOnly(l.net, l.feeds) }

  /** Admin pages stay admin pages. */
  ghost predicate KeepsAdmins(n: Net, m: Net) {
    forall sid: nat | sid in n.sessions && n.sessions[sid].role.AdminRole? :: sid in m.sessions && m.sessions[sid].role.AdminRole?
  }

  lemma KeptPrivate(l: Live, t: Live)
    requires FeedsPrivate(l) && t.feeds == l.feeds && KeepsAdmins(l.net, t.net)
    ensures FeedsPrivate(t)
  {}

  lemma BroadcastPrivate(l: Live, f: FeedFrame)
    requires FeedsPrivate(l) && AdminsOk(l.net, l.admins)
    ensures FeedsPrivate(Broadcast(l, f))
  {}

  lemma ListsPrivate(l: Live)
    requires FeedsPrivate(l) && AdminsOk(l.net, l.admins)
    ensures FeedsPrivate(NumbersChanged(l)) && FeedsPrivate(LockChanged(l))
  {
    BroadcastPrivate(l, NumbersFrame(l));
    BroadcastPrivate(l, GroupsFrame(l));
    BroadcastPrivate(GroupsChanged(l), NumbersFrame(GroupsChanged(l)));
  }

  lemma TalkPrivate(l: Live, t: Live)
    requires FeedsPrivate(l) && Talk(l, t)
    ensures FeedsPrivate(t)
  {
    KeptPrivate(l, t);
  }

  lemma ClaimPrivate(l: Live, sid: nat, g: string, now: int)
    requires FeedsPrivate(l) && AdminsOk(l.net, l.admins) && sid in l.net.sessions
    ensures FeedsPrivate(ClaimGroup(l, sid, g, now))
  {
    if CanTake(l, sid, g) {
      var l0 := l.(net := Claimed(l.net, sid, g, now));
      var l1 := SendSnapshot(l0, sid, g);
      var l2 := DeliverTiles(l1, TilesOf(l1.reg.customers, g), now);
      KeptPrivate(l, l0);
      SnapshotTalk(l0, sid, g);
      TalkPrivate(l0, l1);
      DeliverTilesTalk(l1, TilesOf(l1.reg.customers, g), now);
      TalkPrivate(l1, l2);
      ListsPrivate(l2);
    } else {
      NoiseTalk(l, sid);
      TalkPrivate(l, SendTab(l, sid, Other));
    }
  }

  lemma SubscribePrivate(l: Live, sid: nat)
    requires FeedsPrivate(l) && sid in l.net.sessions
    ensures FeedsPrivate(SubscribeAdmin(l, sid))
  {
    if l.net.sessions[sid].role.NoRole? {
      var l1 := l.(net := Subscribed(l.net, sid), admins := l.admins + {sid});
      KeptPrivate(l, l1);
      SendFeedPrivate(l1, sid, GroupsFrame(l1));
      var l2 := SendFeed(l1, sid, GroupsFrame(l1));
      SendFeedPrivate(l2, sid, NumbersFrame(l2));
    } else {
      NoiseTalk(l, sid);
      TalkPrivate(l, SendTab(l, sid, Other));
    }
  }

  lemma SendFeedPrivate(l: Live, sid: nat, f: FeedFrame)
    requires FeedsPrivate(l) && sid in l.net.sessions && l.net.sessions[sid].role.AdminRole?
    ensures FeedsPrivate(SendFeed(l, sid, f)) && SendFeed(l, sid, f).net == l.net
  {}

  lemma ClosedAdminsStay(n: Net, sid: nat)
    requires sid in n.sessions
    ensures KeepsAdmins(n, Closed(n, sid)) && forall client :: KeepsAdmins(n, Shut(n, sid, client))
  {}

  lemma ClosePrivate(l: Live, sid: nat)
    requires FeedsPrivate(l) && AdminsOk(l.net, l.admins) && sid in l.net.sessions
    ensures FeedsPrivate(CloseSession(l, sid))
  {
    var l1 := l.(net := Closed(l.net, sid));
    ClosedAdminsStay(l.net, sid);
    KeptPrivate(l, l1);
    if l.net.sessions[sid].role.GroupRole? {
      ClosedAdmins(l.net, l.admins, sid);
      ListsPrivate(l1);
    }
  }

  lemma ShutPrivate(l: Live, sid: nat, client: bool)
    requires FeedsPrivate(l) && AdminsOk(l.net, l.admins) && sid in l.net.sessions
    ensures var t := l.(net := Shut(l.net, sid, client)); FeedsPrivate(t) && AdminsOk(t.net, t.admins)
  {
    ClosedAdminsStay(l.net, sid);
    KeptPrivate(l, l.(net := Shut(l.net, sid, client)));
  }

  lemma GonePrivate(l: Live, sid: nat, final: bool)
    requires FeedsPrivate(l) && AdminsOk(l.net, l.admins) && sid in l.net.sessions
    ensures FeedsPrivate(GoneSession(l, sid, final))
  {
    var client := l.net.sessions[sid].client && !final;
    ShutPrivate(l, sid, client);
    ClosePrivate(l.(net := Shut(l.net, sid, client)), sid);
  }

  lemma DisconnectPrivate(l: Live, sid: nat)
    requires FeedsPrivate(l) && NetOkBut(l) && sid in l.net.sessions
    ensures FeedsPrivate(DisconnectSession(l, sid))
  {
    ClosePrivate(l, sid);
    CloseNetOk(l, sid);
    CloseNet(l, sid);
    var l1 := CloseSession(l, sid);
    ShutPrivate(l1, sid, l1.net.sessions[sid].client);
  }

  lemma LinkingPrivate(l: Live, st: LinkStep)
    requires FeedsPrivate(l) && NetOk(l) && LinkEnabled(l, st)
    ensures FeedsPrivate(LinkApply(l, st))
  {
    match st
    case Opened(sid) => KeptPrivate(l, l.(net := Connected(l.net, sid)));
    case ClaimFrame(sid, g, now) => ClaimPrivate(l, sid, g, now);
    case SubscribeFrame(sid) => SubscribePrivate(l, sid);
    case SocketEnds(sid, final) => GonePrivate(l, sid, final);
    case Heartbeat => KeptPrivate(l, l.(net := Ticked(l.net)));
    case PongFrame(sid) => KeptPrivate(l, l.(net := Ponged(l.net, sid)));
  }

  lemma PresencePrivate(l: Live, number: string, online: bool, now: int)
    requires FeedsPrivate(l) && NetOk(l)
    ensures FeedsPrivate(SetPresence(l, number, online, now))
  {
    var l0 := l.(reg := l.reg.(customers := WithOnline(l.reg.customers, number, online)));
    KeptPrivate(l, l0);
    ListsPrivate(l0);
    var l1 := NumbersChanged(l0);
    var l2 := SendTile(l1, number, Other);
    KeptPrivate(l1, l2);
    FlushTalk(l2, number, now);
    TalkPrivate(l2, FlushTile(l2, number, now));
  }

  lemma ModePrivate(l: Live, number: string, mode: ReplyMode)
    requires FeedsPrivate(l) && NetOk(l)
    ensures FeedsPrivate(SetAutoReply(l, number, mode)) && FeedsPrivate(NumbersChanged(SetAutoReply(l, number, mode)))
  {
    var l0 := l.(reg := l.reg.(customers := WithMode(l.reg.customers, number, mode)));
    KeptPrivate(l, l0);
    ListsPrivate(l0);
    KeptPrivate(NumbersChanged(l0), SetAutoReply(l, number, mode));
    ModeNet(l, number, mode);
    ListsPrivate(SetAutoReply(l, number, mode));
  }

  lemma SwitchPrivate(l: Live, st: SwitchStep)
    requires FeedsPrivate(l) && NetOk(l) && SwitchEnabled(l, st)
    ensures FeedsPrivate(SwitchApply(l, st))
  {
    match st
    case PresenceFrame(sid, number, online, now) =>
      KeptPrivate(l, SendTab(l, sid, Other));
      PresencePrivate(l, number, online, now);
    case ApiPresence(number, online, now) => PresencePrivate(l, number, online, now);
    case AutoReplyFrame(sid, number, mode) =>
      KeptPrivate(l, SendTab(l, sid, Other));
      ModePrivate(l, number, mode);
    case ApiAutoReply(number, mode) => ModePrivate(l, number, mode);
  }

  lemma RefreshOnePrivate(l: Live, g: string, sid: nat, keep: bool)
    requires FeedsPrivate(l) && NetOkBut(l)
    ensures FeedsPrivate(RefreshOne(l, g, sid, keep))
  {
    if sid in l.net.sessions {
      if keep && g in l.groups {
        SnapshotTalk(l, sid, g);
        TalkPrivate(l, SendSnapshot(l, sid, g));
      } else {
        KeptPrivate(l, SendTab(l, sid, Other));
        DisconnectPrivate(SendTab(l, sid, Other), sid);
      }
    }
  }

  lemma {:induction false} RefreshPrivate(l: Live, holders: seq<(string, nat)>, keep: bool)
    requires FeedsPrivate(l) && NetOkBut(l) && forall i | 0 <= i < |holders| :: holders[i].1 in l.net.sessions
    ensures FeedsPrivate(RefreshAll(l, holders, keep))
  {
    if holders != [] {
      var n := |holders| - 1;
      RefreshPrivate(l, holders[..n], keep);
      RefreshNet(l, holders[..n], keep);
      RefreshOnePrivate(RefreshAll(l, holders[..n], keep), holders[n].0, holders[n].1, keep);
    }
  }

  lemma WipePrivate(l: Live, keep: bool, holders: seq<(string, nat)>)
    requires FeedsPrivate(l) && NetOk(l) && Enumerates(l, holders)
    ensures FeedsPrivate(WipeAll(l, keep, holders))
  {
    var l1 := l.(reg := WipedReg(l.reg, keep), groups := if keep then l.groups else []);
    var l2 := l1.(announced := {}, log := l1.log + [LogReset]);
    KeptPrivate(l, l2);
    ListsPrivate(l2);
    ResetFeedNet(l1);
    HoldersKnown(l, holders);
    RefreshPrivate(ResetFeed(l1), holders, keep);
  }

  lemma TablePrivate(l: Live, st: TableStep)
    requires FeedsPrivate(l) && NetOk(l) && TableEnabled(l, st)
    ensures FeedsPrivate(TableApply(l, st))
  {
    match st
    case ApiBusinesses(bs) =>
      KeptPrivate(l, l.(reg := l.reg.(businesses := bs)));
      ListsPrivate(l.(reg := l.reg.(businesses := bs)));
    case ApiCreateGroup(g, numbers) =>
      var added := seq(|numbers|, i requires 0 <= i < |numbers| => Customer(numbers[i], g, true, Manual));
      var l1 := l.(groups := l.groups + [g], reg := l.reg.(customers := l.reg.customers + added));
      KeptPrivate(l, l1);
      ListsPrivate(l1);
    case ApiDeleteGroup(g) =>
      var l1 := l.(groups := WithoutString(l.groups, g), reg := l.reg.(customers := WithoutGroup(l.reg.customers, g)));
      KeptPrivate(l, l1);
      ListsPrivate(l1);
    case ApiReset(keep, holders) => WipePrivate(l, keep, holders);
  }

  /** After every callback only admin pages have been sent lists. */
  lemma StepPrivate(l: Live, st: LiveStep)
    requires FeedsPrivate(l) && NetOk(l) && LiveEnabled(l, st)
    ensures FeedsPrivate(LiveApply(l, st))
  {
    match st
    case Linking(s) => LinkingPrivate(l, s);
    case Talking(s) =>
      TalkingTalk(l, s);
      TalkPrivate(l, TalkApply(l, s));
    case Switching(s) => SwitchPrivate(l, s);
    case Arranging(s) => TablePrivate(l, s);
    case Logging(s) =>
      NoteTalk(l, s);
      TalkPrivate(l, NoteApply(l, s));
  }

  lemma {:induction false} RunPrivate(l: Live, steps: seq<LiveStep>)
    requires FeedsPrivate(l) && LiveRuns.LiveInv(l) && LiveRuns.LiveCanRun(l, steps)
    ensures FeedsPrivate(LiveRuns.LiveRun(l, steps))
    decreases |steps|
  {
    if steps != [] {
      StepPrivate(l, steps[0]);
      LiveRuns.StepInv(l, steps[0]);
      RunPrivate(LiveApply(l, steps[0]), steps[1..]);
    }
  }

  // ---- main results ----

  /**
   In every run, whatever is claimed, given up, created, deleted or put back late: a session that is not over shows a
   stored message only if it holds the group of the message's customer.
   */
  lemma TabsShowOwnGroup(l: Live, sid: nat, m: Message)
    requires LiveRuns.LiveReachable(l) && !(sid in l.net.sessions && l.net.sessions[sid].closed)
    requires m in l.reg.messages && m.wamid in View(Tab(l, sid))
    ensures exists c :: c in l.reg.customers && c.number == m.customer && Holds(l.net, sid, c.group)
  {
    var l0: Live, steps: seq<LiveStep> :| LiveRuns.Booted(l0) && LiveRuns.LiveCanRun(l0, steps) && l == LiveRuns.LiveRun(l0, steps);
    LiveRuns.BootedInv(l0);
    assert forall tid: nat :: Keys(l0, tid) == {};
    RunOwn(l0, steps);
    assert OnlyMine(l, sid, Keys(l, sid));
    assert Mine(l, sid, m);
  }

  /** In every run the lists of groups and numbers go to sessions that subscribed as admin pages, and to no other. */
  lemma ListsGoToAdmins(l: Live, sid: nat)
    requires LiveRuns.LiveReachable(l) && Feed(l, sid) != []
    ensures sid in l.net.sessions && l.net.sessions[sid].role.AdminRole?
  {
    var l0: Live, steps: seq<LiveStep> :| LiveRuns.Booted(l0) && LiveRuns.LiveCanRun(l0, steps) && l == LiveRuns.LiveRun(l0, steps);
    LiveRuns.BootedInv(l0);
    RunPrivate(l0, steps);
  }
}
