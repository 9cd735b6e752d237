/** The tab mirror through claims, new messages, switches and resets. */
module LiveTabSteps {
  import opened Prelude
  import opened JobStore
  import opened Registry
  import opened Lifecycle
  import opened Conservation
  import opened StoreGroups
  import opened Sessions
  import opened Live
  import opened LiveNet
  import opened LiveQueue
  import opened LiveTabs
  import opened LiveMirror

  // ---- the snapshot ----

  lemma PastStored(reg: Reg, number: string)
    requires RegOk(reg)
    ensures forall m | m in Past(reg, number) :: m in reg.messages
  {
    HistoryAndQueuePartition(reg, number);
    PastOfIn(reg.messages, number);
    forall m | m in Past(reg, number) ensures m in reg.messages { assert m in multiset(Past(reg, number)); }
  }

  lemma TileStored(reg: Reg, number: string)
    requires RegOk(reg)
    ensures forall b | b in TileBubbles(reg, number) :: exists m :: m in reg.messages && b == BubbleOf(m)
    ensures forall m | m in reg.messages && Waiting(m) && m.customer == number :: BubbleOf(m) in TileBubbles(reg, number)
  {
    var past, q := Past(reg, number), QueuedFor(reg, number);
    var shown := Newest(past, SNAPSHOT_HISTORY_PER_TILE);
    PastStored(reg, number);
    QueuedForIs(reg, number);
    BubblesOf(shown);
    BubblesOf(q);
    forall m | m in shown ensures m in past {}
    assert TileBubbles(reg, number) == Bubbles(shown) + Bubbles(q);
  }

  lemma {:induction false} SnapshotStored(reg: Reg, tiles: seq<string>)
    requires RegOk(reg)
    ensures forall b | b in SnapshotOf(reg, tiles) :: exists m :: m in reg.messages && b == BubbleOf(m)
    ensures forall m | m in reg.messages && Waiting(m) && m.customer in tiles :: BubbleOf(m) in SnapshotOf(reg, tiles)
  {
    if tiles != [] {
      var n := |tiles| - 1;
      SnapshotStored(reg, tiles[..n]);
      TileStored(reg, tiles[n]);
      assert tiles == tiles[..n] + [tiles[n]];
    }
  }

  /** A fresh snapshot is a right view. */
  lemma SnapshotMirrors(reg: Reg, g: string)
    requires RegOk(reg)
    ensures Mirrors(reg, g, Shown(map[], SnapshotOf(reg, TilesOf(reg.customers, g))), LeftOut(reg, g), {})
  {
    var bs := SnapshotOf(reg, TilesOf(reg.customers, g));
    var v := Shown(map[], bs);
    SnapshotStored(reg, TilesOf(reg.customers, g));
    ShownIs(map[], bs);
    forall m | m in reg.messages && InGroup(reg, m, g)
      ensures Tells(m, v, LeftOut(reg, g), {})
    {
      if m.wamid in v {
        var b :| b in bs && b.wamid == m.wamid && b.status == v[m.wamid];
        var x :| x in reg.messages && b == BubbleOf(x);
        SameWamid(reg, x, m);
      }
    }
  }

  /** What waits in a tile of the group has its bubble. */
  ghost predicate QueueShown(reg: Reg, g: string, view: map<string, Status>) {
    forall m | m in reg.messages && Waiting(m) && InGroup(reg, m, g) :: m.wamid in view
  }

  lemma SnapshotShowsQueue(reg: Reg, g: string)
    requires RegOk(reg)
    ensures QueueShown(reg, g, Shown(map[], SnapshotOf(reg, TilesOf(reg.customers, g))))
  {
    var bs := SnapshotOf(reg, TilesOf(reg.customers, g));
    SnapshotStored(reg, TilesOf(reg.customers, g));
    ShownIs(map[], bs);
    TilesOfIs(reg.customers, g);
    forall m | m in reg.messages && Waiting(m) && InGroup(reg, m, g) ensures m.wamid in Shown(map[], bs) {
      assert m.customer in TilesOf(reg.customers, g);
      assert BubbleOf(m) in bs;
    }
  }

  // ---- what leaves the tabs alone ----

  /** Every tab of `t` is the same tab in `l`, about no more messages. */
  ghost predicate SameTabs(l: Live, t: Live) {
    && t.reg.messages == l.reg.messages
    && forall sid: nat, g: string | Indexed(t.net, sid, g) && Open(t, sid) ::
         && Indexed(l.net, sid, g) && Open(l, sid)
         && View(Tab(t, sid)) == View(Tab(l, sid)) && Hidden(t, sid) == Hidden(l, sid) && Stale(t, sid) == Stale(l, sid)
         && forall m | m in t.reg.messages && InGroup(t.reg, m, g) :: InGroup(l.reg, m, g)
  }

  lemma KeptTabs(l: Live, t: Live)
    requires TabsOk(l) && SameTabs(l, t)
    ensures TabsOk(t)
  {
    forall sid: nat, g: string | Indexed(t.net, sid, g) && Open(t, sid) ensures TabOk(t, sid, g) { assert TabOk(l, sid, g); }
  }

  lemma NoiseView(l: Live, sid: nat, tid: nat)
    ensures View(Tab(SendTab(l, sid, Other), tid)) == View(Tab(l, tid))
  {
    ViewAppend(Tab(l, sid), Other);
  }

  lemma NoiseTabs(l: Live, sid: nat)
    requires TabsOk(l)
    ensures TabsOk(SendTab(l, sid, Other))
  {
    var t := SendTab(l, sid, Other);
    forall tid: nat, g: string | Indexed(t.net, tid, g) && Open(t, tid) ensures TabOk(t, tid, g) {
      assert TabOk(l, tid, g);
      NoiseView(l, sid, tid);
    }
  }

  lemma EchoTabs(l: Live, number: string)
    requires TabsOk(l)
    ensures TabsOk(SendTile(l, number, Other)) && TabsOk(NumbersChanged(l))
  {
    if SessionFor(l, number).Some? { NoiseTabs(l, SessionFor(l, number).value); }
    KeptTabs(l, NumbersChanged(l));
  }

  // ---- the claim ----

  lemma SnapshotTabs(l: Live, sid: nat, g: string)
    requires RegOk(l.reg) && Indexed(l.net, sid, g) && Agreement(l.net)
    requires forall tid: nat, h: string | Indexed(l.net, tid, h) && Open(l, tid) && tid != sid :: TabOk(l, tid, h)
    ensures TabsOk(SendSnapshot(l, sid, g))
    ensures Open(l, sid) ==> QueueShown(l.reg, g, View(Tab(SendSnapshot(l, sid, g), sid)))
  {
    var t := SendSnapshot(l, sid, g);
    ViewAppend(Tab(l, sid), GroupClaimed(SnapshotOf(l.reg, TilesOf(l.reg.customers, g))));
    SnapshotMirrors(l.reg, g);
    SnapshotShowsQueue(l.reg, g);
    forall tid: nat, h: string | Indexed(t.net, tid, h) && Open(t, tid) ensures TabOk(t, tid, h) {
      if tid == sid {
        assert Holds(l.net, sid, g) && Holds(l.net, sid, h);
      } else {
        assert TabOk(l, tid, h);
      }
    }
  }

  lemma DeliverTileTabs(l: Live, number: string, now: int, sid: nat, g: string)
    requires TabsOk(l) && RegOk(l.reg) && AllRegistered(l.reg, l.reg.businesses)
    requires Indexed(l.net, sid, g) && GetCustomer(l.reg.customers, number).Some? && GetCustomer(l.reg.customers, number).value.group == g
    requires Open(l, sid) ==> QueueShown(l.reg, g, View(Tab(l, sid)))
    ensures TabsOk(DeliverTile(l, number, now))
    ensures Open(l, sid) ==> QueueShown(DeliverTile(l, number, now).reg, g, View(Tab(DeliverTile(l, number, now), sid)))
  {
    if IsOnline(l, number) && QueuedFor(l.reg, number) != [] {
      var q := QueuedFor(l.reg, number);
      QueueTodo(l.reg, number);
      DeliveredTabs(l, q, now);
      if Open(l, sid) { DeliveredShown(l, q, now, sid, g); }
    }
  }

  /** Delivering removes no bubble and adds nothing that waits. */
  lemma DeliveredShown(l: Live, q: seq<Message>, now: int, sid: nat, g: string)
    requires RegOk(l.reg) && AllRegistered(l.reg, l.reg.businesses) && Copies(l.reg, q)
    requires Open(l, sid) && QueueShown(l.reg, g, View(Tab(l, sid)))
    ensures var t := Happened(l, DeliveredCall(l.reg, q, now)); QueueShown(t.reg, g, View(Tab(t, sid)))
  {
    var e := DeliveredCall(l.reg, q, now);
    var t := Happened(l, e);
    DeliveredEffect(l.reg, q, now);
    DeliveredAged(l.reg, q, now);
    DeliveredNumbers(l.reg, q, now);
    HappenedTalk(l, e);
    TicksView(l.(reg := e.reg), DeliveredTodo(l.reg, q), WasDelivered, now, sid);
    forall m | m in t.reg.messages && Waiting(m) && InGroup(t.reg, m, g) ensures m.wamid in View(Tab(t, sid)) {
      var x := AgedMessage(l.reg, t.reg, m);
    }
  }

  lemma {:induction false} DeliverTilesTabs(l: Live, tiles: seq<string>, now: int, sid: nat, g: string)
    requires TabsOk(l) && RegOk(l.reg) && AllRegistered(l.reg, l.reg.businesses) && Indexed(l.net, sid, g)
    requires forall k | k in tiles :: GetCustomer(l.reg.customers, k).Some? && GetCustomer(l.reg.customers, k).value.group == g
    requires Open(l, sid) ==> QueueShown(l.reg, g, View(Tab(l, sid)))
    ensures TabsOk(DeliverTiles(l, tiles, now))
    ensures Open(l, sid) ==> QueueShown(DeliverTiles(l, tiles, now).reg, g, View(Tab(DeliverTiles(l, tiles, now), sid)))
  {
    if tiles != [] {
      var n := |tiles| - 1;
      var l1 := DeliverTiles(l, tiles[..n], now);
      assert forall k | k in tiles[..n] :: k in tiles;
      DeliverTilesTabs(l, tiles[..n], now, sid, g);
      DeliverTilesTalk(l, tiles[..n], now);
      TilesDelivered(l, tiles[..n], now);
      AgedRegistered(l.reg, l1.reg);
      DeliverTileTabs(l1, tiles[n], now, sid, g);
    }
  }

  lemma AgedRegistered(reg: Reg, t: Reg)
    requires AllRegistered(reg, reg.businesses) && SameButTimes(reg, t)
    ensures AllRegistered(t, t.businesses)
  {
    forall m | m in t.messages ensures GetBusiness(t.businesses, m.phone).Some? { var x := AgedMessage(reg, t, m); }
  }

  lemma {:induction false} TilesAre(cs: seq<Customer>, g: string)
    ensures forall k | k in TilesOf(cs, g) :: exists c :: c in cs && c.number == k && c.group == g
  {
    if cs != [] {
      TilesAre(cs[..|cs| - 1], g);
      assert cs == cs[..|cs| - 1] + [cs[|cs| - 1]];
    }
  }

  lemma TilesInGroup(cs: seq<Customer>, g: string)
    requires CustomersOnce(cs)
    ensures forall k | k in TilesOf(cs, g) :: GetCustomer(cs, k).Some? && GetCustomer(cs, k).value.group == g
  {
    TilesAre(cs, g);
    forall k | k in TilesOf(cs, g) ensures GetCustomer(cs, k).Some? && GetCustomer(cs, k).value.group == g {
      var c :| c in cs && c.number == k && c.group == g;
      var i :| 0 <= i < |cs| && cs[i] == c;
      var j :| 0 <= j < |cs| && cs[j] == GetCustomer(cs, k).value;
    }
  }

  /** A granted claim: the newcomer's tab is right at once, nobody else's changes. */
  lemma TakeTabs(l: Live, sid: nat, g: string, now: int)
    requires TabsOk(l) && StoreOk(l) && NetOk(l) && sid in l.net.sessions && !l.net.sessions[sid].closed && CanTake(l, sid, g)
    ensures TabsOk(TakeGroup(l, sid, g, now))
  {
    var l0 := l.(net := Claimed(l.net, sid, g, now));
    var l1 := SendSnapshot(l0, sid, g);
    ClaimedOthers(l, sid, g, now);
    SnapshotTabs(l0, sid, g);
    SnapshotTalk(l0, sid, g);
    TilesInGroup(l.reg.customers, g);
    DeliverTilesTabs(l1, TilesOf(l1.reg.customers, g), now, sid, g);
  }

  lemma ClaimTabs(l: Live, sid: nat, g: string, now: int)
    requires TabsOk(l) && StoreOk(l) && NetOk(l) && sid in l.net.sessions && !l.net.sessions[sid].closed
    ensures TabsOk(ClaimGroup(l, sid, g, now))
  {
    if CanTake(l, sid, g) {
      TakeTabs(l, sid, g, now);
      var t := TakeGroup(l, sid, g, now);
      LockChangedNet(t);
      KeptTabs(t, LockChanged(t));
    } else {
      NoiseTabs(l, sid);
    }
  }

  lemma ClaimedOthers(l: Live, sid: nat, g: string, now: int)
    requires TabsOk(l) && NetOk(l) && sid in l.net.sessions && !l.net.sessions[sid].closed && l.net.sessions[sid].role.NoRole? && g !in l.net.locks
    ensures var t := l.(net := Claimed(l.net, sid, g, now));
            && Agreement(t.net) && Indexed(t.net, sid, g)
            && forall tid: nat, h: string | Indexed(t.net, tid, h) && Open(t, tid) && tid != sid :: TabOk(t, tid, h)
  {
    var t := l.(net := Claimed(l.net, sid, g, now));
    ClaimAgrees(l.net, sid, g, now);
    forall tid: nat, h: string | Indexed(t.net, tid, h) && Open(t, tid) && tid != sid ensures TabOk(t, tid, h) {
      assert Indexed(l.net, tid, h) && Open(l, tid);
      assert TabOk(l, tid, h);
    }
  }

  // ---- new messages ----

  lemma StoredMirrors(reg: Reg, g: string, view: map<string, Status>, hidden: set<string>, stale: set<string>, d: Draft)
    requires Mirrors(reg, g, view, hidden, stale) && d.wamid !in view
    ensures d.dir.ToCustomer? ==> Mirrors(Stored(reg, d), g, view, hidden, stale)
    ensures Fresh(reg, d.wamid) && d.dir.FromCustomer? ==> Mirrors(Stored(reg, d), g, Shown(view, [BubbleOf(MessageOf(reg, d))]), hidden, stale)
    ensures d.dir.FromCustomer? && !InGroup(reg, MessageOf(reg, d), g) ==> Mirrors(Stored(reg, d), g, view, hidden, stale)
  {
    assert [BubbleOf(MessageOf(reg, d))][..0] == [];
  }

  /** A send appears nowhere yet: it waits. */
  lemma AcceptTabs(l: Live, phone: string, customer: string, text: string, wamid: string, delay: nat, now: int)
    requires TabsOk(l) && Unseen(l, wamid) && Registered(l.reg, phone)
    ensures TabsOk(AcceptSend(l, phone, customer, text, wamid, delay, now))
  {
    var d := Draft(wamid, ToCustomer, phone, customer, text, now);
    var l1 := l.(pending := l.pending[wamid := MessageOf(l.reg, d)], reg := Stored(l.reg, d));
    forall sid: nat, g: string | Indexed(l1.net, sid, g) && Open(l1, sid) ensures TabOk(l1, sid, g) {
      assert TabOk(l, sid, g);
      StoredMirrors(l.reg, g, View(Tab(l, sid)), Hidden(l, sid), Stale(l, sid), d);
    }
    OneLogEvent(l1, wamid);
  }

  lemma OneLogEvent(l: Live, wamid: string)
    requires TabsOk(l)
    ensures TabsOk(EmitAll(l, [LogChanged(wamid)]))
  {
    assert [LogChanged(wamid)][..0] == [];
    NoteTabs(l, WebhookProgress(wamid));
  }

  lemma InboundHappened(l: Live, m: Message, t: Reg)
    requires m.dir.FromCustomer?
    ensures Happened(l, Effect(t, [], [MessageNew(m), LogChanged(m.wamid)], None))
         == LogTo(SendTile(l.(reg := t), m.customer, NewBubble(BubbleOf(m))), m.wamid)
  {
    EmitTwo(l.(reg := t), [], MessageNew(m), LogChanged(m.wamid));
    assert [] + [MessageNew(m), LogChanged(m.wamid)] == [MessageNew(m), LogChanged(m.wamid)];
  }

  /** A customer's message shows up in the open tab at once. */
  lemma InboundTabs(l: Live, sender: string, to: string, body: string, wamid: string, now: int)
    requires TabsOk(l) && Unseen(l, wamid)
    ensures TabsOk(Happened(l, InboundCall(l.reg, sender, to, body, wamid, now)))
  {
    var e := InboundCall(l.reg, sender, to, body, wamid, now);
    if e.error.None? {
      var c, b := GetCustomer(l.reg.customers, sender).value, GetBusiness(l.reg.businesses, to).value;
      var d := Draft(wamid, FromCustomer, b.phone, c.number, body, now);
      NewInboundTabs(l, d);
      InboundHappened(l, MessageOf(l.reg, d), Stored(l.reg, d));
      LoggedTabs(SendTile(l.(reg := Stored(l.reg, d)), d.customer, NewBubble(BubbleOf(MessageOf(l.reg, d)))), wamid);
    } else {
      assert Happened(l, e) == l;
    }
  }

  lemma LoggedTabs(l: Live, wamid: string)
    requires TabsOk(l)
    ensures TabsOk(LogTo(l, wamid))
  {
    NoteTabs(l, WebhookProgress(wamid));
  }

  lemma NewInboundTabs(l: Live, d: Draft)
    requires TabsOk(l) && Unseen(l, d.wamid) && d.dir.FromCustomer?
    ensures TabsOk(SendTile(l.(reg := Stored(l.reg, d)), d.customer, NewBubble(BubbleOf(MessageOf(l.reg, d)))))
  {
    var t := SendTile(l.(reg := Stored(l.reg, d)), d.customer, NewBubble(BubbleOf(MessageOf(l.reg, d))));
    forall sid: nat, g: string | Indexed(t.net, sid, g) && Open(t, sid) ensures TabOk(t, sid, g) { NewInboundTab(l, d, sid, g); }
  }

  lemma SendTileFrame(l: Live, number: string, f: TabFrame)
    ensures SendTile(l, number, f) == l.(tabs := SendTile(l, number, f).tabs)
  {}

  lemma NewInboundTab(l: Live, d: Draft, sid: nat, g: string)
    requires TabOk(l, sid, g) && Indexed(l.net, sid, g) && Open(l, sid) && Unseen(l, d.wamid) && d.dir.FromCustomer?
    ensures TabOk(SendTile(l.(reg := Stored(l.reg, d)), d.customer, NewBubble(BubbleOf(MessageOf(l.reg, d)))), sid, g)
  {
    var l1 := l.(reg := Stored(l.reg, d));
    SendTileView(l1, d.customer, NewBubble(BubbleOf(MessageOf(l.reg, d))), sid);
    SendTileFrame(l1, d.customer, NewBubble(BubbleOf(MessageOf(l.reg, d))));
    StoredMirrors(l.reg, g, View(Tab(l, sid)), Hidden(l, sid), Stale(l, sid), d);
  }

  /** Marking a customer's message read ticks its bubble. */
  lemma MarkInboundTabs(l: Live, phone: string, wamid: string, now: int)
    requires TabsOk(l) && RegOk(l.reg)
    ensures TabsOk(Happened(l, MarkInboundRead(l.reg, phone, wamid, now)))
  {
    var e := MarkInboundRead(l.reg, phone, wamid, now);
    if e.events == [] {
      assert Happened(l, e) == l;
    } else {
      var m := GetMessage(l.reg.messages, wamid).value;
      var l1 := l.(reg := e.reg);
      var t := Happened(l, e);
      EmitTwo(l1, [], StatusChanged(wamid, m.customer, WasRead, now), LogChanged(wamid));
      assert [] + [StatusChanged(wamid, m.customer, WasRead, now), LogChanged(wamid)] == e.events;
      HappenedTalk(l, e);
      forall sid: nat, g: string | Indexed(t.net, sid, g) && Open(t, sid) ensures TabOk(t, sid, g) {
        assert TabOk(l, sid, g);
        TickOneView(l1, m, WasRead, now, sid);
        TickedOne(l1, m, sid);
        MarkInboundMirrors(l, sid, g, m, now, View(Tab(t, sid)));
      }
    }
  }

  lemma MarkInboundMirrors(l: Live, sid: nat, g: string, m: Message, now: int, v': map<string, Status>)
    requires RegOk(l.reg) && m in l.reg.messages && Indexed(l.net, sid, g) && TabOk(l, sid, g)
    requires m.dir.FromCustomer? && m.readAt.None?
    requires v'.Keys == View(Tab(l, sid)).Keys
    requires forall w | w in v' :: v'[w] == if w == m.wamid && SessionFor(l, m.customer) == Some(sid) then WasRead else View(Tab(l, sid))[w]
    ensures Mirrors(SetRead(l.reg, [m.wamid], now), g, v', Hidden(l, sid), Stale(l, sid))
  {
    var t := SetRead(l.reg, [m.wamid], now);
    forall y | y in t.messages && InGroup(t, y, g)
      ensures Tells(y, v', Hidden(l, sid), Stale(l, sid))
    {
      var i :| 0 <= i < |t.messages| && t.messages[i] == y;
      var x := l.reg.messages[i];
      assert x in l.reg.messages && InGroup(l.reg, x, g);
      assert SessionFor(l, x.customer) == Some(sid);
      if x.wamid == m.wamid { SameWamid(l.reg, x, m); }
    }
  }

  // ---- the other steps ----

  lemma PresenceTabs(l: Live, number: string, online: bool, now: int)
    requires TabsOk(l) && StoreOk(l)
    ensures TabsOk(SetPresence(l, number, online, now))
  {
    var l1 := NumbersChanged(l.(reg := l.reg.(customers := WithOnline(l.reg.customers, number, online))));
    SwitchedTabs(l, number, online);
    NumbersOk(l.reg, l.reg.businesses, WithOnline(l.reg.customers, number, online));
    FlushTabs(SendTile(l1, number, Other), number, now);
  }

  /** The switch and its echo touch no bubble. */
  lemma SwitchedTabs(l: Live, number: string, online: bool)
    requires TabsOk(l)
    ensures var l1 := NumbersChanged(l.(reg := l.reg.(customers := WithOnline(l.reg.customers, number, online))));
            TabsOk(l1) && TabsOk(SendTile(l1, number, Other))
  {
    var l0 := l.(reg := l.reg.(customers := WithOnline(l.reg.customers, number, online)));
    forall m, g | m in l.reg.messages && InGroup(l0.reg, m, g) ensures InGroup(l.reg, m, g) { GetSwitched(l.reg.customers, number, online, m.customer); }
    KeptTabs(l, l0);
    EchoTabs(l0, number);
    EchoTabs(NumbersChanged(l0), number);
  }

  lemma ModeTabs(l: Live, number: string, mode: ReplyMode)
    requires TabsOk(l)
    ensures TabsOk(SetAutoReply(l, number, mode))
  {
    var l0 := l.(reg := l.reg.(customers := WithMode(l.reg.customers, number, mode)));
    forall m, g | m in l.reg.messages && InGroup(l0.reg, m, g) ensures InGroup(l.reg, m, g) { GetModed(l.reg.customers, number, mode, m.customer); }
    KeptTabs(l, l0);
    EchoTabs(l0, number);
    EchoTabs(NumbersChanged(l0), number);
  }

  lemma BusinessesTabs(l: Live, bs: seq<Business>)
    requires TabsOk(l)
    ensures TabsOk(NumbersChanged(l.(reg := l.reg.(businesses := bs))))
  {
    KeptTabs(l, l.(reg := l.reg.(businesses := bs)));
    EchoTabs(l.(reg := l.reg.(businesses := bs)), "");
  }

  lemma CreateTabs(l: Live, g: string, numbers: seq<string>)
    requires TabsOk(l) && NetOk(l) && g !in l.groups
    ensures TabsOk(CreateGroup(l, g, numbers))
  {
    var added := seq(|numbers|, i requires 0 <= i < |numbers| => Customer(numbers[i], g, true, Manual));
    LockedIsIndexed(l.net);
    var l0 := l.(groups := l.groups + [g], reg := l.reg.(customers := l.reg.customers + added));
    forall m, h | m in l.reg.messages && InGroup(l0.reg, m, h) && h in l.net.index ensures InGroup(l.reg, m, h) {
      GetAppended(l.reg.customers, added, m.customer);
    }
    KeptTabs(l, l0);
    ListedTabs(l0);
  }

  lemma ListedTabs(l: Live)
    requires TabsOk(l)
    ensures TabsOk(LockChanged(l))
  {
    LockChangedNet(l);
    FewerTabs(l, LockChanged(l));
  }

  lemma DeletedGroup(l: Live, g: string, m: Message, h: string)
    requires CustomersOnce(l.reg.customers) && InGroup(DeleteGroup(l, g).reg, m, h)
    ensures InGroup(l.reg, m, h)
  {
    GetWithout(l.reg.customers, g, m.customer);
  }

  lemma DeleteFrame(l: Live, g: string)
    ensures var t := DeleteGroup(l, g); t == l.(groups := t.groups, reg := l.reg.(customers := t.reg.customers), feeds := t.feeds)
  {}

  /** Only group membership changed, and nobody joined. */
  lemma FewerMembers(l: Live, t: Live)
    requires TabsOk(l) && t.net == l.net && t.tabs == l.tabs && SameMarks(l, t) && t.reg.messages == l.reg.messages
    requires forall m, h | InGroup(t.reg, m, h) :: InGroup(l.reg, m, h)
    ensures TabsOk(t)
  {
    KeptTabs(l, t);
  }

  lemma DeleteTabs(l: Live, g: string)
    requires TabsOk(l) && CustomersOnce(l.reg.customers)
    ensures TabsOk(DeleteGroup(l, g))
  {
    DeleteFrame(l, g);
    forall m, h | InGroup(DeleteGroup(l, g).reg, m, h) ensures InGroup(l.reg, m, h) { DeletedGroup(l, g, m, h); }
    FewerMembers(l, DeleteGroup(l, g));
  }

  /** After a reset there is no message to show. */
  lemma WipedTabs(l: Live, keep: bool, holders: seq<(string, nat)>)
    ensures TabsOk(WipeAll(l, keep, holders))
  {
    WipeReg(l, keep, holders);
    assert WipeAll(l, keep, holders).reg.messages == [];
  }

  /** Fewer sessions hold or listen. */
  lemma FewerTabs(l: Live, t: Live)
    requires TabsOk(l) && t.reg == l.reg && t.tabs == l.tabs && SameMarks(l, t)
    requires forall sid: nat, g: string | Indexed(t.net, sid, g) && Open(t, sid) :: Indexed(l.net, sid, g) && Open(l, sid)
    ensures TabsOk(t)
  {
    KeptTabs(l, t);
  }

  lemma GoneFewer(n: Net, sid: nat, final: bool)
    requires sid in n.sessions
    ensures var t := SocketGone(n, sid, final);
            && (forall tid, h :: Indexed(t, tid, h) ==> Indexed(n, tid, h))
            && (forall tid: nat | tid in t.sessions :: tid in n.sessions && (t.sessions[tid].open ==> n.sessions[tid].open))
  {}

  lemma GoneTabs(l: Live, sid: nat, final: bool)
    requires TabsOk(l) && sid in l.net.sessions
    ensures TabsOk(GoneSession(l, sid, final))
  {
    GoneIs(l, sid, final);
    GoneFewer(l.net, sid, final);
    FewerTabs(l, GoneSession(l, sid, final));
  }

  lemma SubscribeTabs(l: Live, sid: nat)
    requires TabsOk(l) && sid in l.net.sessions
    ensures TabsOk(SubscribeAdmin(l, sid))
  {
    NoiseTabs(l, sid);
    var l0 := l.(net := Subscribed(l.net, sid));
    FewerTabs(l, l0);
    if l.net.sessions[sid].role.NoRole? { FewerTabs(l0, SubscribeAdmin(l, sid)); }
  }

  lemma OpenedTabs(l: Live, sid: nat)
    requires TabsOk(l) && NetOk(l) && sid !in l.net.sessions
    ensures TabsOk(l.(net := Connected(l.net, sid)))
  {
    var t := l.(net := Connected(l.net, sid));
    forall tid: nat, g: string | Indexed(t.net, tid, g) && Open(t, tid) ensures Indexed(l.net, tid, g) && Open(l, tid) {
      assert Indexed(l.net, tid, g) <==> Holds(l.net, tid, g);
    }
    FewerTabs(l, t);
  }

  lemma LinkingTabs(l: Live, st: LinkStep)
    requires TabsOk(l) && StoreOk(l) && NetOk(l) && LinkEnabled(l, st)
    ensures TabsOk(LinkApply(l, st))
  {
    match st
    case ClaimFrame(sid, g, now) => ClaimTabs(l, sid, g, now);
    case SocketEnds(sid, final) => GoneTabs(l, sid, final);
    case SubscribeFrame(sid) => SubscribeTabs(l, sid);
    case Opened(sid) => OpenedTabs(l, sid);
    case Heartbeat => FewerTabs(l, l.(net := Ticked(l.net)));
    case PongFrame(sid) => FewerTabs(l, l.(net := Ponged(l.net, sid)));
  }

  lemma SendTabs(l: Live, sid: nat, number: string, to: string, body: string, wamid: string, now: int)
    requires TabsOk(l) && sid in l.net.sessions && Unseen(l, wamid)
    ensures TabsOk(SendMessage(l, sid, number, to, body, wamid, now))
  {
    NoiseTabs(l, sid);
    if GetBusiness(l.reg.businesses, to).Some? {
      InboundTabs(l, number, GetBusiness(l.reg.businesses, to).value.phone, body, wamid, now);
    }
  }

  lemma ReadChatTabs(l: Live, sid: nat, number: string, peer: string, now: int)
    requires TabsOk(l) && RegOk(l.reg) && sid in l.net.sessions
    ensures TabsOk(ReadChat(l, sid, number, peer, now))
  {
    NoiseTabs(l, sid);
    if GetBusiness(l.reg.businesses, peer).Some? {
      ReadTabs(l, number, GetBusiness(l.reg.businesses, peer).value.phone, now);
    }
  }

  lemma PendingTabs(l: Live, w: string, now: int)
    requires TabsOk(l) && StoreOk(l) && w in l.pending
    ensures TabsOk(ResponseFinished(l, w, now))
  {
    var l0, p := l.(pending := l.pending - {w}), l.pending[w];
    KeptTabs(l, l0);
    NotedTabs(l0, p);
    FinishedTabs(NoteLate(l0, p), p, now);
  }

  lemma TalkingTabs(l: Live, st: TalkStep)
    requires TabsOk(l) && StoreOk(l) && TalkEnabled(l, st)
    ensures TabsOk(TalkApply(l, st))
  {
    match st
    case SendFrame(sid, number, to, body, wamid, now) => SendTabs(l, sid, number, to, body, wamid, now);
    case ReadFrame(sid, number, peer, now) => ReadChatTabs(l, sid, number, peer, now);
    case HttpSend(phone, customer, text, wamid, delay, now) => AcceptTabs(l, phone, customer, text, wamid, delay, now);
    case HttpFinished(wamid, now) => PendingTabs(l, wamid, now);
    case HttpRead(phone, wamid, now) => MarkInboundTabs(l, phone, wamid, now);
    case Inject(sender, to, body, wamid, now) => InboundTabs(l, sender, to, body, wamid, now);
    case AutoReply(customer, to, body, wamid, now) => InboundTabs(l, customer, to, body, wamid, now);
  }

  lemma SwitchTabs(l: Live, st: SwitchStep)
    requires TabsOk(l) && StoreOk(l) && SwitchEnabled(l, st)
    ensures TabsOk(SwitchApply(l, st))
  {
    match st
    case PresenceFrame(sid, number, online, now) =>
      NoiseTabs(l, sid);
      PresenceTabs(l, number, online, now);
    case ApiPresence(number, online, now) => PresenceTabs(l, number, online, now);
    case AutoReplyFrame(sid, number, mode) =>
      NoiseTabs(l, sid);
      ModeTabs(l, number, mode);
    case ApiAutoReply(number, mode) =>
      ModeTabs(l, number, mode);
      EchoTabs(SetAutoReply(l, number, mode), "");
  }

  lemma TableTabs(l: Live, st: TableStep)
    requires TabsOk(l) && StoreOk(l) && NetOk(l) && TableEnabled(l, st)
    ensures TabsOk(TableApply(l, st))
  {
    match st
    case ApiBusinesses(bs) => BusinessesTabs(l, bs);
    case ApiCreateGroup(g, numbers) => CreateTabs(l, g, numbers);
    case ApiDeleteGroup(g) => DeleteTabs(l, g);
    case ApiReset(keep, holders) => WipedTabs(l, keep, holders);
  }

  lemma NoteTabs(l: Live, st: NoteStep)
    requires TabsOk(l)
    ensures TabsOk(NoteApply(l, st))
  {
    NoteTalk(l, st);
    FewerTabs(l, NoteApply(l, st));
  }

  /** After any callback every open tab mirrors the store. */
  lemma StepTabsOk(l: Live, st: LiveStep)
    requires TabsOk(l) && StoreOk(l) && NetOk(l) && LiveEnabled(l, st)
    ensures TabsOk(LiveApply(l, st))
  {
    match st
    case Linking(s) => LinkingTabs(l, s);
    case Talking(s) => TalkingTabs(l, s);
    case Switching(s) => SwitchTabs(l, s);
    case Arranging(s) => TableTabs(l, s);
    case Logging(s) => NoteTabs(l, s);
  }
}
