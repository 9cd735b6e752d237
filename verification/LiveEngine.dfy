/** The live engine as an object: sessions, store, admin feed and sent frames, changed by one method per callback. */
module LiveEngine {
  import opened Prelude
  import opened Registry
  import opened Lifecycle
  import opened StoreGroups
  import opened Sessions
  import opened L = Live

  /** Feeds after the pages in `done` got the frame, if their socket takes frames. */
  ghost predicate Sent(l: Live, sent: map<nat, seq<FeedFrame>>, done: set<nat>, f: FeedFrame) {
    && sent.Keys == l.feeds.Keys + done
    && forall sid | sid in sent :: sent[sid] == if sid in done && Open(l, sid) then Feed(l, sid) + [f] else Feed(l, sid)
  }

  lemma SentOne(l: Live, sent: map<nat, seq<FeedFrame>>, done: set<nat>, f: FeedFrame, sid: nat)
    requires Sent(l, sent, done, f)
    ensures Sent(l, sent[sid := if Open(l, sid) then Feed(l, sid) + [f] else Feed(l, sid)], done + {sid}, f)
  {}

  lemma SentAll(l: Live, sent: map<nat, seq<FeedFrame>>, f: FeedFrame)
    requires Sent(l, sent, l.admins, f)
    ensures l.(feeds := sent) == Broadcast(l, f)
  {
    assert sent == Broadcast(l, f).feeds;
  }

  class Engine {
    var net: Net
    var groups: seq<string>
    var reg: Reg
    var pending: map<string, Message>
    var tabs: map<nat, seq<TabFrame>>
    ghost var hidden: map<nat, set<string>>
    ghost var stale: map<nat, set<string>>
    var admins: set<nat>
    var feeds: map<nat, seq<FeedFrame>>
    var announced: set<string>
    ghost var log: seq<LogFrame>

    ghost function View(): Live
      reads this
    {
      L.Live(net, groups, reg, pending, tabs, hidden, stale, admins, feeds, announced, log)
    }

    constructor (groups: seq<string>, reg: Reg)
      ensures View() == L.Live(EmptyNet, groups, reg, map[], map[], map[], map[], {}, map[], {}, [])
    {
      this.net, this.groups, this.reg, pending, tabs, hidden, stale := EmptyNet, groups, reg, map[], map[], map[], map[];
      admins, feeds, announced, log := {}, map[], {}, [];
    }

    // ---- sending ----

    method Send(sid: nat, f: TabFrame)
      modifies this`tabs
      ensures View() == SendTab(old(View()), sid, f)
    {
      if sid in net.sessions && net.sessions[sid].open {
        tabs := tabs[sid := (if sid in tabs then tabs[sid] else []) + [f]];
      }
    }

    method SessionShowing(number: string) returns (r: Option<nat>)
      ensures r == SessionFor(View(), number)
    {
      var c := GetCustomer(reg.customers, number);
      if c.None? || c.value.group !in net.index { return None; }
      return Some(net.index[c.value.group]);
    }

    method OnlineSession(number: string) returns (r: Option<nat>)
      ensures r == if IsOnline(View(), number) then SessionFor(View(), number) else None
    {
      var c := GetCustomer(reg.customers, number);
      if c.None? || !c.value.online { return None; }
      r := SessionShowing(number);
    }

    method SendToTile(number: string, f: TabFrame)
      modifies this`tabs
      ensures View() == SendTile(old(View()), number, f)
    {
      var sid := SessionShowing(number);
      if sid.Some? { Send(sid.value, f); }
    }

    // ---- the admin feed ----

    /** One frame to each admin page, in any order. */
    method BroadcastFrame(f: FeedFrame)
      modifies this`feeds
      ensures View() == Broadcast(old(View()), f)
    {
      var sent := ToEach(f);
      SentAll(View(), sent, f);
      feeds := sent;
    }

    method ToEach(f: FeedFrame) returns (sent: map<nat, seq<FeedFrame>>)
      ensures Sent(View(), sent, admins, f)
    {
      var todo := admins;
      sent := feeds;
      while todo != {}
        invariant todo <= admins
        invariant Sent(View(), sent, admins - todo, f)
        decreases |todo|
      {
        var sid :| sid in todo;
        var frames := if sid in feeds then feeds[sid] else [];
        SentOne(View(), sent, admins - todo, f, sid);
        sent := sent[sid := if sid in net.sessions && net.sessions[sid].open then frames + [f] else frames];
        assert admins - (todo - {sid}) == (admins - todo) + {sid};
        todo := todo - {sid};
      }
      assert admins - todo == admins;
    }

    /** The frames are built only if somebody listens. */
    method GroupsChanged()
      modifies this`feeds
      ensures View() == L.GroupsChanged(old(View()))
    {
      if admins != {} {
        var rows := GroupRows();
        BroadcastFrame(GroupsUpdate(rows));
      } else {
        assert Broadcast(View(), GroupsFrame(View())).feeds == feeds;
      }
    }

    method NumbersChanged()
      modifies this`feeds
      ensures View() == L.NumbersChanged(old(View()))
    {
      if admins != {} {
        var rows := CustomerRows();
        BroadcastFrame(NumbersUpdate(reg.businesses, rows));
      } else {
        assert Broadcast(View(), NumbersFrame(View())).feeds == feeds;
      }
    }

    method LockChanged()
      modifies this`feeds
      ensures View() == L.LockChanged(old(View()))
    {
      GroupsChanged();
      NumbersChanged();
    }

    method GroupRows() returns (rows: seq<GroupItem>)
      ensures rows == ListGroups(View())
    {
      rows := [];
      for i := 0 to |groups|
        invariant rows == ListGroups(View())[..i]
      {
        var g := groups[i];
        rows := rows + [GroupItem(g, CountIn(reg.customers, g), if g in net.locks then Some(net.locks[g].since) else None)];
      }
    }

    method CustomerRows() returns (rows: seq<CustomerItem>)
      ensures rows == ListCustomers(View())
    {
      rows := [];
      for i := 0 to |reg.customers|
        invariant rows == ListCustomers(View())[..i]
      {
        var c := reg.customers[i];
        var locked := c.group in net.locks;
        rows := rows + [CustomerItem(c.number, c.group, c.online, c.online && locked, locked, c.mode)];
      }
    }

    method LogChanged(wamid: string)
      modifies this`announced, this`log
      ensures View() == LogTo(old(View()), wamid)
    {
      if admins == {} || GetMessage(reg.messages, wamid).None? { return; }
      log := log + [if wamid in announced then LogUpdate(wamid) else LogEntry(wamid)];
      announced := announced + {wamid};
    }

    /** A refused request: an entry of its own. */
    method Rejected(at: int)
      modifies this`log
      ensures View() == RejectTo(old(View()), at)
    {
      if admins != {} { log := log + [RejectedEntry(at)]; }
    }

    // ---- the bus ----

    method Emit(e: BusEvent)
      modifies this`tabs, this`announced, this`log
      ensures View() == L.Emit(old(View()), e)
    {
      match e
      case MessageNew(m) => if m.dir.FromCustomer? { SendToTile(m.customer, NewBubble(BubbleOf(m))); }
      case StatusChanged(wamid, number, status, _) => SendToTile(number, StatusTick(wamid, status));
      case LogChanged(wamid) => LogChanged(wamid);
    }

    method EmitEach(es: seq<BusEvent>)
      modifies this`tabs, this`announced, this`log
      ensures View() == EmitAll(old(View()), es)
    {
      for i := 0 to |es|
        invariant View() == EmitAll(old(View()), es[..i])
      {
        assert es[..i + 1][..i] == es[..i];
        Emit(es[i]);
      }
      assert es[..|es|] == es;
    }

    // ---- delivery ----

    method Delivered(ms: seq<Message>, now: int)
      modifies this`reg, this`tabs, this`announced, this`log
      ensures View() == Happened(old(View()), DeliveredCall(old(reg), ms, now))
    {
      var e := DeliveredCall(reg, ms, now);
      reg := e.reg;
      EmitEach(e.events);
    }

    /** A response is on the wire: show the message if its tile is online, otherwise it stays queued. */
    method Deliver(m: Message, now: int) returns (delivered: bool)
      modifies this`reg, this`tabs, this`announced, this`log
      ensures View() == DeliverNow(old(View()), m, now)
      ensures delivered <==> m.dir.ToCustomer? && IsOnline(old(View()), m.customer)
    {
      if !m.dir.ToCustomer? { return false; }
      var sid := OnlineSession(m.customer);
      if sid.None? { return false; }
      Send(sid.value, NewBubble(BubbleOf(m)));
      Delivered([m], now);
      delivered := true;
    }

    /** The response of an accepted send is on the wire. */
    method ResponseFinished(wamid: string, now: int)
      requires wamid in pending
      modifies this
      ensures View() == L.ResponseFinished(old(View()), wamid, now)
    {
      var m := pending[wamid];
      pending := pending - {wamid};
      if LateCopy(View(), m) {
        ghost var sid := SessionFor(View(), m.customer).value;
        stale := stale[sid := L.Stale(View(), sid) + {m.wamid}];
      }
      var _ := Deliver(m, now);
    }

    method FlushTile(number: string, now: int) returns (flushed: seq<Message>)
      modifies this`reg, this`tabs, this`announced, this`log
      ensures View() == L.FlushTile(old(View()), number, now)
      ensures flushed == if IsOnline(old(View()), number) then QueuedFor(old(reg), number) else []
    {
      var sid := OnlineSession(number);
      if sid.None? { return []; }
      flushed := QueuedFor(reg, number);
      if flushed == [] { return; }
      Send(sid.value, QueueFlush(Bubbles(flushed)));
      Delivered(flushed, now);
    }

    /** After a claim: mark the queue of every online tile. */
    method DeliverQueued(tiles: seq<string>, now: int)
      modifies this`reg, this`tabs, this`announced, this`log
      ensures View() == DeliverTiles(old(View()), tiles, now)
    {
      for i := 0 to |tiles|
        invariant View() == DeliverTiles(old(View()), tiles[..i], now)
      {
        assert tiles[..i + 1][..i] == tiles[..i];
        var sid := OnlineSession(tiles[i]);
        if sid.Some? {
          var ms := QueuedFor(reg, tiles[i]);
          if ms != [] { Delivered(ms, now); }
        }
      }
      assert tiles[..|tiles|] == tiles;
    }

    // ---- claim and release ----

    method Claim(sid: nat, g: string, now: int)
      requires sid in net.sessions
      modifies this
      ensures View() == ClaimGroup(old(View()), sid, g, now)
    {
      if !net.sessions[sid].role.NoRole? || g !in groups || g in net.locks {
        Send(sid, Other);
        return;
      }
      net := Claimed(net, sid, g, now);
      Snapshot(sid, g);
      DeliverQueued(TilesOf(reg.customers, g), now);
      LockChanged();
    }

    method Snapshot(sid: nat, g: string)
      modifies this`tabs, this`hidden, this`stale
      ensures View() == SendSnapshot(old(View()), sid, g)
    {
      ghost var before := View();
      Send(sid, GroupClaimed(SnapshotOf(reg, TilesOf(reg.customers, g))));
      if Open(before, sid) { hidden, stale := hidden[sid := LeftOut(reg, g)], stale[sid := {}]; }
    }

    method Subscribe(sid: nat)
      requires sid in net.sessions
      modifies this
      ensures View() == SubscribeAdmin(old(View()), sid)
    {
      if !net.sessions[sid].role.NoRole? {
        Send(sid, Other);
        return;
      }
      net := Subscribed(net, sid);
      admins := admins + {sid};
      var gs := GroupRows();
      SendPage(sid, GroupsUpdate(gs));
      var cs := CustomerRows();
      SendPage(sid, NumbersUpdate(reg.businesses, cs));
    }

    method SendPage(sid: nat, f: FeedFrame)
      modifies this`feeds
      ensures View() == SendFeed(old(View()), sid, f)
    {
      if sid in net.sessions && net.sessions[sid].open {
        feeds := feeds[sid := (if sid in feeds then feeds[sid] else []) + [f]];
      }
    }

    method Close(sid: nat)
      requires sid in net.sessions
      modifies this`net, this`admins, this`feeds
      ensures View() == CloseSession(old(View()), sid)
    {
      var s := net.sessions[sid];
      net := Closed(net, sid);
      if s.closed { return; }
      match s.role
      case NoRole =>
      case GroupRole(_) => LockChanged();
      case AdminRole => admins := admins - {sid};
    }

    method Disconnect(sid: nat)
      requires sid in net.sessions
      modifies this`net, this`admins, this`feeds
      ensures View() == DisconnectSession(old(View()), sid)
    {
      Close(sid);
      if sid in net.sessions { net := Shut(net, sid, net.sessions[sid].client); }
    }

    // ---- tile switches ----

    method SetPresence(number: string, online: bool, now: int)
      modifies this
      ensures View() == L.SetPresence(old(View()), number, online, now)
    {
      reg := reg.(customers := WithOnline(reg.customers, number, online));
      NumbersChanged();
      var sid := SessionShowing(number);
      if sid.None? { return; }
      Send(sid.value, Other);
      if online { var _ := FlushTile(number, now); }
    }

    method SetAutoReply(number: string, mode: ReplyMode)
      modifies this
      ensures View() == L.SetAutoReply(old(View()), number, mode)
    {
      reg := reg.(customers := WithMode(reg.customers, number, mode));
      NumbersChanged();
      SendToTile(number, Other);
    }

    // ---- reset ----

    method Refresh(holders: seq<(string, nat)>, keep: bool)
      modifies this
      ensures View() == RefreshAll(old(View()), holders, keep)
    {
      for i := 0 to |holders|
        invariant View() == RefreshAll(old(View()), holders[..i], keep)
      {
        assert holders[..i + 1][..i] == holders[..i];
        var (g, sid) := holders[i];
        if sid in net.sessions {
          if keep && g in groups {
            Snapshot(sid, g);
          } else {
            Send(sid, Other);
            Disconnect(sid);
          }
        }
      }
      assert holders[..|holders|] == holders;
    }

    /** The admins forget the log and get fresh lists. */
    method ClearLog()
      modifies this`announced, this`log, this`feeds
      ensures View() == ResetFeed(old(View()))
    {
      announced := {};
      log := log + [LogReset];
      LockChanged();
    }

    method Reset(keep: bool, holders: seq<(string, nat)>)
      modifies this
      ensures View() == WipeAll(old(View()), keep, holders)
    {
      reg := WipedReg(reg, keep);
      if !keep { groups := []; }
      ClearLog();
      Refresh(holders, keep);
    }
  }
}
