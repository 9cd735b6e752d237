/**
 The guards of the live engine, seen from what it stores: nothing is delivered but to a tile that is switched on and
 shown, and a tab acts for the tiles of the group it holds and for no other.
 */
module LiveGuards {
  import opened Prelude
  import opened JobStore
  import opened Registry
  import opened Lifecycle
  import opened Conservation
  import opened StoreGroups
  import opened Sessions
  import opened Live
  import opened LiveNet
  import opened LiveQueue
  import opened MessageFields
  import E = EndToEnd
  import LiveRuns

  // ---- who is shown ----

  /** The customer's own switch is on, and some session holds its group. */
  ghost predicate TileShown(l: Live, number: string) {
    exists c, sid :: c in l.reg.customers && c.number == number && c.online && Holds(l.net, sid, c.group)
  }

  lemma {:induction false} CustomerFound(cs: seq<Customer>, c: Customer)
    requires CustomersOnce(cs) && c in cs
    ensures GetCustomer(cs, c.number) == Some(c)
  {
    var i :| 0 <= i < |cs| && cs[i] == c;
    var x := GetCustomer(cs, c.number).value;
    var j :| 0 <= j < |cs| && cs[j] == x;
  }

  /** What the engine tests is exactly that. */
  lemma OnlineIsShown(l: Live, number: string)
    requires CustomersOnce(l.reg.customers) && Agreement(l.net)
    ensures IsOnline(l, number) <==> TileShown(l, number)
  {
    if IsOnline(l, number) {
      var c := GetCustomer(l.reg.customers, number).value;
      assert Indexed(l.net, l.net.index[c.group], c.group);
      assert Holds(l.net, l.net.index[c.group], c.group);
    }
    if TileShown(l, number) {
      var c, sid :| c in l.reg.customers && c.number == number && c.online && Holds(l.net, sid, c.group);
      CustomerFound(l.reg.customers, c);
      assert Indexed(l.net, sid, c.group);
    }
  }

  // ---- what is marked ----

  /** The message at this place is marked delivered between `reg` and `t`. */
  predicate MarkedAt(reg: Reg, t: Reg, i: nat) {
    i < |reg.messages| && i < |t.messages| && reg.messages[i].deliveredAt.None? && t.messages[i].deliveredAt.Some?
  }

  lemma DeliveredMarks(reg: Reg, msgs: seq<Message>, now: int, i: nat)
    requires RegOk(reg) && Copies(reg, msgs) && MarkedAt(reg, DeliveredCall(reg, msgs, now).reg, i)
    ensures exists x :: x in msgs && x.wamid == reg.messages[i].wamid
  {
    DeliverTimes(reg, msgs, now, i);
  }

  /** Delivering the queue of a customer marks only messages to that customer. */
  lemma QueueMarks(reg: Reg, number: string, now: int, i: nat)
    requires RegOk(reg) && MarkedAt(reg, DeliveredCall(reg, QueuedFor(reg, number), now).reg, i)
    ensures reg.messages[i].customer == number
  {
    QueueDelivered(reg, number, now);
    QueuedForIs(reg, number);
    DeliveredMarks(reg, QueuedFor(reg, number), now, i);
    var x :| x in QueuedFor(reg, number) && x.wamid == reg.messages[i].wamid;
    assert reg.messages[i] in reg.messages;
    SameWamid(reg, x, reg.messages[i]);
  }

  lemma SameDelivered(reg: Reg, t: Reg, i: nat)
    requires SameButTimes(reg, t) && i < |reg.messages|
    ensures i < |t.messages| && t.messages[i].customer == reg.messages[i].customer && t.messages[i].wamid == reg.messages[i].wamid
  {}

  lemma {:induction false} TilesMark(l: Live, tiles: seq<string>, now: int, i: nat)
    requires RegOk(l.reg) && MarkedAt(l.reg, DeliverTiles(l, tiles, now).reg, i)
    ensures IsOnline(l, l.reg.messages[i].customer)
  {
    if tiles != [] {
      var n := |tiles| - 1;
      var l1 := DeliverTiles(l, tiles[..n], now);
      TilesDelivered(l, tiles[..n], now);
      DeliverTilesTalk(l, tiles[..n], now);
      if MarkedAt(l.reg, l1.reg, i) { TilesMark(l, tiles[..n], now, i); } else { LastTileMarks(l, l1, tiles[n], now, i); }
    }
  }

  lemma LastTileMarks(l: Live, l1: Live, number: string, now: int, i: nat)
    requires Aged(l.reg, l1.reg) && l1.reg.customers == l.reg.customers && l1.net == l.net && !MarkedAt(l.reg, l1.reg, i)
    requires MarkedAt(l.reg, DeliverTile(l1, number, now).reg, i)
    ensures IsOnline(l, l.reg.messages[i].customer)
  {
    SameDelivered(l.reg, l1.reg, i);
    TileMarks(l1, number, now, i);
    assert forall k :: IsOnline(l1, k) == IsOnline(l, k);
  }

  lemma TileMarks(l: Live, number: string, now: int, i: nat)
    requires RegOk(l.reg) && MarkedAt(l.reg, DeliverTile(l, number, now).reg, i)
    ensures IsOnline(l, l.reg.messages[i].customer)
  {
    DeliverTileReg(l, number, now);
    QueueMarks(l.reg, number, now, i);
  }

  lemma ClaimMarks(l: Live, sid: nat, g: string, now: int, i: nat)
    requires RegOk(l.reg) && sid in l.net.sessions && MarkedAt(l.reg, ClaimGroup(l, sid, g, now).reg, i)
    ensures IsOnline(ClaimGroup(l, sid, g, now), l.reg.messages[i].customer)
  {
    if CanTake(l, sid, g) {
      LockChangedNet(TakeGroup(l, sid, g, now));
      TakeMarks(l, sid, g, now, i);
    }
  }

  lemma TakeMarks(l: Live, sid: nat, g: string, now: int, i: nat)
    requires RegOk(l.reg) && sid in l.net.sessions && MarkedAt(l.reg, TakeGroup(l, sid, g, now).reg, i)
    ensures IsOnline(TakeGroup(l, sid, g, now), l.reg.messages[i].customer)
  {
    var l0 := l.(net := Claimed(l.net, sid, g, now));
    var l1 := SendSnapshot(l0, sid, g);
    SnapshotTalk(l0, sid, g);
    DeliverTilesTalk(l1, TilesOf(l1.reg.customers, g), now);
    TilesMark(l1, TilesOf(l1.reg.customers, g), now, i);
  }

  lemma FlushMarks(l: Live, number: string, now: int, i: nat)
    requires RegOk(l.reg) && MarkedAt(l.reg, FlushTile(l, number, now).reg, i)
    ensures IsOnline(FlushTile(l, number, now), l.reg.messages[i].customer)
  {
    FlushReg(l, number, now);
    FlushTalk(l, number, now);
    QueueMarks(l.reg, number, now, i);
  }

  lemma PresenceMarks(l: Live, number: string, online: bool, now: int, i: nat)
    requires RegOk(l.reg) && MarkedAt(l.reg, SetPresence(l, number, online, now).reg, i)
    ensures IsOnline(SetPresence(l, number, online, now), l.reg.messages[i].customer)
  {
    var cs := WithOnline(l.reg.customers, number, online);
    var l2 := SendTile(NumbersChanged(l.(reg := l.reg.(customers := cs))), number, Other);
    NumbersOk(l.reg, l.reg.businesses, cs);
    if online { FlushMarks(l2, number, now, i); }
  }

  lemma FinishedReg(l: Live, w: string, now: int)
    requires StoreOk(l) && w in l.pending
    ensures ResponseFinished(l, w, now).reg
         == if IsOnline(l, l.pending[w].customer) then DeliveredCall(l.reg, [l.pending[w]], now).reg else l.reg
  {
    var l0, m := l.(pending := l.pending - {w}), l.pending[w];
    ResponseTalk(l, w, now);
    PushTalk(l0, m.customer, NewBubble(BubbleOf(m)), [m], now);
  }

  lemma FinishedMarks(l: Live, w: string, now: int, i: nat)
    requires StoreOk(l) && w in l.pending && MarkedAt(l.reg, ResponseFinished(l, w, now).reg, i)
    ensures IsOnline(l, l.reg.messages[i].customer)
  {
    FinishedReg(l, w, now);
    PendingCopies(l, w);
    DeliveredMarks(l.reg, [l.pending[w]], now, i);
    assert l.reg.messages[i] in l.reg.messages;
  }

  lemma OneDelivered(reg: Reg, p: Message, now: int, i: nat)
    requires RegOk(reg) && Copies(reg, [p]) && i < |reg.messages| && Waiting(reg.messages[i]) && reg.messages[i].wamid == p.wamid
    ensures MarkedAt(reg, DeliveredCall(reg, [p], now).reg, i)
  {
    DeliverTimes(reg, [p], now, i);
    assert p in [p];
  }

  /** The other frames and requests about messages mark nothing delivered. */
  lemma TalkMarks(l: Live, st: TalkStep, i: nat)
    requires TalkEnabled(l, st) && !st.HttpFinished?
    ensures !MarkedAt(l.reg, TalkApply(l, st).reg, i)
  {
    if i < |l.reg.messages| {
      match st
      case SendFrame(sid, number, to, body, wamid, now) => SendMarksNone(l, sid, number, to, body, wamid, now, i);
      case ReadFrame(sid, number, peer, now) => ReadMarksNone(l, sid, number, peer, now, i);
      case HttpSend(phone, customer, text, wamid, delay, now) => AcceptReg(l, phone, customer, text, wamid, delay, now);
      case HttpRead(phone, wamid, now) =>
        HappenedTalk(l, MarkInboundRead(l.reg, phone, wamid, now));
        E.MarkInboundOnce(l.reg, phone, wamid, now, i);
      case Inject(sender, to, body, wamid, now) => InboundMarksNone(l, sender, to, body, wamid, now, i);
      case AutoReply(customer, to, body, wamid, now) => InboundMarksNone(l, customer, to, body, wamid, now, i);
    }
  }

  lemma AcceptReg(l: Live, phone: string, customer: string, text: string, wamid: string, delay: nat, now: int)
    ensures AcceptSend(l, phone, customer, text, wamid, delay, now).reg == Stored(l.reg, Draft(wamid, ToCustomer, phone, customer, text, now))
  {
    var d := Draft(wamid, ToCustomer, phone, customer, text, now);
    HappenedTalk(l.(pending := l.pending[wamid := MessageOf(l.reg, d)]), Accepted(l.reg, phone, customer, text, wamid, delay, now));
  }

  lemma InboundMarksNone(l: Live, sender: string, to: string, body: string, wamid: string, now: int, i: nat)
    requires i < |l.reg.messages|
    ensures !MarkedAt(l.reg, Happened(l, InboundCall(l.reg, sender, to, body, wamid, now)).reg, i)
  {
    InboundNumbers(l.reg, sender, to, body, wamid, now);
    HappenedTalk(l, InboundCall(l.reg, sender, to, body, wamid, now));
  }

  lemma SendMarksNone(l: Live, sid: nat, number: string, to: string, body: string, wamid: string, now: int, i: nat)
    requires sid in l.net.sessions && i < |l.reg.messages|
    ensures !MarkedAt(l.reg, SendMessage(l, sid, number, to, body, wamid, now).reg, i)
  {
    if GetBusiness(l.reg.businesses, to).Some? {
      InboundMarksNone(l, number, GetBusiness(l.reg.businesses, to).value.phone, body, wamid, now, i);
    }
  }

  lemma ReadMarksNone(l: Live, sid: nat, number: string, peer: string, now: int, i: nat)
    requires sid in l.net.sessions && i < |l.reg.messages|
    ensures !MarkedAt(l.reg, ReadChat(l, sid, number, peer, now).reg, i)
  {
    if GetBusiness(l.reg.businesses, peer).Some? {
      var phone := GetBusiness(l.reg.businesses, peer).value.phone;
      ReadNumbers(l.reg, number, phone, now);
      HappenedTalk(l, ReadCall(l.reg, number, phone, now));
      E.ReadOnce(l.reg, number, phone, now, i);
    }
  }

  lemma SwitchMarks(l: Live, st: SwitchStep, i: nat)
    requires RegOk(l.reg) && SwitchEnabled(l, st) && MarkedAt(l.reg, SwitchApply(l, st).reg, i)
    ensures IsOnline(SwitchApply(l, st), l.reg.messages[i].customer)
  {
    match st
    case PresenceFrame(sid, number, online, now) => PresenceMarks(l, number, online, now, i);
    case ApiPresence(number, online, now) => PresenceMarks(l, number, online, now, i);
    case AutoReplyFrame(sid, number, mode) => ModeMarksNone(l, number, mode, i);
    case ApiAutoReply(number, mode) => ModeMarksNone(l, number, mode, i);
  }

  lemma ModeMarksNone(l: Live, number: string, mode: ReplyMode, i: nat)
    ensures !MarkedAt(l.reg, SetAutoReply(l, number, mode).reg, i)
  {}

  lemma LinkMarks(l: Live, st: LinkStep, i: nat)
    requires RegOk(l.reg) && LinkEnabled(l, st) && MarkedAt(l.reg, LinkApply(l, st).reg, i)
    ensures IsOnline(LinkApply(l, st), l.reg.messages[i].customer)
  {
    match st
    case ClaimFrame(sid, g, now) => ClaimMarks(l, sid, g, now, i);
    case SocketEnds(sid, final) => GoneFrame(l, sid, final);
    case SubscribeFrame(sid) => SubscribeFrames(l, sid);
    case Opened(_) =>
    case Heartbeat =>
    case PongFrame(_) =>
  }

  lemma TableMarks(l: Live, st: TableStep, i: nat)
    requires TableEnabled(l, st)
    ensures !MarkedAt(l.reg, TableApply(l, st).reg, i)
  {
    match st
    case ApiBusinesses(_) =>
    case ApiCreateGroup(_, _) =>
    case ApiDeleteGroup(_) =>
    case ApiReset(keep, holders) => WipeReg(l, keep, holders);
  }

  lemma StepMarks(l: Live, st: LiveStep, i: nat)
    requires StoreOk(l) && LiveEnabled(l, st) && MarkedAt(l.reg, LiveApply(l, st).reg, i)
    ensures IsOnline(LiveApply(l, st), l.reg.messages[i].customer)
  {
    match st
    case Linking(s) => LinkMarks(l, s, i);
    case Talking(s) => TalkingMarks(l, s, i);
    case Switching(s) => SwitchMarks(l, s, i);
    case Arranging(s) => TableMarks(l, s, i);
    case Logging(s) => NoteTalk(l, s);
  }

  lemma TalkingMarks(l: Live, st: TalkStep, i: nat)
    requires StoreOk(l) && TalkEnabled(l, st) && MarkedAt(l.reg, TalkApply(l, st).reg, i)
    ensures IsOnline(TalkApply(l, st), l.reg.messages[i].customer)
  {
    if st.HttpFinished? {
      FinishedMarks(l, st.wamid, st.now, i);
      ResponseTalk(l, st.wamid, st.now);
    } else {
      TalkMarks(l, st, i);
    }
  }

  // ---- main results: delivery ----

  lemma InOrder(l: Live)
    requires LiveRuns.LiveReachable(l)
    ensures RegOk(l.reg) && CustomersOnce(l.reg.customers) && Agreement(l.net)
  {
    LiveRuns.ReachableInv(l);
  }

  /**
   In every run, whatever callback marks a message delivered: when it does, the customer's own switch is on and some
   session holds the customer's group.
   */
  lemma DeliveredIsShown(l: Live, st: LiveStep, i: nat)
    requires LiveRuns.LiveReachable(l) && LiveEnabled(l, st) && MarkedAt(l.reg, LiveApply(l, st).reg, i)
    ensures TileShown(LiveApply(l, st), l.reg.messages[i].customer)
  {
    LiveRuns.ReachableInv(l);
    LiveRuns.StepInv(l, st);
    StepMarks(l, st, i);
    OnlineIsShown(LiveApply(l, st), l.reg.messages[i].customer);
  }

  /** When its response finishes, a message waiting for a tile is delivered exactly if the tile is switched on and shown. */
  lemma FinishedDelivers(l: Live, w: string, now: int, i: nat)
    requires LiveRuns.LiveReachable(l) && w in l.pending && i < |l.reg.messages| && l.reg.messages[i].wamid == w && Waiting(l.reg.messages[i])
    ensures MarkedAt(l.reg, LiveApply(l, Talking(HttpFinished(w, now))).reg, i) <==> TileShown(l, l.reg.messages[i].customer)
  {
    LiveRuns.ReachableInv(l);
    OnlineIsShown(l, l.reg.messages[i].customer);
    FinishedExactly(l, w, now, i);
  }

  lemma FinishedExactly(l: Live, w: string, now: int, i: nat)
    requires StoreOk(l) && w in l.pending && i < |l.reg.messages| && l.reg.messages[i].wamid == w && Waiting(l.reg.messages[i])
    ensures MarkedAt(l.reg, ResponseFinished(l, w, now).reg, i) <==> IsOnline(l, l.reg.messages[i].customer)
  {
    assert l.reg.messages[i] in l.reg.messages;
    FinishedReg(l, w, now);
    PendingCopies(l, w);
    OneDelivered(l.reg, l.pending[w], now, i);
  }

  /** Nothing waits for a tile that is switched on and shown, except what its finishing response will hand over. */
  lemma NoStrandedQueue(l: Live, m: Message)
    requires LiveRuns.LiveReachable(l) && m in l.reg.messages && Waiting(m) && TileShown(l, m.customer)
    ensures m.wamid in l.pending
  {
    LiveRuns.ReachableInv(l);
    OnlineIsShown(l, m.customer);
  }

  /** An auto-reply is stored only for a customer that is switched on and shown; otherwise nothing changes. */
  lemma AutoReplyIsShown(l: Live, customer: string, to: string, body: string, wamid: string, now: int)
    requires LiveRuns.LiveReachable(l) && LiveEnabled(l, Talking(AutoReply(customer, to, body, wamid, now)))
    ensures var t := LiveApply(l, Talking(AutoReply(customer, to, body, wamid, now)));
            if TileShown(l, customer) then TakenIn(l.reg, t.reg, customer, to, body, wamid, now) else t.reg == l.reg
  {
    InOrder(l);
    OnlineIsShown(l, customer);
    AutoReplyReg(l, customer, to, body, wamid, now);
    InboundGrows(l, customer, to, body, wamid, now);
  }

  lemma AutoReplyReg(l: Live, customer: string, to: string, body: string, wamid: string, now: int)
    ensures LiveApply(l, Talking(AutoReply(customer, to, body, wamid, now))).reg
         == if IsOnline(l, customer) then Happened(l, InboundCall(l.reg, customer, to, body, wamid, now)).reg else l.reg
  {}

  /** What an inbound message does to the store. */
  lemma InboundGrows(l: Live, sender: string, to: string, body: string, wamid: string, now: int)
    ensures var t := Happened(l, InboundCall(l.reg, sender, to, body, wamid, now));
            TakenIn(l.reg, t.reg, sender, to, body, wamid, now)
  {
    InboundNumbers(l.reg, sender, to, body, wamid, now);
    HappenedTalk(l, InboundCall(l.reg, sender, to, body, wamid, now));
    InboundStores(l.reg, sender, to, body, wamid, now);
  }

  /** Nothing waits for this customer. */
  ghost predicate NoneWaits(reg: Reg, number: string) {
    forall m | m in reg.messages && m.customer == number :: !Waiting(m)
  }

  lemma FreeIsUnlocked(n: Net, g: string)
    requires Agreement(n)
    ensures g !in n.locks <==> forall tid: nat :: !Holds(n, tid, g)
  {
    LockedIsIndexed(n);
    forall tid: nat | Holds(n, tid, g) ensures g in n.locks { assert Owns(n, tid, g); }
  }

  lemma TakenClears(l: Live, sid: nat, g: string, now: int, c: Customer)
    requires RegOk(l.reg) && CustomersOnce(l.reg.customers) && sid in l.net.sessions && CanTake(l, sid, g)
    requires c in l.reg.customers && c.group == g && c.online
    ensures NoneWaits(TakeGroup(l, sid, g, now).reg, c.number)
  {
    var l0 := l.(net := Claimed(l.net, sid, g, now));
    var l1 := SendSnapshot(l0, sid, g);
    SnapshotTalk(l0, sid, g);
    TilesDelivered(l1, TilesOf(l1.reg.customers, g), now);
    TilesOfIs(l1.reg.customers, g);
    CustomerFound(l.reg.customers, c);
    assert IsOnline(l1, c.number);
  }

  /** A claim is granted exactly by a session without a role, for a group that exists and that nobody holds. */
  ghost predicate Grants(l: Live, sid: nat, g: string) {
    sid in l.net.sessions && l.net.sessions[sid].role.NoRole? && g in l.groups && forall tid: nat :: !Holds(l.net, tid, g)
  }

  /**
   A granted claim: the session holds the group, and nothing waits any more for its tiles that are switched on. A
   refused one changes neither the store nor who holds what.
   */
  lemma ClaimDelivers(l: Live, sid: nat, g: string, now: int)
    requires LiveRuns.LiveReachable(l) && LiveEnabled(l, Linking(ClaimFrame(sid, g, now)))
    ensures var t := LiveApply(l, Linking(ClaimFrame(sid, g, now)));
            if Grants(l, sid, g) then Holds(t.net, sid, g) && forall c | c in l.reg.customers && c.group == g && c.online :: NoneWaits(t.reg, c.number)
            else t.reg == l.reg && t.net == l.net
  {
    InOrder(l);
    FreeIsUnlocked(l.net, g);
    ClaimTakes(l, sid, g, now);
    if CanTake(l, sid, g) {
      forall c | c in l.reg.customers && c.group == g && c.online ensures NoneWaits(TakeGroup(l, sid, g, now).reg, c.number) {
        TakenClears(l, sid, g, now, c);
      }
    }
  }

  lemma ClaimTakes(l: Live, sid: nat, g: string, now: int)
    requires sid in l.net.sessions && !l.net.sessions[sid].closed
    ensures var t := ClaimGroup(l, sid, g, now);
            if CanTake(l, sid, g) then Holds(t.net, sid, g) && t.reg == TakeGroup(l, sid, g, now).reg else t.reg == l.reg && t.net == l.net
  {
    if CanTake(l, sid, g) {
      ClaimIsNet(l, sid, g, now);
      LockChangedNet(TakeGroup(l, sid, g, now));
    }
  }

  lemma SwitchedOnDelivers(l: Live, number: string, now: int)
    requires RegOk(l.reg) && IsOnline(SetPresence(l, number, true, now), number)
    ensures NoneWaits(SetPresence(l, number, true, now).reg, number)
  {
    var cs := WithOnline(l.reg.customers, number, true);
    var l2 := SendTile(NumbersChanged(l.(reg := l.reg.(customers := cs))), number, Other);
    NumbersOk(l.reg, l.reg.businesses, cs);
    FlushReg(l2, number, now);
    FlushTalk(l2, number, now);
    QueueDelivered(l2.reg, number, now);
  }

  /** Switching a customer on whose group is held delivers everything that waited for it. */
  lemma SwitchOnDelivers(l: Live, number: string, now: int)
    requires LiveRuns.LiveReachable(l) && LiveEnabled(l, Switching(ApiPresence(number, true, now)))
    requires TileShown(LiveApply(l, Switching(ApiPresence(number, true, now))), number)
    ensures NoneWaits(LiveApply(l, Switching(ApiPresence(number, true, now))).reg, number)
  {
    LiveRuns.ReachableInv(l);
    LiveRuns.StepInv(l, Switching(ApiPresence(number, true, now)));
    OnlineIsShown(LiveApply(l, Switching(ApiPresence(number, true, now))), number);
    if GetCustomer(l.reg.customers, number).Some? { SwitchedOnDelivers(l, number, now); }
  }

  // ---- who acts for whom ----

  /** The session holds the group of this customer. */
  ghost predicate OwnsNumber(l: Live, sid: nat, number: string) {
    exists c :: c in l.reg.customers && c.number == number && Holds(l.net, sid, c.group)
  }

  /** The customer of this number, switched on, in a group the session holds. */
  ghost predicate OwnsOnline(l: Live, sid: nat, number: string) {
    exists c :: c in l.reg.customers && c.number == number && c.online && Holds(l.net, sid, c.group)
  }

  lemma OwnTileIs(l: Live, sid: nat, number: string)
    requires CustomersOnce(l.reg.customers) && Listening(l, sid)
    ensures OwnTile(l, sid, number) <==> OwnsNumber(l, sid, number)
    ensures OwnTile(l, sid, number) && TileOnline(l, number) <==> OwnsOnline(l, sid, number)
  {
    if OwnTile(l, sid, number) {
      assert Holds(l.net, sid, GetCustomer(l.reg.customers, number).value.group);
    }
    forall c | c in l.reg.customers && c.number == number ensures GetCustomer(l.reg.customers, number) == Some(c) { CustomerFound(l.reg.customers, c); }
  }

  /** Where a message from a tile goes: the business is looked up by what the tile says, then by its id. */
  ghost predicate GrewTo(reg: Reg, t: Reg, to: string, number: string, body: string, wamid: string, now: int) {
    exists a, b :: FoundUnder(reg.businesses, to, a) && FoundUnder(reg.businesses, a.phone, b)
                   && Grew(reg, t, Draft(wamid, FromCustomer, b.phone, number, body, now))
  }

  lemma SentReg(l: Live, sid: nat, number: string, to: string, body: string, wamid: string, now: int)
    requires sid in l.net.sessions
    ensures var t := SendMessage(l, sid, number, to, body, wamid, now);
            if !OwnTile(l, sid, number) || !TileOnline(l, number) || Unfit(l.reg, number, to, body) then t.reg == l.reg
            else GrewTo(l.reg, t.reg, to, number, body, wamid, now)
  {
    if GetBusiness(l.reg.businesses, to).Some? { SentGrows(l, number, to, body, wamid, now); }
  }

  lemma SentGrows(l: Live, number: string, to: string, body: string, wamid: string, now: int)
    requires GetBusiness(l.reg.businesses, to).Some?
    ensures var e := InboundCall(l.reg, number, GetBusiness(l.reg.businesses, to).value.phone, body, wamid, now);
            && (e.error.Some? <==> Unfit(l.reg, number, to, body))
            && (e.error.None? ==> GrewTo(l.reg, Happened(l, e).reg, to, number, body, wamid, now))
  {
    var a := GetBusiness(l.reg.businesses, to).value;
    BusinessFound(l.reg.businesses, to, a);
    assert Under(a, a.phone);
    InboundGrows(l, number, a.phone, body, wamid, now);
    UnfitIsError(l.reg, number, a.phone, body, wamid, now);
  }

  lemma UnfitIsError(reg: Reg, sender: string, to: string, body: string, wamid: string, now: int)
    ensures InboundCall(reg, sender, to, body, wamid, now).error.Some? <==> Unfit(reg, sender, to, body)
  {}

  /**
   A message frame stores exactly one message, in the name of the customer it gives, if the session holds the
   customer's group, the customer is switched on, the business is known and the body fits; otherwise it stores nothing.
   */
  lemma TabSendsForOwn(l: Live, sid: nat, number: string, to: string, body: string, wamid: string, now: int)
    requires LiveRuns.LiveReachable(l) && LiveEnabled(l, Talking(SendFrame(sid, number, to, body, wamid, now)))
    ensures var t := LiveApply(l, Talking(SendFrame(sid, number, to, body, wamid, now)));
            if !OwnsOnline(l, sid, number) || Unfit(l.reg, number, to, body) then t.reg == l.reg
            else GrewTo(l.reg, t.reg, to, number, body, wamid, now)
  {
    InOrder(l);
    OwnTileIs(l, sid, number);
    SentReg(l, sid, number, to, body, wamid, now);
  }

  /** Exactly the delivered, unread messages of this chat are marked read now. */
  ghost predicate ChatRead(reg: Reg, t: Reg, number: string, phone: string, now: int) {
    && t == reg.(messages := t.messages) && |t.messages| == |reg.messages|
    && forall i | 0 <= i < |reg.messages| ::
         t.messages[i] == if Unread(reg.messages[i], number, phone) then reg.messages[i].(readAt := Some(now)) else reg.messages[i]
  }

  ghost predicate ChatReadOf(reg: Reg, t: Reg, peer: string, number: string, now: int) {
    exists a, b :: FoundUnder(reg.businesses, peer, a) && FoundUnder(reg.businesses, a.phone, b) && ChatRead(reg, t, number, b.phone, now)
  }

  lemma ReadCallReads(reg: Reg, number: string, phone: string, b: Business, now: int)
    requires RegOk(reg) && GetBusiness(reg.businesses, phone) == Some(b)
    ensures ChatRead(reg, ReadCall(reg, number, phone, now).reg, number, b.phone, now)
  {
    UnreadDeliveredIs(reg, number, b.phone);
    var todo, t := UnreadDelivered(reg, number, b.phone), ReadCall(reg, number, phone, now).reg;
    forall i | 0 <= i < |reg.messages|
      ensures t.messages[i] == if Unread(reg.messages[i], number, b.phone) then reg.messages[i].(readAt := Some(now)) else reg.messages[i]
    {
      assert reg.messages[i] in reg.messages;
      InTodo(reg, todo, reg.messages[i]);
      assert reg.messages[i] in todo <==> Unread(reg.messages[i], number, b.phone);
    }
  }

  lemma ReadReg(l: Live, sid: nat, number: string, peer: string, now: int)
    requires RegOk(l.reg) && sid in l.net.sessions
    ensures var t := ReadChat(l, sid, number, peer, now);
            if !OwnTile(l, sid, number) || !TileOnline(l, number) || (forall b | b in l.reg.businesses :: !Under(b, peer)) then t.reg == l.reg
            else ChatReadOf(l.reg, t.reg, peer, number, now)
  {
    if GetBusiness(l.reg.businesses, peer).Some? {
      var a := GetBusiness(l.reg.businesses, peer).value;
      var b := GetBusiness(l.reg.businesses, a.phone).value;
      BusinessFound(l.reg.businesses, peer, a);
      BusinessFound(l.reg.businesses, a.phone, b);
      ReadNumbers(l.reg, number, a.phone, now);
      HappenedTalk(l, ReadCall(l.reg, number, a.phone, now));
      ReadCallReads(l.reg, number, a.phone, b, now);
    }
  }

  /** Opening a chat marks exactly its delivered, unread messages, and only for a switched-on customer of the own group. */
  lemma TabReadsOwn(l: Live, sid: nat, number: string, peer: string, now: int)
    requires LiveRuns.LiveReachable(l) && LiveEnabled(l, Talking(ReadFrame(sid, number, peer, now)))
    ensures var t := LiveApply(l, Talking(ReadFrame(sid, number, peer, now)));
            if !OwnsOnline(l, sid, number) || (forall b | b in l.reg.businesses :: !Under(b, peer)) then t.reg == l.reg
            else ChatReadOf(l.reg, t.reg, peer, number, now)
  {
    InOrder(l);
    OwnTileIs(l, sid, number);
    ReadReg(l, sid, number, peer, now);
  }

  /** Only the switch of this one customer changes, and only messages to it get a delivered time. */
  ghost predicate Switched(reg: Reg, t: Reg, number: string, online: bool) {
    && t == reg.(customers := t.customers, messages := t.messages)
    && |t.customers| == |reg.customers| && |t.messages| == |reg.messages|
    && (forall i | 0 <= i < |reg.customers| ::
          t.customers[i] == if reg.customers[i].number == number then reg.customers[i].(online := online) else reg.customers[i])
    && (forall i | 0 <= i < |reg.messages| && t.messages[i] != reg.messages[i] :: online && MarkedAt(reg, t, i) && reg.messages[i].customer == number)
  }

  predicate QueueChanged(reg: Reg, t: Reg, number: string, i: nat) {
    |t.messages| == |reg.messages| && (i < |reg.messages| && t.messages[i] != reg.messages[i] ==> MarkedAt(reg, t, i) && reg.messages[i].customer == number)
  }

  lemma QueueChanges(reg: Reg, number: string, now: int, i: nat)
    requires RegOk(reg) && i < |reg.messages|
    ensures QueueChanged(reg, DeliveredCall(reg, QueuedFor(reg, number), now).reg, number, i)
  {
    QueueDelivered(reg, number, now);
    DeliverTimes(reg, QueuedFor(reg, number), now, i);
    var t := DeliveredCall(reg, QueuedFor(reg, number), now).reg;
    if t.messages[i] != reg.messages[i] { QueueMarks(reg, number, now, i); }
  }

  lemma SwitchedReg(reg: Reg, number: string, online: bool, now: int)
    requires RegOk(reg)
    ensures var mid := reg.(customers := WithOnline(reg.customers, number, online));
            && RegOk(mid) && Switched(reg, mid, number, online)
            && (online ==> Switched(reg, DeliveredCall(mid, QueuedFor(mid, number), now).reg, number, online))
  {
    var mid := reg.(customers := WithOnline(reg.customers, number, online));
    NumbersOk(reg, reg.businesses, mid.customers);
    DeliveredNumbers(mid, QueuedFor(mid, number), now);
    QueueDelivered(mid, number, now);
    forall i | 0 <= i < |reg.messages| ensures QueueChanged(mid, DeliveredCall(mid, QueuedFor(mid, number), now).reg, number, i) {
      QueueChanges(mid, number, now, i);
    }
    SwitchedBy(reg, mid, DeliveredCall(mid, QueuedFor(mid, number), now).reg, number, online);
  }

  lemma SwitchedBy(reg: Reg, mid: Reg, t: Reg, number: string, online: bool)
    requires mid == reg.(customers := WithOnline(reg.customers, number, online)) && t == mid.(messages := t.messages)
    requires |t.messages| == |reg.messages| && forall i | 0 <= i < |reg.messages| :: QueueChanged(mid, t, number, i)
    ensures online ==> Switched(reg, t, number, online)
  {
    forall i | 0 <= i < |reg.messages| && t.messages[i] != reg.messages[i] ensures MarkedAt(reg, t, i) && reg.messages[i].customer == number {
      assert QueueChanged(mid, t, number, i);
    }
  }

  lemma PresenceReg(l: Live, number: string, online: bool, now: int)
    ensures var mid := l.reg.(customers := WithOnline(l.reg.customers, number, online));
            var t := SetPresence(l, number, online, now).reg;
            t == mid || (online && t == DeliveredCall(mid, QueuedFor(mid, number), now).reg)
  {
    var l2 := SendTile(NumbersChanged(l.(reg := l.reg.(customers := WithOnline(l.reg.customers, number, online)))), number, Other);
    FlushReg(l2, number, now);
  }

  lemma PresenceSwitches(l: Live, number: string, online: bool, now: int)
    requires RegOk(l.reg)
    ensures Switched(l.reg, SetPresence(l, number, online, now).reg, number, online)
  {
    PresenceReg(l, number, online, now);
    SwitchedReg(l.reg, number, online, now);
  }

  /** A presence frame moves the switch of a customer of the own group, and of no other. */
  lemma TabSwitchesOwn(l: Live, sid: nat, number: string, online: bool, now: int)
    requires LiveRuns.LiveReachable(l) && LiveEnabled(l, Switching(PresenceFrame(sid, number, online, now)))
    ensures var t := LiveApply(l, Switching(PresenceFrame(sid, number, online, now)));
            if OwnsNumber(l, sid, number) then Switched(l.reg, t.reg, number, online) else t.reg == l.reg
  {
    InOrder(l);
    OwnTileIs(l, sid, number);
    PresenceSwitches(l, number, online, now);
  }

  /** Only the reply mode of this one customer changes. */
  ghost predicate Moded(reg: Reg, t: Reg, number: string, mode: ReplyMode) {
    && t == reg.(customers := t.customers) && |t.customers| == |reg.customers|
    && forall i | 0 <= i < |reg.customers| ::
         t.customers[i] == if reg.customers[i].number == number then reg.customers[i].(mode := mode) else reg.customers[i]
  }

  lemma ModeModes(l: Live, number: string, mode: ReplyMode)
    ensures Moded(l.reg, SetAutoReply(l, number, mode).reg, number, mode)
  {}

  /** An auto-reply frame sets the mode of a customer of the own group, and of no other. */
  lemma TabModesOwn(l: Live, sid: nat, number: string, mode: ReplyMode)
    requires LiveRuns.LiveReachable(l) && LiveEnabled(l, Switching(AutoReplyFrame(sid, number, mode)))
    ensures var t := LiveApply(l, Switching(AutoReplyFrame(sid, number, mode)));
            if OwnsNumber(l, sid, number) then Moded(l.reg, t.reg, number, mode) else t.reg == l.reg
  {
    InOrder(l);
    OwnTileIs(l, sid, number);
    ModeModes(l, number, mode);
  }
}
