/** Who may send what, and what each callback of the live engine leaves alone: sessions, locks and the index. */
module LiveNet {
  import opened Prelude
  import opened Registry
  import opened Lifecycle
  import opened StoreGroups
  import opened Sessions
  import opened Live

  // ---- when a step can happen ----

  /** Every conversation's business is still registered: the condition under which no lifecycle call throws half way. */
  ghost predicate AllRegistered(reg: Reg, bs: seq<Business>) {
    forall m | m in reg.messages :: GetBusiness(bs, m.phone).Some?
  }

  /** A random id that was never used before. */
  ghost predicate Unseen(l: Live, wamid: string) {
    && Fresh(l.reg, wamid) && wamid !in l.pending
    && forall sid: nat :: wamid !in View(Tab(l, sid)) && wamid !in Hidden(l, sid) && wamid !in Stale(l, sid)
  }

  /** `holders` lists the session index. */
  ghost predicate Enumerates(l: Live, holders: seq<(string, nat)>) {
    && (forall i | 0 <= i < |holders| :: Indexed(l.net, holders[i].1, holders[i].0))
    && (forall g | g in l.net.index :: (g, l.net.index[g]) in holders)
  }

  predicate Listening(l: Live, sid: nat) { sid in l.net.sessions && !l.net.sessions[sid].closed }

  /** Sessions are told apart; frames stop when a session closes. */
  ghost predicate LinkEnabled(l: Live, st: LinkStep) {
    match st
    case Opened(sid) => sid !in l.net.sessions
    case ClaimFrame(sid, _, _) => Listening(l, sid)
    case SubscribeFrame(sid) => Listening(l, sid)
    case SocketEnds(sid, _) => sid in l.net.sessions
    case Heartbeat => true
    case PongFrame(sid) => sid in l.net.sessions
  }

  /** Ids are new. Only validated sends are accepted. */
  ghost predicate TalkEnabled(l: Live, st: TalkStep) {
    match st
    case SendFrame(sid, _, _, _, wamid, _) => Listening(l, sid) && Unseen(l, wamid)
    case ReadFrame(sid, _, _, _) => Listening(l, sid)
    case HttpSend(phone, _, _, wamid, _, _) => Unseen(l, wamid) && Registered(l.reg, phone)
    case HttpFinished(wamid, _) => wamid in l.pending
    case HttpRead(_, _, _) => true
    case Inject(_, _, _, wamid, _) => Unseen(l, wamid)
    case AutoReply(_, _, _, wamid, _) => Unseen(l, wamid)
  }

  ghost predicate SwitchEnabled(l: Live, st: SwitchStep) {
    match st
    case PresenceFrame(sid, _, _, _) => Listening(l, sid)
    case AutoReplyFrame(sid, _, _) => Listening(l, sid)
    case ApiPresence(_, _, _) => true
    case ApiAutoReply(_, _) => true
  }

  /** Businesses with conversations are kept; a group is created once, from numbers that are not customers yet. */
  ghost predicate TableEnabled(l: Live, st: TableStep) {
    match st
    case ApiBusinesses(bs) => AllRegistered(l.reg, bs)
    case ApiCreateGroup(g, numbers) => g !in l.groups && Distinct(numbers) && forall n | n in numbers :: GetCustomer(l.reg.customers, n).None?
    case ApiDeleteGroup(_) => true
    case ApiReset(_, holders) => Enumerates(l, holders)
  }

  ghost predicate LiveEnabled(l: Live, st: LiveStep) {
    match st
    case Linking(s) => LinkEnabled(l, s)
    case Talking(s) => TalkEnabled(l, s)
    case Switching(s) => SwitchEnabled(l, s)
    case Arranging(s) => TableEnabled(l, s)
    case Logging(_) => true
  }

  // ---- frames ----

  /** Only messages, bubbles and the log changed: nothing the admin lists show, no session, no lock. */
  ghost predicate Talk(l: Live, t: Live) {
    && t == l.(reg := t.reg, pending := t.pending, tabs := t.tabs, hidden := t.hidden, stale := t.stale, announced := t.announced, log := t.log)
    && SameNumbers(l.reg, t.reg)
  }

  /** No snapshot was sent and no late copy put anything back. */
  ghost predicate SameMarks(l: Live, t: Live) { t.hidden == l.hidden && t.stale == l.stale }

  lemma {:induction false} EmitAllTalk(l: Live, es: seq<BusEvent>)
    ensures Talk(l, EmitAll(l, es)) && SameMarks(l, EmitAll(l, es)) && EmitAll(l, es).reg == l.reg && EmitAll(l, es).pending == l.pending
  {
    if es != [] {
      EmitAllTalk(l, es[..|es| - 1]);
      EmitTalk(EmitAll(l, es[..|es| - 1]), es[|es| - 1]);
    }
  }

  lemma EmitTalk(l: Live, e: BusEvent)
    ensures var t := Emit(l, e); t == l.(tabs := t.tabs, announced := t.announced, log := t.log)
  {}

  lemma HappenedTalk(l: Live, e: Effect)
    requires SameNumbers(l.reg, e.reg)
    ensures Talk(l, Happened(l, e)) && SameMarks(l, Happened(l, e)) && Happened(l, e).reg == e.reg && Happened(l, e).pending == l.pending
  {
    EmitAllTalk(l.(reg := e.reg), e.events);
  }

  ghost predicate SameNumbers(reg: Reg, t: Reg) { t.businesses == reg.businesses && t.customers == reg.customers }

  lemma DeliveredNumbers(reg: Reg, msgs: seq<Message>, now: int)
    ensures SameNumbers(reg, DeliveredCall(reg, msgs, now).reg)
  {}

  lemma ReadNumbers(reg: Reg, customer: string, peer: string, now: int)
    ensures SameNumbers(reg, ReadCall(reg, customer, peer, now).reg)
  {}

  lemma InboundNumbers(reg: Reg, sender: string, to: string, body: string, wamid: string, now: int)
    ensures SameNumbers(reg, InboundCall(reg, sender, to, body, wamid, now).reg)
  {}

  lemma DeliverTileTalk(l: Live, number: string, now: int)
    ensures Talk(l, DeliverTile(l, number, now)) && SameMarks(l, DeliverTile(l, number, now)) && DeliverTile(l, number, now).pending == l.pending
  {
    DeliveredNumbers(l.reg, QueuedFor(l.reg, number), now);
    HappenedTalk(l, DeliveredCall(l.reg, QueuedFor(l.reg, number), now));
  }

  lemma {:induction false} DeliverTilesTalk(l: Live, tiles: seq<string>, now: int)
    ensures Talk(l, DeliverTiles(l, tiles, now)) && SameMarks(l, DeliverTiles(l, tiles, now)) && DeliverTiles(l, tiles, now).pending == l.pending
  {
    if tiles != [] {
      DeliverTilesTalk(l, tiles[..|tiles| - 1], now);
      DeliverTileTalk(DeliverTiles(l, tiles[..|tiles| - 1], now), tiles[|tiles| - 1], now);
    }
  }

  lemma PushTalk(l: Live, number: string, f: TabFrame, ms: seq<Message>, now: int)
    ensures var t := PushAndMark(l, number, f, ms, now);
            Talk(l, t) && SameMarks(l, t) && t.pending == l.pending && t.reg == DeliveredCall(l.reg, ms, now).reg
  {
    DeliveredNumbers(l.reg, ms, now);
    HappenedTalk(SendTile(l, number, f), DeliveredCall(l.reg, ms, now));
  }

  lemma FlushTalk(l: Live, number: string, now: int)
    ensures Talk(l, FlushTile(l, number, now)) && SameMarks(l, FlushTile(l, number, now)) && FlushTile(l, number, now).pending == l.pending
  {
    PushTalk(l, number, QueueFlush(Bubbles(QueuedFor(l.reg, number))), QueuedFor(l.reg, number), now);
  }

  lemma DeliverNowTalk(l: Live, m: Message, now: int)
    ensures Talk(l, DeliverNow(l, m, now)) && SameMarks(l, DeliverNow(l, m, now)) && DeliverNow(l, m, now).pending == l.pending
  {
    PushTalk(l, m.customer, NewBubble(BubbleOf(m)), [m], now);
  }

  lemma SendTalk(l: Live, sid: nat, number: string, to: string, body: string, wamid: string, now: int)
    requires sid in l.net.sessions
    ensures Talk(l, SendMessage(l, sid, number, to, body, wamid, now)) && SameMarks(l, SendMessage(l, sid, number, to, body, wamid, now))
  {
    if GetBusiness(l.reg.businesses, to).Some? {
      var phone := GetBusiness(l.reg.businesses, to).value.phone;
      InboundNumbers(l.reg, number, phone, body, wamid, now);
      HappenedTalk(l, InboundCall(l.reg, number, phone, body, wamid, now));
    }
  }

  lemma NoiseTalk(l: Live, sid: nat)
    ensures Talk(l, SendTab(l, sid, Other)) && Talk(l, l) && SameMarks(l, SendTab(l, sid, Other))
  {}

  lemma ReadTalk(l: Live, sid: nat, number: string, peer: string, now: int)
    requires sid in l.net.sessions
    ensures Talk(l, ReadChat(l, sid, number, peer, now)) && SameMarks(l, ReadChat(l, sid, number, peer, now))
  {
    NoiseTalk(l, sid);
    if GetBusiness(l.reg.businesses, peer).Some? { ReadCallTalk(l, number, GetBusiness(l.reg.businesses, peer).value.phone, now); }
  }

  lemma ReadCallTalk(l: Live, number: string, peer: string, now: int)
    ensures Talk(l, Happened(l, ReadCall(l.reg, number, peer, now))) && SameMarks(l, Happened(l, ReadCall(l.reg, number, peer, now)))
  {
    ReadNumbers(l.reg, number, peer, now);
    HappenedTalk(l, ReadCall(l.reg, number, peer, now));
  }

  lemma AcceptTalk(l: Live, phone: string, customer: string, text: string, wamid: string, delay: nat, now: int)
    ensures Talk(l, AcceptSend(l, phone, customer, text, wamid, delay, now)) && SameMarks(l, AcceptSend(l, phone, customer, text, wamid, delay, now))
  {
    var m := MessageOf(l.reg, Draft(wamid, ToCustomer, phone, customer, text, now));
    HappenedTalk(l.(pending := l.pending[wamid := m]), Accepted(l.reg, phone, customer, text, wamid, delay, now));
  }

  lemma ResponseTalk(l: Live, wamid: string, now: int)
    requires wamid in l.pending
    ensures var t, m, l0 := ResponseFinished(l, wamid, now), l.pending[wamid], l.(pending := l.pending - {wamid});
            Talk(l, t) && t.hidden == l.hidden && t.stale == NoteLate(l0, m).stale
            && t.pending == l0.pending && t.reg == DeliverNow(l0, m, now).reg
  {
    var l0, m := l.(pending := l.pending - {wamid}), l.pending[wamid];
    DeliverNowTalk(NoteLate(l0, m), m, now);
    NotedDelivers(l0, m, now);
  }

  /** The record changes nothing that is sent or stored. */
  lemma NotedDelivers(l: Live, m: Message, now: int)
    ensures DeliverNow(NoteLate(l, m), m, now).reg == DeliverNow(l, m, now).reg
  {
    var l1 := NoteLate(l, m);
    PushTalk(l, m.customer, NewBubble(BubbleOf(m)), [m], now);
    PushTalk(l1, m.customer, NewBubble(BubbleOf(m)), [m], now);
    assert IsOnline(l1, m.customer) == IsOnline(l, m.customer);
  }

  /** Log entries change nothing else. */
  lemma NoteTalk(l: Live, st: NoteStep)
    ensures Talk(l, NoteApply(l, st)) && SameMarks(l, NoteApply(l, st))
    ensures var t := NoteApply(l, st); t == l.(announced := t.announced, log := t.log)
  {}

  lemma TalkingTalk(l: Live, st: TalkStep)
    requires TalkEnabled(l, st)
    ensures Talk(l, TalkApply(l, st)) && (!st.HttpFinished? ==> SameMarks(l, TalkApply(l, st)))
  {
    match st
    case SendFrame(sid, number, to, body, wamid, now) => SendTalk(l, sid, number, to, body, wamid, now);
    case ReadFrame(sid, number, peer, now) => ReadTalk(l, sid, number, peer, now);
    case HttpSend(phone, customer, text, wamid, delay, now) => AcceptTalk(l, phone, customer, text, wamid, delay, now);
    case HttpFinished(wamid, now) => ResponseTalk(l, wamid, now);
    case HttpRead(phone, wamid, now) => HappenedTalk(l, MarkInboundRead(l.reg, phone, wamid, now));
    case Inject(sender, to, body, wamid, now) =>
      InboundNumbers(l.reg, sender, to, body, wamid, now);
      HappenedTalk(l, InboundCall(l.reg, sender, to, body, wamid, now));
    case AutoReply(customer, to, body, wamid, now) =>
      InboundNumbers(l.reg, customer, to, body, wamid, now);
      HappenedTalk(l, InboundCall(l.reg, customer, to, body, wamid, now));
  }

  // ---- who holds what ----

  /** Lock, index and roles agree; only known groups are claimed; the admin pages are the open admin sessions. */
  ghost predicate NetOk(l: Live) {
    && Agreement(l.net)
    && (forall g | g in l.net.locks :: g in l.groups)
    && AdminsOk(l.net, l.admins)
  }

  ghost predicate SameNet(l: Live, t: Live) {
    t.net == l.net && t.groups == l.groups && t.admins == l.admins
  }

  lemma SameNetOk(l: Live, t: Live)
    requires NetOk(l) && SameNet(l, t)
    ensures NetOk(t)
  {}

  lemma LockChangedNet(l: Live)
    ensures SameNet(l, LockChanged(l)) && LockChanged(l) == l.(feeds := LockChanged(l).feeds)
  {}

  lemma CloseNet(l: Live, sid: nat)
    requires sid in l.net.sessions
    ensures CloseSession(l, sid).net == Closed(l.net, sid) && CloseSession(l, sid).groups == l.groups
    ensures CloseSession(l, sid) == l.(net := Closed(l.net, sid), admins := CloseSession(l, sid).admins, feeds := CloseSession(l, sid).feeds)
    ensures CloseSession(l, sid).admins == if l.net.sessions[sid].role.AdminRole? && !l.net.sessions[sid].closed then l.admins - {sid} else l.admins
  {
    var l1 := l.(net := Closed(l.net, sid));
    LockChangedNet(l1);
    if !l.net.sessions[sid].closed && l.net.sessions[sid].role.GroupRole? { assert CloseSession(l, sid) == LockChanged(l1); }
  }

  lemma GoneIs(l: Live, sid: nat, final: bool)
    requires sid in l.net.sessions
    ensures var t := GoneSession(l, sid, final);
            && t == l.(net := SocketGone(l.net, sid, final), admins := t.admins, feeds := t.feeds)
            && t.admins == if l.net.sessions[sid].role.AdminRole? && !l.net.sessions[sid].closed then l.admins - {sid} else l.admins
  {
    CloseOver(l, Shut(l.net, sid, l.net.sessions[sid].client && !final), sid);
  }

  lemma CloseOver(l: Live, n: Net, sid: nat)
    requires sid in n.sessions
    ensures var t := CloseSession(l.(net := n), sid);
            && t == l.(net := Closed(n, sid), admins := t.admins, feeds := t.feeds)
            && t.admins == if n.sessions[sid].role.AdminRole? && !n.sessions[sid].closed then l.admins - {sid} else l.admins
  {
    CloseNet(l.(net := n), sid);
  }

  lemma DisconnectNet(l: Live, sid: nat)
    requires sid in l.net.sessions
    ensures var t := DisconnectSession(l, sid);
            t.net == Disconnected(l.net, sid) && t == l.(net := t.net, admins := t.admins, feeds := t.feeds)
            && t.admins == CloseSession(l, sid).admins
  {
    CloseNet(l, sid);
  }

  /** The admin set follows the roles. */
  ghost predicate AdminsOk(n: Net, admins: set<nat>) {
    forall sid: nat :: sid in admins <==> sid in n.sessions && n.sessions[sid].role.AdminRole? && !n.sessions[sid].closed
  }

  lemma ClosedAdmins(n: Net, admins: set<nat>, sid: nat)
    requires AdminsOk(n, admins) && sid in n.sessions
    ensures AdminsOk(Closed(n, sid), if n.sessions[sid].role.AdminRole? && !n.sessions[sid].closed then admins - {sid} else admins)
  {}

  lemma CloseNetOk(l: Live, sid: nat)
    requires NetOkBut(l) && sid in l.net.sessions
    ensures NetOkBut(CloseSession(l, sid)) && CloseSession(l, sid).net.locks.Keys <= l.net.locks.Keys
  {
    CloseNet(l, sid);
    ClosedAgrees(l.net, sid);
    ClosedAdmins(l.net, l.admins, sid);
  }

  lemma ShutNetOk(l: Live, sid: nat, client: bool)
    requires NetOkBut(l) && sid in l.net.sessions
    ensures NetOkBut(l.(net := Shut(l.net, sid, client)))
  {
    ShutAgrees(l.net, sid, client);
  }

  lemma DisconnectNetOk(l: Live, sid: nat)
    requires NetOkBut(l) && sid in l.net.sessions
    ensures NetOkBut(DisconnectSession(l, sid)) && DisconnectSession(l, sid).net.locks.Keys <= l.net.locks.Keys
    ensures DisconnectSession(l, sid).net.sessions.Keys == l.net.sessions.Keys && DisconnectSession(l, sid).groups == l.groups
    ensures forall h :: !Owns(DisconnectSession(l, sid).net, sid, h)
  {
    CloseNetOk(l, sid);
    CloseNet(l, sid);
    ClosedAgrees(l.net, sid);
    var l1 := CloseSession(l, sid);
    ShutNetOk(l1, sid, l1.net.sessions[sid].client);
    forall h ensures !Owns(DisconnectSession(l, sid).net, sid, h) { assert !Owns(l1.net, sid, h); }
  }

  lemma GoneNetOk(l: Live, sid: nat, final: bool)
    requires NetOk(l) && sid in l.net.sessions
    ensures NetOk(GoneSession(l, sid, final))
  {
    GoneIs(l, sid, final);
    GoneAgrees(l.net, sid, final);
    GoneAdmins(l.net, l.admins, sid, final);
  }

  lemma GoneAdmins(n: Net, admins: set<nat>, sid: nat, final: bool)
    requires AdminsOk(n, admins) && sid in n.sessions
    ensures AdminsOk(SocketGone(n, sid, final), if n.sessions[sid].role.AdminRole? && !n.sessions[sid].closed then admins - {sid} else admins)
    ensures SocketGone(n, sid, final).locks.Keys <= n.locks.Keys
  {}

  lemma ClaimedNetOk(l: Live, sid: nat, g: string, now: int)
    requires NetOk(l) && sid in l.net.sessions && !l.net.sessions[sid].closed && l.net.sessions[sid].role.NoRole? && g in l.groups
    ensures NetOk(l.(net := Claimed(l.net, sid, g, now)))
  {
    ClaimAgrees(l.net, sid, g, now);
  }

  lemma SnapshotTalk(l: Live, sid: nat, g: string)
    ensures Talk(l, SendSnapshot(l, sid, g)) && SendSnapshot(l, sid, g).reg == l.reg && SendSnapshot(l, sid, g).pending == l.pending
  {}

  lemma ClaimNetOk(l: Live, sid: nat, g: string, now: int)
    requires NetOk(l) && sid in l.net.sessions && !l.net.sessions[sid].closed
    ensures NetOk(ClaimGroup(l, sid, g, now))
  {
    if l.net.sessions[sid].role.NoRole? && g in l.groups && g !in l.net.locks {
      var l0 := l.(net := Claimed(l.net, sid, g, now));
      var l1 := SendSnapshot(l0, sid, g);
      var l2 := DeliverTiles(l1, TilesOf(l1.reg.customers, g), now);
      ClaimedNetOk(l, sid, g, now);
      SnapshotTalk(l0, sid, g);
      DeliverTilesTalk(l1, TilesOf(l1.reg.customers, g), now);
      LockChangedNet(l2);
      SameNetOk(l0, LockChanged(l2));
    }
  }

  lemma SubscribedNetOk(l: Live, sid: nat)
    requires NetOk(l) && sid in l.net.sessions && !l.net.sessions[sid].closed && l.net.sessions[sid].role.NoRole?
    ensures NetOk(l.(net := Subscribed(l.net, sid), admins := l.admins + {sid}))
  {
    SubscribeAgrees(l.net, sid);
  }

  lemma SubscribeNetOk(l: Live, sid: nat)
    requires NetOk(l) && sid in l.net.sessions && !l.net.sessions[sid].closed
    ensures NetOk(SubscribeAdmin(l, sid))
  {
    if l.net.sessions[sid].role.NoRole? {
      SubscribedNetOk(l, sid);
      SameNetOk(l.(net := Subscribed(l.net, sid), admins := l.admins + {sid}), SubscribeAdmin(l, sid));
    }
  }

  /** An echo and the fresh number list touch no session. */
  lemma EchoNet(l: Live, number: string)
    ensures SameNet(l, NumbersChanged(l)) && SameNet(l, SendTile(l, number, Other))
  {}

  lemma PresenceNet(l: Live, number: string, online: bool, now: int)
    ensures SameNet(l, SetPresence(l, number, online, now))
  {
    var l0 := l.(reg := l.reg.(customers := WithOnline(l.reg.customers, number, online)));
    var l1 := NumbersChanged(l0);
    EchoNet(l0, number);
    EchoNet(l1, number);
    FlushTalk(SendTile(l1, number, Other), number, now);
  }

  lemma ModeNet(l: Live, number: string, mode: ReplyMode)
    ensures SameNet(l, SetAutoReply(l, number, mode))
  {
    var l0 := l.(reg := l.reg.(customers := WithMode(l.reg.customers, number, mode)));
    EchoNet(l0, number);
    EchoNet(NumbersChanged(l0), number);
  }

  // ---- the reset ----

  /** `NetOk`, except that the groups may have been wiped under their holders. */
  ghost predicate NetOkBut(l: Live) {
    Agreement(l.net) && AdminsOk(l.net, l.admins)
  }

  lemma RefreshOneNet(l: Live, g: string, sid: nat, keep: bool)
    requires NetOkBut(l) && sid in l.net.sessions
    ensures var t := RefreshOne(l, g, sid, keep);
            && NetOkBut(t) && t.net.sessions.Keys == l.net.sessions.Keys
            && t.net.locks.Keys <= l.net.locks.Keys && t.groups == l.groups
            && (!keep ==> forall h :: !Owns(t.net, sid, h))
  {
    if keep && g in l.groups { SnapshotTalk(l, sid, g); } else { DisconnectNetOk(SendTab(l, sid, Other), sid); }
  }

  lemma DisconnectedOwns(n: Net, sid: nat)
    requires sid in n.sessions
    ensures forall tid, h :: Owns(Disconnected(n, sid), tid, h) ==> Owns(n, tid, h)
  {}

  /** Refreshing gives nobody a group. */
  lemma RefreshOneOwns(l: Live, g: string, sid: nat, keep: bool)
    ensures forall tid, h :: Owns(RefreshOne(l, g, sid, keep).net, tid, h) ==> Owns(l.net, tid, h)
  {
    if sid in l.net.sessions {
      if keep && g in l.groups {
        SnapshotTalk(l, sid, g);
      } else {
        DisconnectNet(SendTab(l, sid, Other), sid);
        DisconnectedOwns(l.net, sid);
      }
    }
  }

  lemma {:induction false} RefreshNet(l: Live, holders: seq<(string, nat)>, keep: bool)
    requires NetOkBut(l) && forall i | 0 <= i < |holders| :: holders[i].1 in l.net.sessions
    ensures var t := RefreshAll(l, holders, keep);
            && NetOkBut(t) && t.net.sessions.Keys == l.net.sessions.Keys
            && t.net.locks.Keys <= l.net.locks.Keys && t.groups == l.groups
  {
    if holders != [] {
      var n := |holders| - 1;
      RefreshNet(l, holders[..n], keep);
      RefreshOneNet(RefreshAll(l, holders[..n], keep), holders[n].0, holders[n].1, keep);
    }
  }

  /** After a wipe only who is not among the holders could own a lock, and only one it owned before. */
  lemma {:induction false} RefreshOwners(l: Live, holders: seq<(string, nat)>, keep: bool, tid: nat, h: string)
    requires NetOkBut(l) && forall i | 0 <= i < |holders| :: holders[i].1 in l.net.sessions
    requires Owns(RefreshAll(l, holders, keep).net, tid, h)
    ensures Owns(l.net, tid, h) && (keep || NotAmong(holders, tid))
  {
    if holders != [] {
      var n := |holders| - 1;
      RefreshNet(l, holders[..n], keep);
      OneRefreshOwners(RefreshAll(l, holders[..n], keep), holders[n].0, holders[n].1, keep, tid, h);
      RefreshOwners(l, holders[..n], keep, tid, h);
      if !keep { NotAmongLast(holders, tid); }
    }
  }

  lemma NotAmongLast(holders: seq<(string, nat)>, tid: nat)
    requires holders != [] && NotAmong(holders[..|holders| - 1], tid) && holders[|holders| - 1].1 != tid
    ensures NotAmong(holders, tid)
  {
    forall i | 0 <= i < |holders| ensures holders[i].1 != tid {
      if i < |holders| - 1 { assert holders[..|holders| - 1][i] == holders[i]; }
    }
  }

  ghost predicate NotAmong(holders: seq<(string, nat)>, tid: nat) {
    forall i | 0 <= i < |holders| :: holders[i].1 != tid
  }

  lemma OneRefreshOwners(l: Live, g: string, sid: nat, keep: bool, tid: nat, h: string)
    requires NetOkBut(l) && sid in l.net.sessions && Owns(RefreshOne(l, g, sid, keep).net, tid, h)
    ensures Owns(l.net, tid, h) && (keep || tid != sid)
  {
    RefreshOneNet(l, g, sid, keep);
    RefreshOneOwns(l, g, sid, keep);
  }

  lemma HoldersKnown(l: Live, holders: seq<(string, nat)>)
    requires NetOk(l) && Enumerates(l, holders)
    ensures forall i | 0 <= i < |holders| :: holders[i].1 in l.net.sessions
  {
    forall i | 0 <= i < |holders| ensures holders[i].1 in l.net.sessions {
      assert Indexed(l.net, holders[i].1, holders[i].0) <==> Holds(l.net, holders[i].1, holders[i].0);
    }
  }

  /** Every owner of a lock is among the holders. */
  lemma OwnersHold(l: Live, holders: seq<(string, nat)>, tid: nat, h: string)
    requires NetOk(l) && Enumerates(l, holders) && Owns(l.net, tid, h)
    ensures exists i :: 0 <= i < |holders| && holders[i].1 == tid
  {
    assert Indexed(l.net, tid, h) by { assert Holds(l.net, tid, h); }
    assert (h, tid) in holders;
    var i :| 0 <= i < |holders| && holders[i] == (h, tid);
    assert holders[i].1 == tid;
  }

  lemma NobodyOwns(n: Net)
    requires Agreement(n) && forall tid, h :: !Owns(n, tid, h)
    ensures n.locks == map[] && n.index == map[]
  {
    LockedIsIndexed(n);
    assert forall g | g in n.locks :: Owns(n, n.locks[g].owner, g);
    assert n.locks.Keys == {};
  }

  lemma ResetFeedNet(l: Live)
    ensures ResetFeed(l) == l.(announced := {}, log := l.log + [LogReset], feeds := ResetFeed(l).feeds)
  {}

  /** A reset that also wipes the numbers leaves the lock table and the index empty. */
  lemma WipeFreesAll(l: Live, holders: seq<(string, nat)>)
    requires NetOk(l) && Enumerates(l, holders)
    ensures NetOk(WipeAll(l, false, holders))
    ensures WipeAll(l, false, holders).net.locks == map[] && WipeAll(l, false, holders).net.index == map[]
  {
    var l0 := l.(reg := WipedReg(l.reg, false), groups := []);
    var l1 := ResetFeed(l0);
    var t := RefreshAll(l1, holders, false);
    ResetFeedNet(l0);
    HoldersKnown(l, holders);
    RefreshNet(l1, holders, false);
    forall tid, h ensures !Owns(t.net, tid, h) {
      if Owns(t.net, tid, h) {
        RefreshOwners(l1, holders, false, tid, h);
        OwnersHold(l, holders, tid, h);
      }
    }
    NobodyOwns(t.net);
  }

  lemma WipeNetOk(l: Live, keep: bool, holders: seq<(string, nat)>)
    requires NetOk(l) && Enumerates(l, holders)
    ensures NetOk(WipeAll(l, keep, holders))
  {
    if keep {
      var l0 := l.(reg := WipedReg(l.reg, keep));
      ResetFeedNet(l0);
      HoldersKnown(l, holders);
      RefreshNet(ResetFeed(l0), holders, keep);
    } else {
      WipeFreesAll(l, holders);
    }
  }

  // ---- every step ----

  lemma {:induction false} WithoutStringKeeps(gs: seq<string>, g: string)
    ensures forall h :: h in WithoutString(gs, g) <==> h in gs && h != g
  {
    if gs != [] {
      WithoutStringKeeps(gs[..|gs| - 1], g);
      assert gs == gs[..|gs| - 1] + [gs[|gs| - 1]];
    }
  }

  lemma LinkingNetOk(l: Live, st: LinkStep)
    requires NetOk(l) && LinkEnabled(l, st)
    ensures NetOk(LinkApply(l, st))
  {
    match st
    case Opened(sid) => ConnectAgrees(l.net, sid);
    case ClaimFrame(sid, g, now) => ClaimNetOk(l, sid, g, now);
    case SubscribeFrame(sid) => SubscribeNetOk(l, sid);
    case SocketEnds(sid, final) => GoneNetOk(l, sid, final);
    case Heartbeat => HeartbeatAgrees(l.net, 0);
    case PongFrame(sid) => HeartbeatAgrees(l.net, sid);
  }

  lemma SwitchNet(l: Live, st: SwitchStep)
    requires SwitchEnabled(l, st)
    ensures SameNet(l, SwitchApply(l, st))
  {
    match st
    case PresenceFrame(sid, number, online, now) => PresenceNet(l, number, online, now);
    case ApiPresence(number, online, now) => PresenceNet(l, number, online, now);
    case AutoReplyFrame(sid, number, mode) => ModeNet(l, number, mode);
    case ApiAutoReply(number, mode) =>
      ModeNet(l, number, mode);
      EchoNet(SetAutoReply(l, number, mode), number);
  }

  lemma TableNetOk(l: Live, st: TableStep)
    requires NetOk(l) && TableEnabled(l, st)
    ensures NetOk(TableApply(l, st))
  {
    match st
    case ApiBusinesses(bs) => EchoNet(l.(reg := l.reg.(businesses := bs)), "");
    case ApiCreateGroup(g, numbers) =>
    case ApiDeleteGroup(g) => WithoutStringKeeps(l.groups, g);
    case ApiReset(keep, holders) => WipeNetOk(l, keep, holders);
  }

  // ---- every callback is a sequence of session steps ----

  /** The sessions a reset ends. */
  function Ended(groups: seq<string>, holders: seq<(string, nat)>, keep: bool): seq<NetStep> {
    if holders == [] then []
    else
      var n := |holders| - 1;
      Ended(groups, holders[..n], keep) + if keep && holders[n].0 in groups then [] else [Disconnect(holders[n].1)]
  }

  function NetSteps(l: Live, st: LiveStep): seq<NetStep> {
    match st
    case Linking(Opened(sid)) => [Connect(sid)]
    case Linking(ClaimFrame(sid, g, now)) => if sid in l.net.sessions && CanTake(l, sid, g) then [NetStep.Claim(sid, g, now)] else []
    case Linking(SubscribeFrame(sid)) => if sid in l.net.sessions && l.net.sessions[sid].role.NoRole? then [Subscribe(sid)] else []
    case Linking(SocketEnds(sid, final)) => [Gone(sid, final)]
    case Linking(Heartbeat) => [Tick]
    case Linking(PongFrame(sid)) => [NetStep.Pong(sid)]
    case Arranging(ApiReset(keep, holders)) => Ended(if keep then l.groups else [], holders, keep)
    case _ => []
  }

  lemma {:induction false} EndedRuns(l: Live, holders: seq<(string, nat)>, keep: bool)
    requires NetOkBut(l) && forall i | 0 <= i < |holders| :: holders[i].1 in l.net.sessions
    ensures NetCanRun(l.net, Ended(l.groups, holders, keep)) && NetRun(l.net, Ended(l.groups, holders, keep)) == RefreshAll(l, holders, keep).net
  {
    if holders != [] {
      var n := |holders| - 1;
      var (g, sid) := holders[n];
      var l1 := RefreshAll(l, holders[..n], keep);
      EndedRuns(l, holders[..n], keep);
      RefreshNet(l, holders[..n], keep);
      if keep && g in l.groups {
        SnapshotTalk(l1, sid, g);
        assert Ended(l.groups, holders[..n], keep) + [] == Ended(l.groups, holders[..n], keep);
      } else {
        DisconnectNet(SendTab(l1, sid, Other), sid);
        OneStep(l1.net, Disconnect(sid));
        RunCat(l.net, Ended(l.groups, holders[..n], keep), [Disconnect(sid)]);
      }
    }
  }

  lemma ClaimIsNet(l: Live, sid: nat, g: string, now: int)
    requires sid in l.net.sessions && CanTake(l, sid, g)
    ensures ClaimGroup(l, sid, g, now).net == Claimed(l.net, sid, g, now)
  {
    var l0 := l.(net := Claimed(l.net, sid, g, now));
    var l1 := SendSnapshot(l0, sid, g);
    SnapshotTalk(l0, sid, g);
    DeliverTilesTalk(l1, TilesOf(l1.reg.customers, g), now);
    LockChangedNet(DeliverTiles(l1, TilesOf(l1.reg.customers, g), now));
  }

  lemma LinkIsNet(l: Live, st: LinkStep)
    requires LinkEnabled(l, st)
    ensures NetCanRun(l.net, NetSteps(l, Linking(st))) && NetRun(l.net, NetSteps(l, Linking(st))) == LinkApply(l, st).net
  {
    match st
    case Opened(sid) => OneStep(l.net, Connect(sid));
    case ClaimFrame(sid, g, now) =>
      if CanTake(l, sid, g) {
        ClaimIsNet(l, sid, g, now);
        OneStep(l.net, NetStep.Claim(sid, g, now));
      }
    case SubscribeFrame(sid) => if l.net.sessions[sid].role.NoRole? { OneStep(l.net, Subscribe(sid)); }
    case SocketEnds(sid, final) =>
      CloseNet(l.(net := Shut(l.net, sid, l.net.sessions[sid].client && !final)), sid);
      OneStep(l.net, Gone(sid, final));
    case Heartbeat => OneStep(l.net, Tick);
    case PongFrame(sid) => OneStep(l.net, NetStep.Pong(sid));
  }

  lemma WipeIsNet(l: Live, keep: bool, holders: seq<(string, nat)>)
    requires NetOk(l) && Enumerates(l, holders)
    ensures var steps := NetSteps(l, Arranging(ApiReset(keep, holders)));
            NetCanRun(l.net, steps) && NetRun(l.net, steps) == WipeAll(l, keep, holders).net
  {
    var l0 := l.(reg := WipedReg(l.reg, keep), groups := if keep then l.groups else []);
    ResetFeedNet(l0);
    HoldersKnown(l, holders);
    EndedRuns(ResetFeed(l0), holders, keep);
  }

  lemma TableIsNet(l: Live, st: TableStep)
    requires NetOk(l) && TableEnabled(l, st)
    ensures NetCanRun(l.net, NetSteps(l, Arranging(st))) && NetRun(l.net, NetSteps(l, Arranging(st))) == TableApply(l, st).net
  {
    if st.ApiReset? { WipeIsNet(l, st.keep, st.holders); }
  }

  /** The sessions, the lock and the index change by session steps only. */
  lemma StepIsNet(l: Live, st: LiveStep)
    requires NetOk(l) && LiveEnabled(l, st)
    ensures NetCanRun(l.net, NetSteps(l, st)) && NetRun(l.net, NetSteps(l, st)) == LiveApply(l, st).net
  {
    match st
    case Linking(s) => LinkIsNet(l, s);
    case Talking(s) => TalkingTalk(l, s);
    case Switching(s) => SwitchNet(l, s);
    case Arranging(s) => TableIsNet(l, s);
    case Logging(s) => NoteTalk(l, s);
  }

  lemma StepNetOk(l: Live, st: LiveStep)
    requires NetOk(l) && LiveEnabled(l, st)
    ensures NetOk(LiveApply(l, st))
  {
    match st
    case Linking(s) => LinkingNetOk(l, s);
    case Talking(s) =>
      TalkingTalk(l, s);
      SameNetOk(l, TalkApply(l, s));
    case Switching(s) =>
      SwitchNet(l, s);
      SameNetOk(l, SwitchApply(l, s));
    case Arranging(s) => TableNetOk(l, s);
    case Logging(s) =>
      NoteTalk(l, s);
      SameNetOk(l, NoteApply(l, s));
  }
}
