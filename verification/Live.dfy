/**
 The live engine: sessions, store and the frames each browser gets, one step per callback. The tab of a group and the
 admin page are mirrors: they know only the frames they were sent.
 */
module Live {
  import opened Prelude
  import opened Registry
  import opened Lifecycle
  import opened StoreGroups
  import opened Sessions

  /** Frames to a group's tab; `Other` are errors and echoes that touch no bubble. */
  datatype TabFrame =
    | GroupClaimed(bubbles: seq<Bubble>)
    | NewBubble(bubble: Bubble)
    | QueueFlush(bubbles: seq<Bubble>)
    | StatusTick(wamid: string, status: Status)
    | Other

  datatype GroupItem = GroupItem(id: string, count: nat, lockedSince: Option<int>)
  datatype CustomerItem = CustomerItem(number: string, group: string, online: bool, effective: bool, locked: bool, mode: ReplyMode)

  /** Frames to an admin page. */
  datatype FeedFrame =
    | GroupsUpdate(groups: seq<GroupItem>)
    | NumbersUpdate(businesses: seq<Business>, customers: seq<CustomerItem>)

  /** The log frames broadcast to the admin pages, in order; a reset is on record even when nobody listens. */
  datatype LogFrame = LogEntry(wamid: string) | LogUpdate(wamid: string) | RejectedEntry(at: int) | LogReset

  /**
   `pending` holds the accepted messages whose HTTP response has not finished, as they were when accepted.
   `hidden` and `stale` are history: the wamids the last snapshot left out because only the newest of a tile are
   shown, and those a late copy has put back since.
   */
  datatype Live = Live(
    net: Net, groups: seq<string>, reg: Reg,
    pending: map<string, Message>,
    tabs: map<nat, seq<TabFrame>>, hidden: map<nat, set<string>>, stale: map<nat, set<string>>,
    admins: set<nat>, feeds: map<nat, seq<FeedFrame>>,
    announced: set<string>, log: seq<LogFrame>)

  const EmptyLive := Live(EmptyNet, [], EmptyReg, map[], map[], map[], map[], {}, map[], {}, [])

  function Tab(l: Live, sid: nat): seq<TabFrame> { if sid in l.tabs then l.tabs[sid] else [] }
  function Feed(l: Live, sid: nat): seq<FeedFrame> { if sid in l.feeds then l.feeds[sid] else [] }
  function Hidden(l: Live, sid: nat): set<string> { if sid in l.hidden then l.hidden[sid] else {} }
  function Stale(l: Live, sid: nat): set<string> { if sid in l.stale then l.stale[sid] else {} }
  predicate Open(l: Live, sid: nat) { sid in l.net.sessions && l.net.sessions[sid].open }

  // ---- sending ----

  function SendTab(l: Live, sid: nat, f: TabFrame): Live {
    if Open(l, sid) then l.(tabs := l.tabs[sid := Tab(l, sid) + [f]]) else l
  }

  /** The session showing this number's tile. */
  function SessionFor(l: Live, number: string): Option<nat> {
    match GetCustomer(l.reg.customers, number)
    case Some(c) => if c.group in l.net.index then Some(l.net.index[c.group]) else None
    case None => None
  }

  predicate IsOnline(l: Live, number: string) {
    GetCustomer(l.reg.customers, number).Some? && GetCustomer(l.reg.customers, number).value.online && SessionFor(l, number).Some?
  }

  function SendTile(l: Live, number: string, f: TabFrame): Live {
    match SessionFor(l, number) case Some(sid) => SendTab(l, sid, f) case None => l
  }

  // ---- what a tab shows ----

  function Shown(view: map<string, Status>, bs: seq<Bubble>): map<string, Status> {
    if bs == [] then view
    else
      var v, b := Shown(view, bs[..|bs| - 1]), bs[|bs| - 1];
      if b.wamid in v then v else v[b.wamid := b.status]
  }

  function Folded(view: map<string, Status>, f: TabFrame): map<string, Status> {
    match f
    case GroupClaimed(bs) => Shown(map[], bs)
    case NewBubble(b) => Shown(view, [b])
    case QueueFlush(bs) => Shown(view, bs)
    case StatusTick(w, s) => if w in view then view[w := s] else view
    case Other => view
  }

  /** The bubbles of a tab: those of the last claim, new ones added, ticks written over. */
  function View(frames: seq<TabFrame>): map<string, Status> {
    if frames == [] then map[] else Folded(View(frames[..|frames| - 1]), frames[|frames| - 1])
  }

  lemma ViewAppend(frames: seq<TabFrame>, f: TabFrame)
    ensures View(frames + [f]) == Folded(View(frames), f)
  {
    assert (frames + [f])[..|frames|] == frames;
  }

  /** A copy of a delivered message reaches a tab that was re-claimed meanwhile and does not show the message. */
  predicate LateCopy(l: Live, m: Message) {
    && m.dir.ToCustomer? && IsOnline(l, m.customer) && Open(l, SessionFor(l, m.customer).value)
    && GetMessage(l.reg.messages, m.wamid).Some? && GetMessage(l.reg.messages, m.wamid).value.deliveredAt.Some?
    && m.wamid !in View(Tab(l, SessionFor(l, m.customer).value))
  }

  /** On record: the copy will show an old status. */
  function NoteLate(l: Live, m: Message): Live {
    if !LateCopy(l, m) then l
    else
      var sid := SessionFor(l, m.customer).value;
      l.(stale := l.stale[sid := Stale(l, sid) + {m.wamid}])
  }

  // ---- the admin feed ----

  function CountIn(cs: seq<Customer>, g: string): nat {
    if cs == [] then 0 else CountIn(cs[..|cs| - 1], g) + if cs[|cs| - 1].group == g then 1 else 0
  }

  function LockedSince(l: Live, g: string): Option<int> {
    if g in l.net.locks then Some(l.net.locks[g].since) else None
  }

  function ListGroups(l: Live): seq<GroupItem> {
    seq(|l.groups|, i requires 0 <= i < |l.groups| =>
      GroupItem(l.groups[i], CountIn(l.reg.customers, l.groups[i]), LockedSince(l, l.groups[i])))
  }

  function CustomerItemOf(l: Live, c: Customer): CustomerItem {
    var locked := c.group in l.net.locks;
    CustomerItem(c.number, c.group, c.online, c.online && locked, locked, c.mode)
  }

  function ListCustomers(l: Live): seq<CustomerItem> {
    seq(|l.reg.customers|, i requires 0 <= i < |l.reg.customers| => CustomerItemOf(l, l.reg.customers[i]))
  }

  function GroupsFrame(l: Live): FeedFrame { GroupsUpdate(ListGroups(l)) }
  function NumbersFrame(l: Live): FeedFrame { NumbersUpdate(l.reg.businesses, ListCustomers(l)) }

  function SendFeed(l: Live, sid: nat, f: FeedFrame): Live {
    if Open(l, sid) then l.(feeds := l.feeds[sid := Feed(l, sid) + [f]]) else l
  }

  /** One frame to every admin page whose socket takes frames. */
  function Broadcast(l: Live, f: FeedFrame): Live {
    l.(feeds := map sid | sid in l.admins + l.feeds.Keys ::
                  if sid in l.admins && Open(l, sid) then Feed(l, sid) + [f] else Feed(l, sid))
  }

  function GroupsChanged(l: Live): Live { Broadcast(l, GroupsFrame(l)) }
  function NumbersChanged(l: Live): Live { Broadcast(l, NumbersFrame(l)) }
  function LockChanged(l: Live): Live { NumbersChanged(GroupsChanged(l)) }

  /** A message or one of its webhooks changed: an entry the first time, an update after; nothing if nobody listens. */
  function LogTo(l: Live, wamid: string): Live {
    if l.admins == {} || GetMessage(l.reg.messages, wamid).None? then l
    else l.(announced := l.announced + {wamid},
            log := l.log + [if wamid in l.announced then LogUpdate(wamid) else LogEntry(wamid)])
  }

  /** A refused request: an entry of its own, never updated. */
  function RejectTo(l: Live, at: int): Live {
    if l.admins == {} then l else l.(log := l.log + [RejectedEntry(at)])
  }

  // ---- the bus ----

  function Emit(l: Live, e: BusEvent): Live {
    match e
    case MessageNew(m) => if m.dir.FromCustomer? then SendTile(l, m.customer, NewBubble(BubbleOf(m))) else l
    case StatusChanged(wamid, number, status, _) => SendTile(l, number, StatusTick(wamid, status))
    case LogChanged(wamid) => LogTo(l, wamid)
  }

  function EmitAll(l: Live, es: seq<BusEvent>): Live {
    if es == [] then l else Emit(EmitAll(l, es[..|es| - 1]), es[|es| - 1])
  }

  /** A lifecycle call: the store changes, then the events go out. */
  function Happened(l: Live, e: Effect): Live { EmitAll(l.(reg := e.reg), e.events) }

  // ---- delivery ----

  /** Show messages in a tile, then mark them delivered. */
  function PushAndMark(l: Live, number: string, f: TabFrame, ms: seq<Message>, now: int): Live {
    Happened(SendTile(l, number, f), DeliveredCall(l.reg, ms, now))
  }

  function DeliverNow(l: Live, m: Message, now: int): Live {
    if !m.dir.ToCustomer? || !IsOnline(l, m.customer) then l
    else PushAndMark(l, m.customer, NewBubble(BubbleOf(m)), [m], now)
  }

  function Bubbles(ms: seq<Message>): seq<Bubble> {
    seq(|ms|, i requires 0 <= i < |ms| => BubbleOf(ms[i]))
  }

  function FlushTile(l: Live, number: string, now: int): Live {
    if !IsOnline(l, number) || QueuedFor(l.reg, number) == [] then l
    else PushAndMark(l, number, QueueFlush(Bubbles(QueuedFor(l.reg, number))), QueuedFor(l.reg, number), now)
  }

  /** One tile after a claim: its queue is in the snapshot already, so it is only marked. */
  function DeliverTile(l: Live, number: string, now: int): Live {
    if !IsOnline(l, number) || QueuedFor(l.reg, number) == [] then l
    else Happened(l, DeliveredCall(l.reg, QueuedFor(l.reg, number), now))
  }

  function DeliverTiles(l: Live, tiles: seq<string>, now: int): Live {
    if tiles == [] then l else DeliverTile(DeliverTiles(l, tiles[..|tiles| - 1], now), tiles[|tiles| - 1], now)
  }

  function TilesOf(cs: seq<Customer>, g: string): seq<string> {
    if cs == [] then [] else
      TilesOf(cs[..|cs| - 1], g) + if cs[|cs| - 1].group == g then [cs[|cs| - 1].number] else []
  }

  // ---- claim and release ----

  function TileBubbles(reg: Reg, number: string): seq<Bubble> {
    var t := TileOf(reg, number);
    Bubbles(t.history) + Bubbles(t.queued)
  }

  function SnapshotOf(reg: Reg, tiles: seq<string>): seq<Bubble> {
    if tiles == [] then [] else SnapshotOf(reg, tiles[..|tiles| - 1]) + TileBubbles(reg, tiles[|tiles| - 1])
  }

  predicate InGroup(reg: Reg, m: Message, g: string) {
    GetCustomer(reg.customers, m.customer).Some? && GetCustomer(reg.customers, m.customer).value.group == g
  }

  /** What the snapshot of a group leaves out. */
  function LeftOut(reg: Reg, g: string): set<string> {
    set m | m in reg.messages && InGroup(reg, m, g) && (forall b | b in SnapshotOf(reg, TilesOf(reg.customers, g)) :: b.wamid != m.wamid) :: m.wamid
  }

  function SendSnapshot(l: Live, sid: nat, g: string): Live {
    if Open(l, sid) then
      SendTab(l, sid, GroupClaimed(SnapshotOf(l.reg, TilesOf(l.reg.customers, g)))).(hidden := l.hidden[sid := LeftOut(l.reg, g)], stale := l.stale[sid := {}])
    else l
  }

  /** A granted claim: lock, snapshot, then what waits in the tiles is marked. */
  function TakeGroup(l: Live, sid: nat, g: string, now: int): Live
    requires sid in l.net.sessions
  {
    var l1 := SendSnapshot(l.(net := Claimed(l.net, sid, g, now)), sid, g);
    DeliverTiles(l1, TilesOf(l1.reg.customers, g), now)
  }

  predicate CanTake(l: Live, sid: nat, g: string)
    requires sid in l.net.sessions
  {
    l.net.sessions[sid].role.NoRole? && g in l.groups && g !in l.net.locks
  }

  /** The group.claim frame. */
  function ClaimGroup(l: Live, sid: nat, g: string, now: int): Live
    requires sid in l.net.sessions
  {
    if CanTake(l, sid, g) then LockChanged(TakeGroup(l, sid, g, now)) else SendTab(l, sid, Other)
  }

  /** The admin.subscribe frame. */
  function SubscribeAdmin(l: Live, sid: nat): Live
    requires sid in l.net.sessions
  {
    if !l.net.sessions[sid].role.NoRole? then SendTab(l, sid, Other)
    else
      var l1 := l.(net := Subscribed(l.net, sid), admins := l.admins + {sid});
      var l2 := SendFeed(l1, sid, GroupsFrame(l1));
      SendFeed(l2, sid, NumbersFrame(l2))
  }

  /** `Session.close` with its hooks. */
  function CloseSession(l: Live, sid: nat): Live
    requires sid in l.net.sessions
  {
    var s := l.net.sessions[sid];
    var l1 := l.(net := Closed(l.net, sid));
    if s.closed then l1
    else match s.role
      case NoRole => l1
      case GroupRole(_) => LockChanged(l1)
      case AdminRole => l1.(admins := l1.admins - {sid})
  }

  function GoneSession(l: Live, sid: nat, final: bool): Live
    requires sid in l.net.sessions
  {
    CloseSession(l.(net := Shut(l.net, sid, l.net.sessions[sid].client && !final)), sid)
  }

  function DisconnectSession(l: Live, sid: nat): Live
    requires sid in l.net.sessions
  {
    var l1 := CloseSession(l, sid);
    if sid in l1.net.sessions then l1.(net := Shut(l1.net, sid, l1.net.sessions[sid].client)) else l1
  }

  // ---- tile switches ----

  function WithOnline(cs: seq<Customer>, number: string, online: bool): seq<Customer> {
    seq(|cs|, i requires 0 <= i < |cs| => if cs[i].number == number then cs[i].(online := online) else cs[i])
  }

  function WithMode(cs: seq<Customer>, number: string, mode: ReplyMode): seq<Customer> {
    seq(|cs|, i requires 0 <= i < |cs| => if cs[i].number == number then cs[i].(mode := mode) else cs[i])
  }

  /** The switch is stored, shown to the admins, echoed to the open tab; going online flushes the queue. */
  function SetPresence(l: Live, number: string, online: bool, now: int): Live {
    var l1 := NumbersChanged(l.(reg := l.reg.(customers := WithOnline(l.reg.customers, number, online))));
    if SessionFor(l1, number).None? then l1
    else
      var l2 := SendTile(l1, number, Other);
      if online then FlushTile(l2, number, now) else l2
  }

  function SetAutoReply(l: Live, number: string, mode: ReplyMode): Live {
    SendTile(NumbersChanged(l.(reg := l.reg.(customers := WithMode(l.reg.customers, number, mode)))), number, Other)
  }

  // ---- reset ----

  /** One holder of a group: a fresh snapshot if its group survived, otherwise the end of its session. */
  function RefreshOne(l: Live, g: string, sid: nat, keep: bool): Live {
    if sid !in l.net.sessions then l
    else if keep && g in l.groups then SendSnapshot(l, sid, g)
    else DisconnectSession(SendTab(l, sid, Other), sid)
  }

  function RefreshAll(l: Live, holders: seq<(string, nat)>, keep: bool): Live {
    if holders == [] then l
    else
      var n := |holders| - 1;
      RefreshOne(RefreshAll(l, holders[..n], keep), holders[n].0, holders[n].1, keep)
  }

  function ResetFeed(l: Live): Live {
    LockChanged(l.(announced := {}, log := l.log + [LogReset]))
  }

  function WipeAll(l: Live, keep: bool, holders: seq<(string, nat)>): Live {
    var l1 := l.(reg := WipedReg(l.reg, keep), groups := if keep then l.groups else []);
    RefreshAll(ResetFeed(l1), holders, keep)
  }

  // ---- group table ----

  function CreateGroup(l: Live, g: string, numbers: seq<string>): Live {
    var added := seq(|numbers|, i requires 0 <= i < |numbers| => Customer(numbers[i], g, true, Manual));
    LockChanged(l.(groups := l.groups + [g], reg := l.reg.(customers := l.reg.customers + added)))
  }

  function WithoutGroup(cs: seq<Customer>, g: string): seq<Customer> {
    if cs == [] then [] else
      WithoutGroup(cs[..|cs| - 1], g) + if cs[|cs| - 1].group == g then [] else [cs[|cs| - 1]]
  }

  function WithoutString(gs: seq<string>, g: string): seq<string> {
    if gs == [] then [] else
      WithoutString(gs[..|gs| - 1], g) + if gs[|gs| - 1] == g then [] else [gs[|gs| - 1]]
  }

  /** A claimed group cannot be deleted. */
  function DeleteGroup(l: Live, g: string): Live {
    if g in l.net.locks || g !in l.groups then l
    else LockChanged(l.(groups := WithoutString(l.groups, g), reg := l.reg.(customers := WithoutGroup(l.reg.customers, g))))
  }

  // ---- steps ----

  /** Sockets and sessions. */
  datatype LinkStep =
    | Opened(sid: nat)
    | ClaimFrame(sid: nat, group: string, now: int)
    | SubscribeFrame(sid: nat)
    | SocketEnds(sid: nat, final: bool)
    | Heartbeat
    | PongFrame(sid: nat)

  /** Messages. */
  datatype TalkStep =
    | SendFrame(sid: nat, number: string, to: string, body: string, wamid: string, now: int)
    | ReadFrame(sid: nat, number: string, peer: string, now: int)
    | HttpSend(phone: string, customer: string, text: string, wamid: string, delay: nat, now: int)
    | HttpFinished(wamid: string, now: int)
    | HttpRead(phone: string, wamid: string, now: int)
    | Inject(sender: string, to: string, body: string, wamid: string, now: int)
    | AutoReply(customer: string, to: string, body: string, wamid: string, now: int)

  /** The switches of a tile. */
  datatype SwitchStep =
    | PresenceFrame(sid: nat, number: string, online: bool, now: int)
    | AutoReplyFrame(sid: nat, number: string, mode: ReplyMode)
    | ApiPresence(number: string, online: bool, now: int)
    | ApiAutoReply(number: string, mode: ReplyMode)

  /** The control API on the tables. */
  datatype TableStep =
    | ApiBusinesses(businesses: seq<Business>)
    | ApiCreateGroup(group: string, numbers: seq<string>)
    | ApiDeleteGroup(group: string)
    | ApiReset(keep: bool, holders: seq<(string, nat)>)

  /** What only the log shows. */
  datatype NoteStep =
    | WebhookProgress(wamid: string)
    | RequestRejected(at: int)

  datatype LiveStep =
    | Linking(link: LinkStep) | Talking(talk: TalkStep) | Switching(tile: SwitchStep) | Arranging(table: TableStep)
    | Logging(note: NoteStep)

  /** A frame about a tile of the session's own group. */
  predicate OwnTile(l: Live, sid: nat, number: string)
    requires sid in l.net.sessions
  {
    l.net.sessions[sid].role.GroupRole?
    && GetCustomer(l.reg.customers, number).Some?
    && GetCustomer(l.reg.customers, number).value.group == l.net.sessions[sid].role.group
  }

  function TileOnline(l: Live, number: string): bool {
    GetCustomer(l.reg.customers, number).Some? && GetCustomer(l.reg.customers, number).value.online
  }

  /** The message.send frame: only an online tile of the own group talks, and only to a known business. */
  function SendMessage(l: Live, sid: nat, number: string, to: string, body: string, wamid: string, now: int): Live
    requires sid in l.net.sessions
  {
    if !OwnTile(l, sid, number) || !TileOnline(l, number) || GetBusiness(l.reg.businesses, to).None? then SendTab(l, sid, Other)
    else
      var e := InboundCall(l.reg, number, GetBusiness(l.reg.businesses, to).value.phone, body, wamid, now);
      if e.error.Some? then SendTab(l, sid, Other) else Happened(l, e)
  }

  /** The chat.read frame: an offline tile cannot open a chat. */
  function ReadChat(l: Live, sid: nat, number: string, peer: string, now: int): Live
    requires sid in l.net.sessions
  {
    if !OwnTile(l, sid, number) || GetBusiness(l.reg.businesses, peer).None? then SendTab(l, sid, Other)
    else if !TileOnline(l, number) then l
    else Happened(l, ReadCall(l.reg, number, GetBusiness(l.reg.businesses, peer).value.phone, now))
  }

  /** A validated POST: stored, and remembered until its response is on the wire. */
  function AcceptSend(l: Live, phone: string, customer: string, text: string, wamid: string, delay: nat, now: int): Live {
    var m := MessageOf(l.reg, Draft(wamid, ToCustomer, phone, customer, text, now));
    Happened(l.(pending := l.pending[wamid := m]), Accepted(l.reg, phone, customer, text, wamid, delay, now))
  }

  /** The response of a send is on the wire: the message, as it was when accepted, goes to its tile. */
  function ResponseFinished(l: Live, wamid: string, now: int): Live
    requires wamid in l.pending
  {
    var m := l.pending[wamid];
    DeliverNow(NoteLate(l.(pending := l.pending - {wamid}), m), m, now)
  }

  predicate LinkKnown(l: Live, st: LinkStep) { st.Opened? || st.Heartbeat? || st.sid in l.net.sessions }

  function LinkApply(l: Live, st: LinkStep): Live
    requires LinkKnown(l, st)
  {
    match st
    case Opened(sid) => l.(net := Connected(l.net, sid))
    case ClaimFrame(sid, g, now) => ClaimGroup(l, sid, g, now)
    case SubscribeFrame(sid) => SubscribeAdmin(l, sid)
    case SocketEnds(sid, final) => GoneSession(l, sid, final)
    case Heartbeat => l.(net := Ticked(l.net))
    case PongFrame(sid) => l.(net := Ponged(l.net, sid))
  }

  predicate TalkKnown(l: Live, st: TalkStep) {
    ((st.SendFrame? || st.ReadFrame?) ==> st.sid in l.net.sessions) && (st.HttpFinished? ==> st.wamid in l.pending)
  }

  function TalkApply(l: Live, st: TalkStep): Live
    requires TalkKnown(l, st)
  {
    match st
    case SendFrame(sid, number, to, body, wamid, now) => SendMessage(l, sid, number, to, body, wamid, now)
    case ReadFrame(sid, number, peer, now) => ReadChat(l, sid, number, peer, now)
    case HttpSend(phone, customer, text, wamid, delay, now) => AcceptSend(l, phone, customer, text, wamid, delay, now)
    case HttpFinished(wamid, now) => ResponseFinished(l, wamid, now)
    case HttpRead(phone, wamid, now) => Happened(l, MarkInboundRead(l.reg, phone, wamid, now))
    case Inject(sender, to, body, wamid, now) => Happened(l, InboundCall(l.reg, sender, to, body, wamid, now))
    case AutoReply(customer, to, body, wamid, now) =>
      if !IsOnline(l, customer) then l else Happened(l, InboundCall(l.reg, customer, to, body, wamid, now))
  }

  predicate SwitchKnown(l: Live, st: SwitchStep) { (st.PresenceFrame? || st.AutoReplyFrame?) ==> st.sid in l.net.sessions }

  function SwitchApply(l: Live, st: SwitchStep): Live
    requires SwitchKnown(l, st)
  {
    match st
    case PresenceFrame(sid, number, online, now) =>
      if !OwnTile(l, sid, number) then SendTab(l, sid, Other) else SetPresence(l, number, online, now)
    case AutoReplyFrame(sid, number, mode) =>
      if !OwnTile(l, sid, number) then SendTab(l, sid, Other) else SetAutoReply(l, number, mode)
    case ApiPresence(number, online, now) =>
      if GetCustomer(l.reg.customers, number).None? then l else SetPresence(l, number, online, now)
    case ApiAutoReply(number, mode) =>
      if GetCustomer(l.reg.customers, number).None? then l else NumbersChanged(SetAutoReply(l, number, mode))
  }

  function TableApply(l: Live, st: TableStep): Live {
    match st
    case ApiBusinesses(bs) => NumbersChanged(l.(reg := l.reg.(businesses := bs)))
    case ApiCreateGroup(g, numbers) => CreateGroup(l, g, numbers)
    case ApiDeleteGroup(g) => DeleteGroup(l, g)
    case ApiReset(keep, holders) => WipeAll(l, keep, holders)
  }

  function NoteApply(l: Live, st: NoteStep): Live {
    match st
    case WebhookProgress(wamid) => Emit(l, LogChanged(wamid))
    case RequestRejected(at) => RejectTo(l, at)
  }

  /** Webhooks of these messages progressed, one after the other. */
  function Progressed(l: Live, wamids: seq<string>): Live {
    if wamids == [] then l else NoteApply(Progressed(l, wamids[..|wamids| - 1]), WebhookProgress(wamids[|wamids| - 1]))
  }

  predicate StepKnown(l: Live, st: LiveStep) {
    match st
    case Linking(s) => LinkKnown(l, s)
    case Talking(s) => TalkKnown(l, s)
    case Switching(s) => SwitchKnown(l, s)
    case Arranging(_) => true
    case Logging(_) => true
  }

  /** One callback; one about a session or a response that does not exist cannot happen and changes nothing. */
  function LiveApply(l: Live, st: LiveStep): Live {
    if !StepKnown(l, st) then l
    else match st
      case Linking(s) => LinkApply(l, s)
      case Talking(s) => TalkApply(l, s)
      case Switching(s) => SwitchApply(l, s)
      case Arranging(s) => TableApply(l, s)
      case Logging(s) => NoteApply(l, s)
  }
}
