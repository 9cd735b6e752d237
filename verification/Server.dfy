/**
 The whole server: browsers, Comdove's requests, the control API, timers and webhook attempts in any order. Every
 callback of the live engine makes only lifecycle calls that keep the books, so what holds end to end holds here.
 */
module Server {
  import opened Prelude
  import opened JobStore
  import opened Registry
  import opened Lifecycle
  import opened Conservation
  import opened StoreGroups
  import opened Sessions
  import opened Live
  import opened LiveNet
  import opened LiveQueue
  import opened LiveTabs
  import LiveRuns
  import opened LiveLog
  import opened LiveLogged
  import opened LiveGuards
  import E = EndToEnd
  import D = Dispatcher
  import DSt = DispatcherStore
  import opened DispatcherHeard
  import DR = DispatcherRuns

  // ---- the lifecycle calls of each callback ----

  function FlushCalls(l: Live, number: string, now: int): seq<E.Call> {
    if !IsOnline(l, number) || QueuedFor(l.reg, number) == [] then [] else [E.Deliver(QueuedFor(l.reg, number), now)]
  }

  function TileCalls(l: Live, tiles: seq<string>, now: int): seq<E.Call> {
    if tiles == [] then [] else
      var n := |tiles| - 1;
      TileCalls(l, tiles[..n], now) + FlushCalls(DeliverTiles(l, tiles[..n], now), tiles[n], now)
  }

  function PresenceCalls(l: Live, number: string, online: bool, now: int): seq<E.Call> {
    var cs := WithOnline(l.reg.customers, number, online);
    var l2 := SendTile(NumbersChanged(l.(reg := l.reg.(customers := cs))), number, Other);
    [E.Numbers(l.reg.businesses, cs)] + if online then FlushCalls(l2, number, now) else []
  }

  function ClaimCalls(l: Live, sid: nat, g: string, now: int): seq<E.Call>
    requires sid in l.net.sessions
  {
    if !l.net.sessions[sid].role.NoRole? || g !in l.groups || g in l.net.locks then []
    else
      var l1 := SendSnapshot(l.(net := Claimed(l.net, sid, g, now)), sid, g);
      TileCalls(l1, TilesOf(l1.reg.customers, g), now)
  }

  function SendCalls(l: Live, sid: nat, number: string, to: string, body: string, wamid: string, now: int): seq<E.Call>
    requires sid in l.net.sessions
  {
    if !OwnTile(l, sid, number) || !TileOnline(l, number) || GetBusiness(l.reg.businesses, to).None? then []
    else [E.Receive(number, GetBusiness(l.reg.businesses, to).value.phone, body, wamid, now)]
  }

  function ReadCalls(l: Live, sid: nat, number: string, peer: string, now: int): seq<E.Call>
    requires sid in l.net.sessions
  {
    if !OwnTile(l, sid, number) || GetBusiness(l.reg.businesses, peer).None? || !TileOnline(l, number) then []
    else [E.MarkRead(number, GetBusiness(l.reg.businesses, peer).value.phone, now)]
  }

  function LinkCalls(l: Live, st: LinkStep): seq<E.Call>
    requires LinkKnown(l, st)
  {
    match st
    case ClaimFrame(sid, g, now) => ClaimCalls(l, sid, g, now)
    case _ => []
  }

  function TalkCalls(l: Live, st: TalkStep): seq<E.Call>
    requires TalkKnown(l, st)
  {
    match st
    case SendFrame(sid, number, to, body, wamid, now) => SendCalls(l, sid, number, to, body, wamid, now)
    case ReadFrame(sid, number, peer, now) => ReadCalls(l, sid, number, peer, now)
    case HttpSend(phone, customer, text, wamid, _, now) => [E.Accept(phone, customer, text, wamid, now)]
    case HttpFinished(wamid, now) => if IsOnline(l, l.pending[wamid].customer) then [E.Deliver([l.pending[wamid]], now)] else []
    case HttpRead(phone, wamid, now) => [E.MarkInbound(phone, wamid, now)]
    case Inject(sender, to, body, wamid, now) => [E.Receive(sender, to, body, wamid, now)]
    case AutoReply(customer, to, body, wamid, now) => if IsOnline(l, customer) then [E.Receive(customer, to, body, wamid, now)] else []
  }

  function SwitchCalls(l: Live, st: SwitchStep): seq<E.Call>
    requires SwitchKnown(l, st)
  {
    match st
    case PresenceFrame(sid, number, online, now) =>
      if !OwnTile(l, sid, number) then [] else PresenceCalls(l, number, online, now)
    case AutoReplyFrame(sid, number, mode) =>
      if !OwnTile(l, sid, number) then [] else [E.Numbers(l.reg.businesses, WithMode(l.reg.customers, number, mode))]
    case ApiPresence(number, online, now) =>
      if GetCustomer(l.reg.customers, number).None? then [] else PresenceCalls(l, number, online, now)
    case ApiAutoReply(number, mode) =>
      if GetCustomer(l.reg.customers, number).None? then [] else [E.Numbers(l.reg.businesses, WithMode(l.reg.customers, number, mode))]
  }

  function TableCalls(l: Live, st: TableStep): seq<E.Call> {
    match st
    case ApiBusinesses(bs) => [E.Numbers(bs, l.reg.customers)]
    case ApiCreateGroup(g, numbers) => [E.Numbers(l.reg.businesses, CreateGroup(l, g, numbers).reg.customers)]
    case ApiDeleteGroup(g) => [E.Numbers(l.reg.businesses, DeleteGroup(l, g).reg.customers)]
    case ApiReset(keep, _) => [E.Wipe(keep)]
  }

  function CallsOf(l: Live, st: LiveStep): seq<E.Call> {
    if !StepKnown(l, st) then []
    else match st
      case Linking(s) => LinkCalls(l, s)
      case Talking(s) => TalkCalls(l, s)
      case Switching(s) => SwitchCalls(l, s)
      case Arranging(s) => TableCalls(l, s)
      case Logging(_) => []
  }

  /** When a callback runs, if that matters. */
  function TimeOf(st: LiveStep): Option<int> {
    match st
    case Linking(s) => if s.ClaimFrame? then Some(s.now) else None
    case Talking(s) => Some(s.now)
    case Switching(s) => if s.PresenceFrame? || s.ApiPresence? then Some(s.now) else None
    case Arranging(_) => None
    case Logging(_) => None
  }

  // ---- what calls bring ----

  /** `cs` can be done, brings the store to `reg`, and ends no later than `now`. */
  ghost predicate Brings(s: E.System, cs: seq<E.Call>, reg: Reg, now: int) {
    && E.CanDo(s, cs)
    && E.DoAll(s, cs).reg == reg && E.DoAll(s, cs).delay == s.delay
    && (s.dsp.clock <= now ==> E.DoAll(s, cs).dsp.clock <= now)
  }

  lemma BringsNothing(s: E.System, now: int)
    ensures Brings(s, [], s.reg, now)
  {}

  lemma BringsCat(s: E.System, xs: seq<E.Call>, ys: seq<E.Call>, reg: Reg, now: int)
    requires E.CanDo(s, xs) && Brings(s, xs, E.DoAll(s, xs).reg, now) && Brings(E.DoAll(s, xs), ys, reg, now)
    ensures Brings(s, xs + ys, reg, now)
  {
    E.DoCat(s, xs, ys);
  }

  lemma BringsEffect(s: E.System, c: E.Call, now: int)
    requires (c.Accept? || c.Deliver? || c.MarkRead? || c.Receive? || c.MarkInbound?) && E.Allowed(s, c) && c.now == now
    ensures Brings(s, [c], E.EffectOf(s, c).reg, now)
  {
    E.DoOne(s, c);
    E.EnqueueAllHooks(s.dsp, E.EffectOf(s, c).requests, now);
  }

  lemma BringsNumbers(s: E.System, bs: seq<Business>, cs: seq<Customer>, now: int)
    ensures Brings(s, [E.Numbers(bs, cs)], s.reg.(businesses := bs, customers := cs), now)
  {
    E.DoOne(s, E.Numbers(bs, cs));
  }

  // ---- every call is one that keeps the books ----

  ghost predicate Sound(reg: Reg) { RegOk(reg) && AllRegistered(reg, reg.businesses) }

  lemma FlushBrings(s: E.System, l: Live, number: string, now: int)
    requires Sound(l.reg) && s.reg == l.reg && s.dsp.clock <= now
    ensures Brings(s, FlushCalls(l, number, now), FlushTile(l, number, now).reg, now)
    ensures DeliverTile(l, number, now).reg == FlushTile(l, number, now).reg
  {
    FlushReg(l, number, now);
    DeliverTileReg(l, number, now);
    NothingDelivered(l.reg, now);
    BringsNothing(s, now);
    if QueuedFor(l.reg, number) != [] && IsOnline(l, number) {
      QueueAllowed(s, number, now);
      BringsEffect(s, E.Deliver(QueuedFor(l.reg, number), now), now);
    }
  }

  lemma QueueAllowed(s: E.System, number: string, now: int)
    requires Sound(s.reg) && s.dsp.clock <= now
    ensures E.Allowed(s, E.Deliver(QueuedFor(s.reg, number), now))
  {
    LiveRuns.FlushHandsQueue(s.reg, number, now);
    QueueDelivered(s.reg, number, now);
    QueuedForIs(s.reg, number);
  }

  lemma {:induction false} TilesBring(s: E.System, l: Live, tiles: seq<string>, now: int)
    requires Sound(l.reg) && s.reg == l.reg && s.dsp.clock <= now
    ensures Brings(s, TileCalls(l, tiles, now), DeliverTiles(l, tiles, now).reg, now)
    ensures Sound(DeliverTiles(l, tiles, now).reg)
  {
    if tiles == [] {
      BringsNothing(s, now);
    } else {
      var n := |tiles| - 1;
      var l1 := DeliverTiles(l, tiles[..n], now);
      TilesBring(s, l, tiles[..n], now);
      var s1 := E.DoAll(s, TileCalls(l, tiles[..n], now));
      FlushBrings(s1, l1, tiles[n], now);
      BringsCat(s, TileCalls(l, tiles[..n], now), FlushCalls(l1, tiles[n], now), DeliverTile(l1, tiles[n], now).reg, now);
      TilesDelivered(l, tiles, now);
      AgedSound(l.reg, DeliverTiles(l, tiles, now).reg);
      DeliverTilesTalk(l, tiles, now);
    }
  }

  lemma AgedSound(reg: Reg, t: Reg)
    requires Sound(reg) && Aged(reg, t)
    ensures Sound(t)
  {
    forall m | m in t.messages ensures GetBusiness(t.businesses, m.phone).Some? { var x := AgedMessage(reg, t, m); }
  }

  lemma ClaimBrings(s: E.System, l: Live, sid: nat, g: string, now: int)
    requires Sound(l.reg) && s.reg == l.reg && s.dsp.clock <= now && sid in l.net.sessions
    ensures Brings(s, ClaimCalls(l, sid, g, now), ClaimGroup(l, sid, g, now).reg, now)
  {
    BringsNothing(s, now);
    if l.net.sessions[sid].role.NoRole? && g in l.groups && g !in l.net.locks {
      var l0 := l.(net := Claimed(l.net, sid, g, now));
      var l1 := SendSnapshot(l0, sid, g);
      SnapshotTalk(l0, sid, g);
      TilesBring(s, l1, TilesOf(l1.reg.customers, g), now);
      LockChangedNet(DeliverTiles(l1, TilesOf(l1.reg.customers, g), now));
    }
  }

  lemma PresenceBrings(s: E.System, l: Live, number: string, online: bool, now: int)
    requires Sound(l.reg) && s.reg == l.reg && s.dsp.clock <= now
    ensures Brings(s, PresenceCalls(l, number, online, now), SetPresence(l, number, online, now).reg, now)
  {
    var cs := WithOnline(l.reg.customers, number, online);
    var l0 := l.(reg := l.reg.(customers := cs));
    var l1 := NumbersChanged(l0);
    var l2 := SendTile(l1, number, Other);
    var first := [E.Numbers(l.reg.businesses, cs)];
    BringsNumbers(s, l.reg.businesses, cs, now);
    NumbersOk(l.reg, l.reg.businesses, cs);
    FlushBrings(E.DoAll(s, first), l2, number, now);
    BringsNothing(E.DoAll(s, first), now);
    BringsCat(s, first, if online then FlushCalls(l2, number, now) else [], if online then FlushTile(l2, number, now).reg else l2.reg, now);
    assert SessionFor(l1, number).None? ==> l2 == l1 && FlushTile(l1, number, now) == l1;
  }

  lemma SendBrings(s: E.System, l: Live, sid: nat, number: string, to: string, body: string, wamid: string, now: int)
    requires s.reg == l.reg && s.dsp.clock <= now && sid in l.net.sessions && Unseen(l, wamid)
    ensures Brings(s, SendCalls(l, sid, number, to, body, wamid, now), SendMessage(l, sid, number, to, body, wamid, now).reg, now)
  {
    BringsNothing(s, now);
    if GetBusiness(l.reg.businesses, to).Some? {
      var phone := GetBusiness(l.reg.businesses, to).value.phone;
      InboundBrings(s, l, number, phone, body, wamid, now);
      InboundReg(l, number, phone, body, wamid, now);
    }
  }

  /** A refused message leaves the store alone. */
  lemma InboundReg(l: Live, sender: string, to: string, body: string, wamid: string, now: int)
    ensures var e := InboundCall(l.reg, sender, to, body, wamid, now);
            Happened(l, e).reg == e.reg && (e.error.Some? ==> e.reg == l.reg)
  {
    InboundNumbers(l.reg, sender, to, body, wamid, now);
    HappenedTalk(l, InboundCall(l.reg, sender, to, body, wamid, now));
  }

  lemma ReadBrings(s: E.System, l: Live, sid: nat, number: string, peer: string, now: int)
    requires s.reg == l.reg && s.dsp.clock <= now && sid in l.net.sessions
    ensures Brings(s, ReadCalls(l, sid, number, peer, now), ReadChat(l, sid, number, peer, now).reg, now)
  {
    BringsNothing(s, now);
    if GetBusiness(l.reg.businesses, peer).Some? {
      var phone := GetBusiness(l.reg.businesses, peer).value.phone;
      BringsEffect(s, E.MarkRead(number, phone, now), now);
      ReadNumbers(l.reg, number, phone, now);
      HappenedTalk(l, ReadCall(l.reg, number, phone, now));
    }
  }

  lemma ModeBrings(s: E.System, l: Live, number: string, mode: ReplyMode, now: int)
    requires s.reg == l.reg
    ensures Brings(s, [E.Numbers(l.reg.businesses, WithMode(l.reg.customers, number, mode))], SetAutoReply(l, number, mode).reg, now)
  {
    BringsNumbers(s, l.reg.businesses, WithMode(l.reg.customers, number, mode), now);
  }

  lemma FinishedBrings(s: E.System, l: Live, w: string, now: int)
    requires StoreOk(l) && w in l.pending && s.reg == l.reg && s.dsp.clock <= now && IsOnline(l, l.pending[w].customer)
    ensures Brings(s, [E.Deliver([l.pending[w]], now)], DeliverNow(l.(pending := l.pending - {w}), l.pending[w], now).reg, now)
  {
    var p := l.pending[w];
    PendingAllowed(s, l, w, now);
    PushTalk(l.(pending := l.pending - {w}), p.customer, NewBubble(BubbleOf(p)), [p], now);
    BringsEffect(s, E.Deliver([p], now), now);
  }

  lemma PendingAllowed(s: E.System, l: Live, w: string, now: int)
    requires StoreOk(l) && w in l.pending && s.reg == l.reg && s.dsp.clock <= now
    ensures E.Allowed(s, E.Deliver([l.pending[w]], now))
  {
    PendingCopies(l, w);
    OneUnique(l.reg, l.pending[w]);
    TodoReady(l.reg, [l.pending[w]]);
  }

  lemma InboundBrings(s: E.System, l: Live, sender: string, to: string, body: string, wamid: string, now: int)
    requires s.reg == l.reg && s.dsp.clock <= now && Unseen(l, wamid)
    ensures Brings(s, [E.Receive(sender, to, body, wamid, now)], Happened(l, InboundCall(l.reg, sender, to, body, wamid, now)).reg, now)
  {
    InboundNumbers(l.reg, sender, to, body, wamid, now);
    HappenedTalk(l, InboundCall(l.reg, sender, to, body, wamid, now));
    BringsEffect(s, E.Receive(sender, to, body, wamid, now), now);
  }

  lemma MarkInboundBrings(s: E.System, l: Live, phone: string, wamid: string, now: int)
    requires s.reg == l.reg && s.dsp.clock <= now
    ensures Brings(s, [E.MarkInbound(phone, wamid, now)], Happened(l, MarkInboundRead(l.reg, phone, wamid, now)).reg, now)
  {
    HappenedTalk(l, MarkInboundRead(l.reg, phone, wamid, now));
    BringsEffect(s, E.MarkInbound(phone, wamid, now), now);
  }

  lemma AcceptBrings(s: E.System, l: Live, phone: string, customer: string, text: string, wamid: string, now: int)
    requires s.reg == l.reg && s.dsp.clock <= now && Unseen(l, wamid) && Registered(l.reg, phone)
    ensures Brings(s, [E.Accept(phone, customer, text, wamid, now)], AcceptSend(l, phone, customer, text, wamid, s.delay, now).reg, now)
  {
    var l1 := l.(pending := l.pending[wamid := MessageOf(l.reg, Draft(wamid, ToCustomer, phone, customer, text, now))]);
    HappenedTalk(l1, Accepted(l.reg, phone, customer, text, wamid, s.delay, now));
    BringsEffect(s, E.Accept(phone, customer, text, wamid, now), now);
  }

  lemma WipeBrings(s: E.System, l: Live, keep: bool, holders: seq<(string, nat)>, now: int)
    requires s.reg == l.reg
    ensures Brings(s, [E.Wipe(keep)], WipeAll(l, keep, holders).reg, now)
  {
    E.DoOne(s, E.Wipe(keep));
    WipeReg(l, keep, holders);
  }

  lemma GroupBrings(s: E.System, l: Live, t: Live, now: int)
    requires s.reg == l.reg && t.reg == l.reg.(customers := t.reg.customers)
    ensures Brings(s, [E.Numbers(l.reg.businesses, t.reg.customers)], t.reg, now)
  {
    BringsNumbers(s, l.reg.businesses, t.reg.customers, now);
  }

  lemma LinkBrings(s: E.System, l: Live, st: LinkStep, now: int)
    requires StoreOk(l) && LinkEnabled(l, st) && s.reg == l.reg && s.dsp.clock <= now && (st.ClaimFrame? ==> st.now == now)
    ensures Brings(s, LinkCalls(l, st), LinkApply(l, st).reg, now)
  {
    BringsNothing(s, now);
    match st
    case ClaimFrame(sid, g, _) => ClaimBrings(s, l, sid, g, now);
    case SocketEnds(sid, final) => GoneIs(l, sid, final);
    case SubscribeFrame(sid) => SubscribeFrames(l, sid);
    case Opened(_) =>
    case Heartbeat =>
    case PongFrame(_) =>
  }

  lemma TalkBrings(s: E.System, l: Live, st: TalkStep, now: int)
    requires StoreOk(l) && TalkEnabled(l, st) && s.reg == l.reg && s.dsp.clock <= now && st.now == now
    requires st.HttpSend? ==> st.delay == s.delay
    ensures Brings(s, TalkCalls(l, st), TalkApply(l, st).reg, now)
  {
    BringsNothing(s, now);
    match st
    case SendFrame(sid, number, to, body, wamid, _) => SendBrings(s, l, sid, number, to, body, wamid, now);
    case ReadFrame(sid, number, peer, _) => ReadBrings(s, l, sid, number, peer, now);
    case HttpSend(phone, customer, text, wamid, _, _) => AcceptBrings(s, l, phone, customer, text, wamid, now);
    case HttpFinished(wamid, _) =>
      ResponseTalk(l, wamid, now);
      if IsOnline(l, l.pending[wamid].customer) { FinishedBrings(s, l, wamid, now); }
    case HttpRead(phone, wamid, _) => MarkInboundBrings(s, l, phone, wamid, now);
    case Inject(sender, to, body, wamid, _) => InboundBrings(s, l, sender, to, body, wamid, now);
    case AutoReply(customer, to, body, wamid, _) => InboundBrings(s, l, customer, to, body, wamid, now);
  }

  lemma SwitchBrings(s: E.System, l: Live, st: SwitchStep, now: int)
    requires StoreOk(l) && SwitchEnabled(l, st) && s.reg == l.reg && s.dsp.clock <= now
    requires (st.PresenceFrame? || st.ApiPresence?) ==> st.now == now
    ensures Brings(s, SwitchCalls(l, st), SwitchApply(l, st).reg, now)
  {
    BringsNothing(s, now);
    match st
    case PresenceFrame(sid, number, online, _) => PresenceBrings(s, l, number, online, now);
    case AutoReplyFrame(sid, number, mode) => ModeBrings(s, l, number, mode, now);
    case ApiPresence(number, online, _) => PresenceBrings(s, l, number, online, now);
    case ApiAutoReply(number, mode) => ModeBrings(s, l, number, mode, now);
  }

  lemma TableBrings(s: E.System, l: Live, st: TableStep, now: int)
    requires s.reg == l.reg
    ensures Brings(s, TableCalls(l, st), TableApply(l, st).reg, now)
  {
    match st
    case ApiBusinesses(bs) => BringsNumbers(s, bs, l.reg.customers, now);
    case ApiCreateGroup(g, numbers) => GroupBrings(s, l, CreateGroup(l, g, numbers), now);
    case ApiDeleteGroup(g) => GroupBrings(s, l, DeleteGroup(l, g), now);
    case ApiReset(keep, holders) => WipeBrings(s, l, keep, holders, now);
  }

  /** Each callback does a sequence of allowed lifecycle calls, and nothing else, to the store. */
  lemma CallsBring(s: E.System, l: Live, st: LiveStep, now: int)
    requires StoreOk(l) && LiveEnabled(l, st) && s.reg == l.reg && s.dsp.clock <= now
    requires TimeOf(st).Some? ==> TimeOf(st).value == now
    requires st.Talking? && st.talk.HttpSend? ==> st.talk.delay == s.delay
    ensures Brings(s, CallsOf(l, st), LiveApply(l, st).reg, now)
  {
    match st
    case Linking(x) => LinkBrings(s, l, x, now);
    case Talking(x) => TalkBrings(s, l, x, now);
    case Switching(x) => SwitchBrings(s, l, x, now);
    case Arranging(x) => TableBrings(s, l, x, now);
    case Logging(x) =>
      NoteTalk(l, x);
      BringsNothing(s, now);
  }

  // ---- the server ----

  datatype Server = Server(live: Live, dsp: D.State, delay: nat)

  function Books(v: Server): E.System { E.System(v.live.reg, v.dsp, v.delay) }

  /** A callback of the live engine, or one of the dispatcher. */
  datatype ServerStep = Outside(st: LiveStep) | Webhooks(step: D.Step)

  ghost predicate ServerEnabled(v: Server, step: ServerStep) {
    match step
    case Outside(st) =>
      && LiveEnabled(v.live, st) && !(st.Logging? && st.note.WebhookProgress?)
      && (TimeOf(st).Some? ==> TimeOf(st).value >= v.dsp.clock)
      && (st.Talking? && st.talk.HttpSend? ==> st.talk.delay == v.delay)
    case Webhooks(s) => D.Enabled(v.dsp, s) && !s.Enqueue? && !s.Reset? && !s.Cancel?
  }

  /** A new process: sessions and unfinished responses are gone, the store is not. */
  function Rebooted(l: Live): Live {
    Live(EmptyNet, l.groups, l.reg, map[], map[], map[], map[], {}, map[], {}, [])
  }

  /** What the dispatcher's change listener tells the live engine. */
  function Told(d: D.State, step: D.Step): seq<string>
    requires D.Enabled(d, step)
  {
    if step.Respond? then D.Announced(d, step.k, step.reply) else []
  }

  function AfterWebhooks(v: Server, step: D.Step): Live
    requires D.Enabled(v.dsp, step)
  {
    if step.Restart? then Rebooted(v.live) else Progressed(v.live, Told(v.dsp, step))
  }

  /** The dispatcher gets what the callback's lifecycle calls ask for; they can always be done. */
  ghost function ServerApply(v: Server, step: ServerStep): Server
    requires ServerEnabled(v, step)
  {
    match step
    case Outside(st) =>
      var cs := CallsOf(v.live, st);
      Server(LiveApply(v.live, st), if E.CanDo(Books(v), cs) then E.DoAll(Books(v), cs).dsp else v.dsp, v.delay)
    case Webhooks(s) => Server(AfterWebhooks(v, s), D.Apply(v.dsp, s), v.delay)
  }

  ghost predicate ServerCanRun(v: Server, steps: seq<ServerStep>)
    decreases |steps|
  {
    steps == [] || (ServerEnabled(v, steps[0]) && ServerCanRun(ServerApply(v, steps[0]), steps[1..]))
  }

  ghost function ServerRun(v: Server, steps: seq<ServerStep>): Server
    requires ServerCanRun(v, steps)
    decreases |steps|
  {
    if steps == [] then v else ServerRun(ServerApply(v, steps[0]), steps[1..])
  }

  function FirstBoot(cfg: D.Config, delay: nat, clock: int): Server {
    Server(EmptyLive, D.Initial(cfg, EmptyRows, clock), delay)
  }

  ghost predicate ServerReachable(v: Server) {
    exists cfg: D.Config, delay: nat, clock: int, steps: seq<ServerStep> ::
      cfg.Ok() && ServerCanRun(FirstBoot(cfg, delay, clock), steps) && v == ServerRun(FirstBoot(cfg, delay, clock), steps)
  }

  lemma OutsideStep(v: Server, st: LiveStep)
    requires LiveRuns.LiveInv(v.live) && ServerEnabled(v, Outside(st))
    ensures E.CanDo(Books(v), CallsOf(v.live, st))
    ensures Books(ServerApply(v, Outside(st))) == E.DoAll(Books(v), CallsOf(v.live, st))
  {
    CallsBring(Books(v), v.live, st, if TimeOf(st).Some? then TimeOf(st).value else v.dsp.clock);
  }

  lemma RebootedInv(l: Live)
    requires LiveRuns.LiveInv(l)
    ensures LiveRuns.LiveInv(Rebooted(l))
  {
    LiveRuns.BootedInv(Rebooted(l));
  }

  lemma {:induction false} ProgressedInv(l: Live, wamids: seq<string>)
    requires LiveRuns.LiveInv(l)
    ensures LiveRuns.LiveInv(Progressed(l, wamids)) && Progressed(l, wamids).reg == l.reg
    ensures Progressed(l, wamids).admins == l.admins
  {
    if wamids != [] {
      var n := |wamids| - 1;
      ProgressedInv(l, wamids[..n]);
      LiveRuns.StepInv(Progressed(l, wamids[..n]), Logging(WebhookProgress(wamids[n])));
      NoteTalk(Progressed(l, wamids[..n]), WebhookProgress(wamids[n]));
    }
  }

  lemma ServerStepInv(v: Server, step: ServerStep)
    requires LiveRuns.LiveInv(v.live) && E.Reachable(Books(v)) && ServerEnabled(v, step)
    ensures LiveRuns.LiveInv(ServerApply(v, step).live) && E.Reachable(Books(ServerApply(v, step)))
  {
    match step
    case Outside(st) =>
      OutsideStep(v, st);
      LiveRuns.StepInv(v.live, st);
      E.ReachableOn(Books(v), CallsOf(v.live, st));
    case Webhooks(s) =>
      RebootedInv(v.live);
      ProgressedInv(v.live, Told(v.dsp, s));
      E.DoOne(Books(v), E.Dispatch(s));
      E.ReachableOn(Books(v), [E.Dispatch(s)]);
  }

  lemma {:induction false} ServerRunInv(v: Server, steps: seq<ServerStep>)
    requires LiveRuns.LiveInv(v.live) && E.Reachable(Books(v)) && ServerCanRun(v, steps)
    ensures LiveRuns.LiveInv(ServerRun(v, steps).live) && E.Reachable(Books(ServerRun(v, steps)))
    decreases |steps|
  {
    if steps != [] {
      ServerStepInv(v, steps[0]);
      ServerRunInv(ServerApply(v, steps[0]), steps[1..]);
    }
  }

  /**
   In every run of the whole server, across restarts: the books are those of a reachable end-to-end system, and the
   live engine's mirrors, queues and locks are in order.
   */
  lemma ServerKeepsBooks(v: Server)
    requires ServerReachable(v)
    ensures E.Reachable(Books(v)) && LiveRuns.LiveInv(v.live)
  {
    var cfg: D.Config, delay: nat, clock: int, steps: seq<ServerStep> :|
      cfg.Ok() && ServerCanRun(FirstBoot(cfg, delay, clock), steps) && v == ServerRun(FirstBoot(cfg, delay, clock), steps);
    LiveRuns.BootedInv(EmptyLive);
    assert E.CanDo(E.Boot(cfg, delay, clock), []) && Books(FirstBoot(cfg, delay, clock)) == E.DoAll(E.Boot(cfg, delay, clock), []);
    ServerRunInv(FirstBoot(cfg, delay, clock), steps);
  }

  lemma ServerBooksOk(v: Server)
    requires ServerReachable(v)
    ensures DR.Inv(v.dsp) && Conserved(v.live.reg, Hooks(v.dsp.rows.jobs))
  {
    ServerKeepsBooks(v);
    E.ReachableInv(Books(v));
  }

  /** Every message of the running server has exactly its due webhooks. */
  lemma ServerConserves(v: Server, m: Message, kind: JobKind)
    requires ServerReachable(v) && m in v.live.reg.messages
    ensures Count(Hooks(v.dsp.rows.jobs), m.wamid, kind) == Due(m, kind)
  {
    ServerKeepsBooks(v);
    E.MessagesMatchWebhooks(Books(v), m, kind);
  }

  /**
   A bubble in an open tab tells which webhooks of its message exist, once each; the one exception is a bubble that a
   late copy put back and that still says sent.
   */
  lemma ShownIsAskedFor(v: Server, sid: nat, g: string, m: Message)
    requires ServerReachable(v) && Holds(v.live.net, sid, g) && Open(v.live, sid)
    requires m in v.live.reg.messages && InGroup(v.live.reg, m, g) && m.dir.ToCustomer? && m.wamid in View(Tab(v.live, sid))
    ensures var shown := View(Tab(v.live, sid))[m.wamid];
            && Count(Hooks(v.dsp.rows.jobs), m.wamid, Sent) == 1
            && (shown != WasSent || m.wamid !in Stale(v.live, sid) ==>
            && (Count(Hooks(v.dsp.rows.jobs), m.wamid, Delivered) == 1 <==> shown != WasSent)
            && (Count(Hooks(v.dsp.rows.jobs), m.wamid, JobKind.Read) == 1 <==> shown == WasRead))
  {
    ServerConserves(v, m, Sent);
    ServerConserves(v, m, Delivered);
    ServerConserves(v, m, JobKind.Read);
    StagesInOrder(v, m);
    ServerTabTells(v, sid, g, m);
  }

  lemma StagesInOrder(v: Server, m: Message)
    requires ServerReachable(v) && m in v.live.reg.messages
    ensures Timeline(m)
  {
    ServerKeepsBooks(v);
    E.MessagesMatchWebhooks(Books(v), m, Sent);
  }

  lemma ServerTabTells(v: Server, sid: nat, g: string, m: Message)
    requires ServerReachable(v) && Holds(v.live.net, sid, g) && Open(v.live, sid)
    requires m in v.live.reg.messages && InGroup(v.live.reg, m, g)
    ensures Tells(m, View(Tab(v.live, sid)), Hidden(v.live, sid), Stale(v.live, sid))
  {
    ServerKeepsBooks(v);
    LiveRuns.TabTells(v.live, sid, g, m);
  }

  /**
   The dispatcher's callbacks touch nothing of the live engine but its log; a restart drops sessions, locks and
   responses under way, and keeps every message, number, group and webhook.
   */
  lemma RestartKeepsStore(v: Server, step: D.Step)
    requires ServerReachable(v) && ServerEnabled(v, Webhooks(step))
    ensures var t := ServerApply(v, Webhooks(step));
            && t.live.reg == v.live.reg && t.live.groups == v.live.groups
            && (!step.Restart? ==> t.live == v.live.(announced := t.live.announced, log := t.live.log))
            && (step.Restart? ==> t.live.net == EmptyNet && t.live.pending == map[] && t.dsp.rows == v.dsp.rows)
  {
    ServerBooksOk(v);
    ProgressedOnlyLogs(v.live, Told(v.dsp, step));
    if step.Restart? { DSt.ResumeQueues(v.dsp, 0); }
  }

  lemma {:induction false} ProgressedOnlyLogs(l: Live, wamids: seq<string>)
    ensures var t := Progressed(l, wamids); t == l.(announced := t.announced, log := t.log)
  {
    if wamids != [] {
      ProgressedOnlyLogs(l, wamids[..|wamids| - 1]);
      NoteTalk(Progressed(l, wamids[..|wamids| - 1]), WebhookProgress(wamids[|wamids| - 1]));
    }
  }

  /** The session and the customer a frame of a tab names. */
  function ActsFor(st: LiveStep): Option<(nat, string)> {
    match st
    case Talking(SendFrame(sid, number, _, _, _, _)) => Some((sid, number))
    case Talking(ReadFrame(sid, number, _, _)) => Some((sid, number))
    case Switching(PresenceFrame(sid, number, _, _)) => Some((sid, number))
    case Switching(AutoReplyFrame(sid, number, _)) => Some((sid, number))
    case _ => None
  }

  /** A frame that names a customer outside the group its session holds leaves store, webhooks and sessions as they are. */
  lemma StrangersAreLeftAlone(v: Server, st: LiveStep)
    requires ServerReachable(v) && ServerEnabled(v, Outside(st))
    requires ActsFor(st).Some? && !OwnsNumber(v.live, ActsFor(st).value.0, ActsFor(st).value.1)
    ensures var t := ServerApply(v, Outside(st)); t.live.reg == v.live.reg && t.live.net == v.live.net && t.dsp == v.dsp
  {
    ServerSound(v);
    OwnTileIs(v.live, ActsFor(st).value.0, ActsFor(st).value.1);
    NoCallsForStrangers(v.live, st);
    assert E.DoAll(Books(v), []) == Books(v);
  }

  lemma ServerSound(v: Server)
    requires ServerReachable(v)
    ensures CustomersOnce(v.live.reg.customers)
  {
    ServerKeepsBooks(v);
  }

  lemma NoCallsForStrangers(l: Live, st: LiveStep)
    requires LiveEnabled(l, st) && ActsFor(st).Some? && ActsFor(st).value.0 in l.net.sessions
    requires !OwnTile(l, ActsFor(st).value.0, ActsFor(st).value.1)
    ensures CallsOf(l, st) == [] && LiveApply(l, st) == SendTab(l, ActsFor(st).value.0, Other)
  {}

  // ---- the log ----

  /**
   In every run of the whole server, across restarts and with everything the dispatcher reports: between two resets an
   admin's log has one entry per message, then only updates.
   */
  lemma OneEntryPerMessage(v: Server, j: nat)
    requires ServerReachable(v) && j < |v.live.log| && (v.live.log[j].LogEntry? || v.live.log[j].LogUpdate?)
    ensures v.live.log[j].LogUpdate? <==>
            exists i :: 0 <= i < j && v.live.log[i] == LogEntry(v.live.log[j].wamid) && NoReset(v.live.log, i, j)
  {
    ServerKeepsBooks(v);
    EntryThenUpdates(v.live, j);
  }

  lemma {:induction false} ProgressedCounts(l: Live, wamids: seq<string>, w: string)
    ensures var t := Progressed(l, wamids);
            && t.admins == l.admins && t.reg == l.reg
            && CountAbout(t.log, w) == CountAbout(l.log, w)
                                       + if l.admins != {} && GetMessage(l.reg.messages, w).Some? then Times(wamids, w) else 0
  {
    if wamids != [] {
      var n := |wamids| - 1;
      ProgressedCounts(l, wamids[..n], w);
      NoteLogged(Progressed(l, wamids[..n]), WebhookProgress(wamids[n]), w);
    }
  }

  /**
   While an admin listens, a step of the dispatcher broadcasts one change of a message for an attempt of one of its
   webhooks that was recorded, a second one if the webhook ended with it, and nothing about any other message.
   */
  lemma ProgressIsLogged(v: Server, step: D.Step, w: string)
    requires ServerReachable(v) && ServerEnabled(v, Webhooks(step)) && !step.Restart? && v.live.admins != {}
    ensures Heard(v.dsp, D.Apply(v.dsp, step), w, CountAbout(ServerApply(v, Webhooks(step)).live.log, w) - CountAbout(v.live.log, w))
  {
    ServerBooksOk(v);
    if GetMessage(v.live.reg.messages, w).None? { NoWebhooks(v.live.reg, v.dsp.rows.jobs, w); }
    ProgressHeard(v.live, v.dsp, step, w);
  }

  lemma ProgressHeard(l: Live, d: D.State, step: D.Step, w: string)
    requires DR.Inv(d) && D.Enabled(d, step) && !step.Enqueue? && l.admins != {}
    requires GetMessage(l.reg.messages, w).None? ==> forall i | 0 <= i < |d.rows.jobs| :: d.rows.jobs[i].wamid != w
    ensures Heard(d, D.Apply(d, step), w, CountAbout(Progressed(l, Told(d, step)).log, w) - CountAbout(l.log, w))
  {
    ProgressedCounts(l, Told(d, step), w);
    if step.Respond? { AnswerHeard(d, step.k, step.reply, step.now, w); } else { OthersUnheard(d, step, w); }
  }

  /** A message that is gone has no webhooks. */
  lemma NoWebhooks(reg: Reg, jobs: seq<Job>, w: string)
    requires Conserved(reg, Hooks(jobs)) && GetMessage(reg.messages, w).None?
    ensures forall i | 0 <= i < |jobs| :: jobs[i].wamid != w
  {
    var hs := Hooks(jobs);
    forall i | 0 <= i < |jobs| ensures jobs[i].wamid != w {
      assert hs[i] in hs;
      HookMessage(reg, hs, hs[i]);
    }
  }
}
