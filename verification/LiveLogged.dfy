/**
 The log feed is exact: while an admin listens, each message that is new or changed after a callback has exactly one
 frame in it, no other message has any, and nothing is broadcast when nobody listens.
 */
module LiveLogged {
  import opened Prelude
  import opened JobStore
  import opened Registry
  import opened Lifecycle
  import opened Conservation
  import opened StoreGroups
  import opened Sessions
  import opened Live
  import opened LiveNet
  import opened LiveQueue
  import opened LiveTabs

  predicate About(f: LogFrame, wamid: string) { (f.LogEntry? || f.LogUpdate?) && f.wamid == wamid }

  /** How many frames are about this message. */
  function CountAbout(log: seq<LogFrame>, wamid: string): nat {
    if log == [] then 0 else CountAbout(log[..|log| - 1], wamid) + if About(log[|log| - 1], wamid) then 1 else 0
  }

  lemma CountAppend(log: seq<LogFrame>, f: LogFrame, wamid: string)
    ensures CountAbout(log + [f], wamid) == CountAbout(log, wamid) + if About(f, wamid) then 1 else 0
  {
    assert (log + [f])[..|log|] == log;
  }

  /** The message at this place is new or changed. */
  predicate Touched(ms: seq<Message>, ns: seq<Message>, i: nat)
    requires i < |ns|
  {
    i >= |ms| || ns[i] != ms[i]
  }

  /** From `a` to `b` there is one frame more about each touched message, and none about any other. */
  ghost predicate OneEach(a: seq<LogFrame>, b: seq<LogFrame>, ms: seq<Message>, ns: seq<Message>) {
    && |ns| >= |ms|
    && (forall i | 0 <= i < |ns| :: CountAbout(b, ns[i].wamid) == CountAbout(a, ns[i].wamid) + if Touched(ms, ns, i) then 1 else 0)
    && (forall w | (forall m | m in ns :: m.wamid != w) :: CountAbout(b, w) == CountAbout(a, w))
  }

  /** The log of `t` is that of `l`, with one frame more for each message touched on the way if anybody listened. */
  ghost predicate Logged(l: Live, t: Live) {
    t.admins == l.admins && if l.admins == {} then t.log == l.log else OneEach(l.log, t.log, l.reg.messages, t.reg.messages)
  }

  /** Nothing about messages happened. */
  lemma LoggedSame(l: Live, t: Live)
    requires RegOk(l.reg) && t.log == l.log && t.admins == l.admins && t.reg.messages == l.reg.messages
    ensures Logged(l, t)
  {}

  /** Callers that prepare with something else than messages. */
  lemma LoggedFrom(l: Live, l1: Live, t: Live)
    requires Logged(l1, t) && l1.log == l.log && l1.admins == l.admins && l1.reg.messages == l.reg.messages
    ensures Logged(l, t)
  {}

  lemma LoggedTo(l: Live, t: Live, t1: Live)
    requires Logged(l, t) && t1.log == t.log && t1.admins == t.admins && t1.reg.messages == t.reg.messages
    ensures Logged(l, t1)
  {}

  /** No message is touched twice. */
  ghost predicate TouchedOnce(ms: seq<Message>, ns: seq<Message>, us: seq<Message>) {
    && |ms| <= |ns| <= |us|
    && (forall i | 0 <= i < |ns| :: us[i].wamid == ns[i].wamid && (Touched(ms, ns, i) ==> us[i] == ns[i]))
    && (forall i | 0 <= i < |ms| :: ns[i] == ms[i] || us[i] != ms[i])
  }

  lemma OneEachTrans(a: seq<LogFrame>, b: seq<LogFrame>, c: seq<LogFrame>, ms: seq<Message>, ns: seq<Message>, us: seq<Message>)
    requires OneEach(a, b, ms, ns) && OneEach(b, c, ns, us) && TouchedOnce(ms, ns, us) && Unique(us)
    ensures OneEach(a, c, ms, us)
  {
    forall i | 0 <= i < |us| ensures CountAbout(c, us[i].wamid) == CountAbout(a, us[i].wamid) + if Touched(ms, us, i) then 1 else 0 {
      if i < |ns| {
        assert us[i].wamid == ns[i].wamid;
      } else {
        forall m | m in ns ensures m.wamid != us[i].wamid {
          var j :| 0 <= j < |ns| && ns[j] == m;
          assert us[j].wamid == m.wamid;
        }
      }
    }
    forall w | (forall m | m in us :: m.wamid != w) ensures CountAbout(c, w) == CountAbout(a, w) {
      forall m | m in ns ensures m.wamid != w {
        var j :| 0 <= j < |ns| && ns[j] == m;
        assert us[j] in us;
      }
    }
  }

  // ---- emitting ----

  /** How often these events announce a change of this message. */
  function Mentions(es: seq<BusEvent>, wamid: string): nat {
    if es == [] then 0 else Mentions(es[..|es| - 1], wamid) + if es[|es| - 1] == LogChanged(wamid) then 1 else 0
  }

  lemma EmitAdds(l: Live, e: BusEvent, w: string)
    ensures var t := Emit(l, e);
            && t.admins == l.admins && t.reg == l.reg && (l.admins == {} ==> t.log == l.log)
            && CountAbout(t.log, w) == CountAbout(l.log, w)
                                       + if e == LogChanged(w) && l.admins != {} && GetMessage(l.reg.messages, w).Some? then 1 else 0
  {
    if e.LogChanged? { LogToAdds(l, e.wamid, w); }
  }

  lemma LogToAdds(l: Live, wamid: string, w: string)
    ensures var t := LogTo(l, wamid);
            && t.admins == l.admins && t.reg == l.reg && (l.admins == {} ==> t.log == l.log)
            && CountAbout(t.log, w) == CountAbout(l.log, w)
                                       + if wamid == w && l.admins != {} && GetMessage(l.reg.messages, w).Some? then 1 else 0
  {
    CountAppend(l.log, if wamid in l.announced then LogUpdate(wamid) else LogEntry(wamid), w);
  }

  lemma {:induction false} EmitAllAdds(l: Live, es: seq<BusEvent>, w: string)
    ensures var t := EmitAll(l, es);
            && t.admins == l.admins && t.reg == l.reg && (l.admins == {} ==> t.log == l.log)
            && CountAbout(t.log, w) == CountAbout(l.log, w)
                                       + if l.admins != {} && GetMessage(l.reg.messages, w).Some? then Mentions(es, w) else 0
  {
    if es != [] {
      EmitAllAdds(l, es[..|es| - 1], w);
      EmitAdds(EmitAll(l, es[..|es| - 1]), es[|es| - 1], w);
    }
  }

  /** The effect announces each message it adds or changes once, and no other. */
  ghost predicate Announces(reg: Reg, e: Effect) {
    && |e.reg.messages| >= |reg.messages|
    && forall i | 0 <= i < |e.reg.messages| ::
         Mentions(e.events, e.reg.messages[i].wamid) == if Touched(reg.messages, e.reg.messages, i) then 1 else 0
  }

  lemma HappenedLogged(l: Live, e: Effect)
    requires Announces(l.reg, e)
    ensures Logged(l, Happened(l, e))
  {
    var t := Happened(l, e);
    HappenedAdds(l, e, "");
    if l.admins != {} {
      forall i | 0 <= i < |e.reg.messages|
        ensures CountAbout(t.log, e.reg.messages[i].wamid)
             == CountAbout(l.log, e.reg.messages[i].wamid) + if Touched(l.reg.messages, e.reg.messages, i) then 1 else 0
      {
        assert e.reg.messages[i] in e.reg.messages;
        HappenedAdds(l, e, e.reg.messages[i].wamid);
      }
      forall w | (forall m | m in e.reg.messages :: m.wamid != w) ensures CountAbout(t.log, w) == CountAbout(l.log, w) { HappenedAdds(l, e, w); }
    }
  }

  lemma HappenedAdds(l: Live, e: Effect, w: string)
    ensures var t := Happened(l, e);
            && t.admins == l.admins && t.reg == e.reg && (l.admins == {} ==> t.log == l.log)
            && CountAbout(t.log, w) == CountAbout(l.log, w)
                                       + if l.admins != {} && GetMessage(e.reg.messages, w).Some? then Mentions(e.events, w) else 0
  {
    EmitAllAdds(l.(reg := e.reg), e.events, w);
  }

  // ---- what each call announces ----

  lemma CountTwo(es: seq<BusEvent>, a: BusEvent, b: BusEvent, w: string)
    ensures Mentions(es + [a, b], w) == Mentions(es, w) + (if a == LogChanged(w) then 1 else 0) + (if b == LogChanged(w) then 1 else 0)
  {
    var all := es + [a, b];
    assert all[..|all| - 1] == es + [a] && (es + [a])[..|es|] == es;
  }

  lemma {:induction false} AnnouncedOnce(todo: seq<Message>, st: Status, at: int, w: string)
    requires Unique(todo)
    ensures Mentions(Announcements(todo, st, at), w) == if w in Wamids(todo) then 1 else 0
  {
    if todo != [] {
      var n := |todo| - 1;
      AnnouncedOnce(todo[..n], st, at, w);
      LastWamid(todo, w);
      CountTwo(Announcements(todo[..n], st, at), StatusChanged(todo[n].wamid, todo[n].customer, st, at), LogChanged(todo[n].wamid), w);
    }
  }

  lemma MarkedAnnounces(reg: Reg, todo: seq<Message>, kind: JobKind, st: Status, at: int, e: Effect)
    requires RegOk(reg) && ReadyFor(reg, todo, kind) && Unique(todo)
    requires e.reg == Marked(reg, todo, kind, at) && e.events == Announcements(todo, st, at)
    ensures Announces(reg, e)
  {
    forall i | 0 <= i < |e.reg.messages|
      ensures Mentions(e.events, e.reg.messages[i].wamid) == if Touched(reg.messages, e.reg.messages, i) then 1 else 0
    {
      var x := reg.messages[i];
      assert x in reg.messages;
      InTodo(reg, todo, x);
      AnnouncedOnce(todo, st, at, x.wamid);
    }
  }

  lemma DeliveredAnnounces(reg: Reg, msgs: seq<Message>, now: int)
    requires RegOk(reg) && AllRegistered(reg, reg.businesses) && Copies(reg, msgs) && Unique(DeliveredTodo(reg, msgs))
    ensures Announces(reg, DeliveredCall(reg, msgs, now))
  {
    var todo := DeliveredTodo(reg, msgs);
    DeliveredEffect(reg, msgs, now);
    if todo != [] { MarkedAnnounces(reg, todo, Delivered, WasDelivered, now, DeliveredCall(reg, msgs, now)); }
  }

  lemma ReadAnnounces(reg: Reg, customer: string, peer: string, now: int)
    requires RegOk(reg)
    ensures Announces(reg, ReadCall(reg, customer, peer, now))
  {
    match GetBusiness(reg.businesses, peer)
    case None =>
    case Some(b) =>
      var todo := UnreadDelivered(reg, customer, b.phone);
      ReadEffect(reg, customer, peer, b, now);
      UnreadDeliveredIs(reg, customer, b.phone);
      if todo != [] { MarkedAnnounces(reg, todo, JobKind.Read, WasRead, now, ReadCall(reg, customer, peer, now)); }
  }

  lemma MarkInboundAnnounces(reg: Reg, phone: string, wamid: string, now: int)
    requires RegOk(reg)
    ensures Announces(reg, MarkInboundRead(reg, phone, wamid, now))
  {
    var e := MarkInboundRead(reg, phone, wamid, now);
    if e.events != [] {
      var m := GetMessage(reg.messages, wamid).value;
      assert e.events == [] + [StatusChanged(wamid, m.customer, WasRead, now), LogChanged(wamid)];
      forall i | 0 <= i < |e.reg.messages|
        ensures Mentions(e.events, e.reg.messages[i].wamid) == if Touched(reg.messages, e.reg.messages, i) then 1 else 0
      {
        assert reg.messages[i] in reg.messages;
        CountTwo([], StatusChanged(wamid, m.customer, WasRead, now), LogChanged(wamid), reg.messages[i].wamid);
        if reg.messages[i].wamid == wamid { SameWamid(reg, reg.messages[i], m); }
      }
    }
  }

  lemma StoredAnnounces(reg: Reg, e: Effect, m: Message)
    requires e.reg.messages == reg.messages + [m] && Fresh(reg, m.wamid)
    requires forall w :: Mentions(e.events, w) == if w == m.wamid then 1 else 0
    ensures Announces(reg, e)
  {
    forall i | 0 <= i < |reg.messages| ensures reg.messages[i].wamid != m.wamid { assert reg.messages[i] in reg.messages; }
  }

  lemma InboundAnnounces(reg: Reg, sender: string, to: string, body: string, wamid: string, now: int)
    requires Fresh(reg, wamid)
    ensures Announces(reg, InboundCall(reg, sender, to, body, wamid, now))
  {
    var e := InboundCall(reg, sender, to, body, wamid, now);
    if e.error.None? {
      var m := e.reg.messages[|reg.messages|];
      assert e.events == [] + [e.events[0], e.events[1]];
      forall w ensures Mentions(e.events, w) == if w == m.wamid then 1 else 0 { CountTwo([], e.events[0], e.events[1], w); }
      StoredAnnounces(reg, e, m);
    }
  }

  lemma AcceptAnnounces(reg: Reg, phone: string, customer: string, text: string, wamid: string, delay: nat, now: int)
    requires Registered(reg, phone) && Fresh(reg, wamid)
    ensures Announces(reg, Accepted(reg, phone, customer, text, wamid, delay, now))
  {
    var e := Accepted(reg, phone, customer, text, wamid, delay, now);
    assert e.events[..0] == [];
    StoredAnnounces(reg, e, e.reg.messages[|reg.messages|]);
  }

  // ---- the steps that touch messages ----

  lemma PushLogged(l: Live, number: string, f: TabFrame, ms: seq<Message>, now: int)
    requires RegOk(l.reg) && AllRegistered(l.reg, l.reg.businesses) && Copies(l.reg, ms) && Unique(DeliveredTodo(l.reg, ms))
    ensures Logged(l, PushAndMark(l, number, f, ms, now))
  {
    DeliveredAnnounces(l.reg, ms, now);
    HappenedLogged(SendTile(l, number, f), DeliveredCall(l.reg, ms, now));
    LoggedFrom(l, SendTile(l, number, f), PushAndMark(l, number, f, ms, now));
  }

  /** A queue is handed over without repetition. */
  lemma QueueOnce(reg: Reg, number: string)
    requires RegOk(reg)
    ensures Copies(reg, QueuedFor(reg, number)) && Unique(DeliveredTodo(reg, QueuedFor(reg, number)))
  {
    QueueDelivered(reg, number, 0);
    QueuedForIs(reg, number);
    TodoUnique(reg, QueuedFor(reg, number));
  }

  lemma {:induction false} UndeliveredUnique(reg: Reg, msgs: seq<Message>)
    requires Unique(msgs)
    ensures Unique(Undelivered(reg, msgs)) && forall x | x in Undelivered(reg, msgs) :: exists m :: m in msgs && m.wamid == x.wamid
  {
    if msgs != [] {
      var n := |msgs| - 1;
      var rest := Undelivered(reg, msgs[..n]);
      UndeliveredUnique(reg, msgs[..n]);
      assert msgs == msgs[..n] + [msgs[n]];
      forall j | 0 <= j < |rest| ensures rest[j].wamid != msgs[n].wamid {
        assert rest[j] in rest;
        var m :| m in msgs[..n] && m.wamid == rest[j].wamid;
        var k :| 0 <= k < n && msgs[k] == m;
      }
    }
  }

  lemma TodoUnique(reg: Reg, msgs: seq<Message>)
    requires Unique(msgs)
    ensures Unique(DeliveredTodo(reg, msgs))
  {
    UndeliveredUnique(reg, msgs);
    SortUnique(Undelivered(reg, msgs));
  }

  lemma FlushLogged(l: Live, number: string, now: int)
    requires RegOk(l.reg) && AllRegistered(l.reg, l.reg.businesses)
    ensures Logged(l, FlushTile(l, number, now)) && Logged(l, DeliverTile(l, number, now))
  {
    var q := QueuedFor(l.reg, number);
    QueueOnce(l.reg, number);
    PushLogged(l, number, QueueFlush(Bubbles(q)), q, now);
    DeliveredAnnounces(l.reg, q, now);
    HappenedLogged(l, DeliveredCall(l.reg, q, now));
    LoggedSame(l, l);
  }

  /** Two deliveries, one after the other, touch no message twice. */
  lemma DeliveriesOnce(reg: Reg, t: Reg, u: Reg)
    requires Delivering(reg, t) && Delivering(t, u)
    ensures TouchedOnce(reg.messages, t.messages, u.messages) && Delivering(reg, u)
  {}

  /** Only messages that waited changed, and only by a delivered time. */
  ghost predicate Delivering(reg: Reg, t: Reg) {
    && |t.messages| == |reg.messages|
    && forall i | 0 <= i < |reg.messages| ::
         t.messages[i] == reg.messages[i]
         || (reg.messages[i].deliveredAt.None? && t.messages[i].deliveredAt.Some?
             && t.messages[i] == reg.messages[i].(deliveredAt := t.messages[i].deliveredAt))
  }

  lemma QueueDelivering(reg: Reg, msgs: seq<Message>, now: int)
    ensures Delivering(reg, DeliveredCall(reg, msgs, now).reg)
  {}

  lemma {:induction false} TilesLogged(l: Live, tiles: seq<string>, now: int)
    requires RegOk(l.reg) && AllRegistered(l.reg, l.reg.businesses)
    ensures Logged(l, DeliverTiles(l, tiles, now)) && Delivering(l.reg, DeliverTiles(l, tiles, now).reg)
  {
    if tiles == [] {
      LoggedSame(l, l);
    } else {
      var n := |tiles| - 1;
      var l1 := DeliverTiles(l, tiles[..n], now);
      TilesLogged(l, tiles[..n], now);
      TilesDelivered(l, tiles[..n], now);
      DeliverTilesTalk(l, tiles[..n], now);
      LastTileLogged(l, l1, tiles[n], now);
    }
  }

  lemma LastTileLogged(l: Live, l1: Live, number: string, now: int)
    requires RegOk(l.reg) && AllRegistered(l.reg, l.reg.businesses) && Aged(l.reg, l1.reg) && l1.reg.businesses == l.reg.businesses
    requires Logged(l, l1) && Delivering(l.reg, l1.reg)
    ensures Logged(l, DeliverTile(l1, number, now)) && Delivering(l.reg, DeliverTile(l1, number, now).reg)
  {
    var t := DeliverTile(l1, number, now);
    forall m | m in l1.reg.messages ensures GetBusiness(l1.reg.businesses, m.phone).Some? { var x := AgedMessage(l.reg, l1.reg, m); }
    FlushLogged(l1, number, now);
    DeliverTileReg(l1, number, now);
    QueueDelivering(l1.reg, QueuedFor(l1.reg, number), now);
    QueueDelivered(l1.reg, number, now);
    DeliveriesOnce(l.reg, l1.reg, t.reg);
    if l.admins != {} { OneEachTrans(l.log, l1.log, t.log, l.reg.messages, l1.reg.messages, t.reg.messages); }
  }

  lemma TakenLogged(l: Live, sid: nat, g: string, now: int)
    requires StoreOk(l) && sid in l.net.sessions
    ensures Logged(l, TakeGroup(l, sid, g, now))
  {
    var l0 := l.(net := Claimed(l.net, sid, g, now));
    var l1 := SendSnapshot(l0, sid, g);
    SnapshotTalk(l0, sid, g);
    TilesLogged(l1, TilesOf(l1.reg.customers, g), now);
    LoggedFrom(l, l1, DeliverTiles(l1, TilesOf(l1.reg.customers, g), now));
  }

  lemma ClaimLogged(l: Live, sid: nat, g: string, now: int)
    requires StoreOk(l) && sid in l.net.sessions
    ensures Logged(l, ClaimGroup(l, sid, g, now))
  {
    if CanTake(l, sid, g) {
      var t := TakeGroup(l, sid, g, now);
      TakenLogged(l, sid, g, now);
      LockChangedNet(t);
      LoggedTo(l, t, LockChanged(t));
    } else {
      LoggedSame(l, SendTab(l, sid, Other));
    }
  }

  lemma PresenceLogged(l: Live, number: string, online: bool, now: int)
    requires StoreOk(l)
    ensures Logged(l, SetPresence(l, number, online, now))
  {
    var cs := WithOnline(l.reg.customers, number, online);
    var l1 := NumbersChanged(l.(reg := l.reg.(customers := cs)));
    var l2 := SendTile(l1, number, Other);
    LoggedSame(l, l1);
    LoggedSame(l, l2);
    NumbersOk(l.reg, l.reg.businesses, cs);
    FlushLogged(l2, number, now);
    LoggedFrom(l, l2, FlushTile(l2, number, now));
  }

  lemma OneUnique(reg: Reg, p: Message)
    ensures Unique(DeliveredTodo(reg, [p]))
  {
    TodoUnique(reg, [p]);
  }

  lemma FinishedLogged(l: Live, w: string, now: int)
    requires StoreOk(l) && w in l.pending
    ensures Logged(l, ResponseFinished(l, w, now))
  {
    var p := l.pending[w];
    var l0 := NoteLate(l.(pending := l.pending - {w}), p);
    PendingCopies(l, w);
    OneUnique(l.reg, p);
    LoggedSame(l, l0);
    PushLogged(l0, p.customer, NewBubble(BubbleOf(p)), [p], now);
    LoggedFrom(l, l0, PushAndMark(l0, p.customer, NewBubble(BubbleOf(p)), [p], now));
  }

  lemma AcceptLogged(l: Live, phone: string, customer: string, text: string, wamid: string, delay: nat, now: int)
    requires Registered(l.reg, phone) && Fresh(l.reg, wamid)
    ensures Logged(l, AcceptSend(l, phone, customer, text, wamid, delay, now))
  {
    var l1 := l.(pending := l.pending[wamid := MessageOf(l.reg, Draft(wamid, ToCustomer, phone, customer, text, now))]);
    var e := Accepted(l.reg, phone, customer, text, wamid, delay, now);
    AcceptAnnounces(l.reg, phone, customer, text, wamid, delay, now);
    HappenedLogged(l1, e);
    LoggedFrom(l, l1, Happened(l1, e));
  }

  lemma SendLogged(l: Live, sid: nat, number: string, to: string, body: string, wamid: string, now: int)
    requires RegOk(l.reg) && sid in l.net.sessions && Fresh(l.reg, wamid)
    ensures Logged(l, SendMessage(l, sid, number, to, body, wamid, now))
  {
    LoggedSame(l, SendTab(l, sid, Other));
    if GetBusiness(l.reg.businesses, to).Some? { InboundLogged(l, number, GetBusiness(l.reg.businesses, to).value.phone, body, wamid, now); }
  }

  lemma InboundLogged(l: Live, sender: string, to: string, body: string, wamid: string, now: int)
    requires Fresh(l.reg, wamid)
    ensures Logged(l, Happened(l, InboundCall(l.reg, sender, to, body, wamid, now)))
  {
    InboundAnnounces(l.reg, sender, to, body, wamid, now);
    HappenedLogged(l, InboundCall(l.reg, sender, to, body, wamid, now));
  }

  lemma ReadLogged(l: Live, sid: nat, number: string, peer: string, now: int)
    requires RegOk(l.reg) && sid in l.net.sessions
    ensures Logged(l, ReadChat(l, sid, number, peer, now))
  {
    LoggedSame(l, SendTab(l, sid, Other));
    LoggedSame(l, l);
    if GetBusiness(l.reg.businesses, peer).Some? {
      ReadAnnounces(l.reg, number, GetBusiness(l.reg.businesses, peer).value.phone, now);
      HappenedLogged(l, ReadCall(l.reg, number, GetBusiness(l.reg.businesses, peer).value.phone, now));
    }
  }

  lemma TalkingLogged(l: Live, st: TalkStep)
    requires StoreOk(l) && TalkEnabled(l, st)
    ensures Logged(l, TalkApply(l, st))
  {
    match st
    case SendFrame(sid, number, to, body, wamid, now) => SendLogged(l, sid, number, to, body, wamid, now);
    case ReadFrame(sid, number, peer, now) => ReadLogged(l, sid, number, peer, now);
    case HttpSend(phone, customer, text, wamid, delay, now) => AcceptLogged(l, phone, customer, text, wamid, delay, now);
    case HttpFinished(wamid, now) => FinishedLogged(l, wamid, now);
    case HttpRead(phone, wamid, now) =>
      MarkInboundAnnounces(l.reg, phone, wamid, now);
      HappenedLogged(l, MarkInboundRead(l.reg, phone, wamid, now));
    case Inject(sender, to, body, wamid, now) => InboundLogged(l, sender, to, body, wamid, now);
    case AutoReply(customer, to, body, wamid, now) =>
      LoggedSame(l, l);
      InboundLogged(l, customer, to, body, wamid, now);
  }

  lemma ModeLogged(l: Live, number: string, mode: ReplyMode)
    requires RegOk(l.reg)
    ensures Logged(l, SetAutoReply(l, number, mode)) && Logged(l, NumbersChanged(SetAutoReply(l, number, mode)))
  {
    LoggedSame(l, SetAutoReply(l, number, mode));
    LoggedSame(l, NumbersChanged(SetAutoReply(l, number, mode)));
  }

  lemma SwitchLogged(l: Live, st: SwitchStep)
    requires StoreOk(l) && SwitchEnabled(l, st)
    ensures Logged(l, SwitchApply(l, st))
  {
    LoggedSame(l, l);
    match st
    case PresenceFrame(sid, number, online, now) =>
      LoggedSame(l, SendTab(l, sid, Other));
      PresenceLogged(l, number, online, now);
    case ApiPresence(number, online, now) => PresenceLogged(l, number, online, now);
    case AutoReplyFrame(sid, number, mode) =>
      LoggedSame(l, SendTab(l, sid, Other));
      ModeLogged(l, number, mode);
    case ApiAutoReply(number, mode) => ModeLogged(l, number, mode);
  }

  /** Callbacks about sessions change the set of listeners, and only a claim changes messages. */
  lemma LinkingLogged(l: Live, st: LinkStep)
    requires StoreOk(l) && LinkEnabled(l, st)
    ensures st.ClaimFrame? ==> Logged(l, LinkApply(l, st))
    ensures !st.ClaimFrame? ==> LinkApply(l, st).reg == l.reg && LinkApply(l, st).log == l.log
  {
    match st
    case ClaimFrame(sid, g, now) => ClaimLogged(l, sid, g, now);
    case SocketEnds(sid, final) => GoneIs(l, sid, final);
    case _ =>
  }

  /** Requests about the tables: a reset empties store and log feed, the others touch no message. */
  lemma TableLogged(l: Live, st: TableStep)
    requires NetOk(l) && TableEnabled(l, st)
    ensures st.ApiReset? ==> TableApply(l, st).reg.messages == [] && TableApply(l, st).log == l.log + [LogReset]
    ensures !st.ApiReset? ==> TableApply(l, st).reg.messages == l.reg.messages && TableApply(l, st).log == l.log
  {
    if st.ApiReset? {
      WipeReg(l, st.keep, st.holders);
      WipeLog(l, st.keep, st.holders);
    }
  }

  lemma {:induction false} RefreshLog(l: Live, holders: seq<(string, nat)>, keep: bool)
    ensures RefreshAll(l, holders, keep).log == l.log
  {
    if holders != [] {
      var n := |holders| - 1;
      var l1 := RefreshAll(l, holders[..n], keep);
      RefreshLog(l, holders[..n], keep);
      RefreshOneLog(l1, holders[n].0, holders[n].1, keep);
    }
  }

  lemma RefreshOneLog(l: Live, g: string, sid: nat, keep: bool)
    ensures RefreshOne(l, g, sid, keep).log == l.log
  {
    if sid in l.net.sessions && !(keep && g in l.groups) { DisconnectNet(SendTab(l, sid, Other), sid); }
  }

  lemma WipeLog(l: Live, keep: bool, holders: seq<(string, nat)>)
    ensures WipeAll(l, keep, holders).log == l.log + [LogReset]
  {
    var l1 := l.(reg := WipedReg(l.reg, keep), groups := if keep then l.groups else []);
    ResetFeedNet(l1);
    RefreshLog(ResetFeed(l1), holders, keep);
  }

  /** What only the log shows: one frame if anybody listens, and if the message is still there. */
  lemma NoteLogged(l: Live, st: NoteStep, w: string)
    ensures var t := NoteApply(l, st);
            && t.reg == l.reg && t.admins == l.admins
            && CountAbout(t.log, w) == CountAbout(l.log, w)
                                       + if l.admins != {} && st == WebhookProgress(w) && GetMessage(l.reg.messages, w).Some? then 1 else 0
    ensures st.RequestRejected? ==> NoteApply(l, st).log == if l.admins == {} then l.log else l.log + [RejectedEntry(st.at)]
  {
    match st
    case WebhookProgress(wamid) => EmitAdds(l, LogChanged(wamid), w);
    case RequestRejected(at) => CountAppend(l.log, RejectedEntry(at), w);
  }

  /**
   The log feed of one callback, exactly: while an admin listens, one frame for each message that is new or changed,
   none about any other; a reset is its own mark; what webhooks report and what was refused adds one frame each.
   */
  ghost predicate LogTells(l: Live, st: LiveStep, t: Live) {
    match st
    case Arranging(ApiReset(_, _)) => t.log == l.log + [LogReset]
    case Logging(RequestRejected(at)) => t.log == if l.admins == {} then l.log else l.log + [RejectedEntry(at)]
    case Logging(WebhookProgress(wamid)) =>
      forall w :: CountAbout(t.log, w) == CountAbout(l.log, w)
                                          + if l.admins != {} && w == wamid && GetMessage(l.reg.messages, w).Some? then 1 else 0
    case _ => if l.admins == {} then t.log == l.log else OneEach(l.log, t.log, l.reg.messages, t.reg.messages)
  }

  lemma ChangesAreLogged(l: Live, st: LiveStep)
    requires StoreOk(l) && NetOk(l) && LiveEnabled(l, st)
    ensures LogTells(l, st, LiveApply(l, st))
  {
    match st
    case Linking(s) => LinkingLogged(l, s);
    case Talking(s) => TalkingLogged(l, s);
    case Switching(s) => SwitchLogged(l, s);
    case Arranging(s) => TableLogged(l, s);
    case Logging(s) => forall w ensures CountAbout(NoteApply(l, s).log, w) == CountAbout(l.log, w)
                                          + if l.admins != {} && s == WebhookProgress(w) && GetMessage(l.reg.messages, w).Some? then 1 else 0
                       {
                         NoteLogged(l, s, w);
                       }
                       NoteLogged(l, s, "");
  }
}
