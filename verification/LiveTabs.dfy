/** A group's tab is a mirror: every bubble shows the status the store has, and no delivered message is missing. */
module LiveTabs {
  import opened Prelude
  import opened JobStore
  import opened Registry
  import opened Lifecycle
  import opened Conservation
  import opened StoreGroups
  import opened Sessions
  import opened Live
  import opened LiveNet
  import opened LiveQueue

  /** The status a tab may show for `m`: the stored one, or `sent` if a late copy put the bubble back. */
  predicate Fair(m: Message, shown: Status, stale: set<string>) {
    shown == StatusOf(m) || (m.wamid in stale && shown == WasSent)
  }

  /** What `view` tells about `m`; what it does not show was left out of the last snapshot or still waits. */
  predicate Tells(m: Message, view: map<string, Status>, hidden: set<string>, stale: set<string>) {
    if m.wamid in view then Fair(m, view[m.wamid], stale) else m.wamid in hidden || Waiting(m)
  }

  /** A tab of group `g` showing `view` tells the truth about every message of the group. */
  ghost predicate Mirrors(reg: Reg, g: string, view: map<string, Status>, hidden: set<string>, stale: set<string>) {
    forall m | m in reg.messages && InGroup(reg, m, g) :: Tells(m, view, hidden, stale)
  }

  ghost predicate TabOk(l: Live, sid: nat, g: string) {
    Mirrors(l.reg, g, View(Tab(l, sid)), Hidden(l, sid), Stale(l, sid))
  }

  ghost predicate TabsOk(l: Live) {
    forall sid: nat, g: string | Indexed(l.net, sid, g) && Open(l, sid) :: TabOk(l, sid, g)
  }

  // ---- ticks ----

  predicate TickedFor(l: Live, todo: seq<Message>, sid: nat, w: string) {
    exists m | m in todo :: m.wamid == w && SessionFor(l, m.customer) == Some(sid)
  }

  /** `v` after a status tick for some of its bubbles. */
  ghost predicate AfterTicks(v: map<string, Status>, v': map<string, Status>, l: Live, todo: seq<Message>, sid: nat, st: Status) {
    v'.Keys == v.Keys && forall w | w in v :: v'[w] == if TickedFor(l, todo, sid, w) then st else v[w]
  }

  lemma EmitTwo(l: Live, es: seq<BusEvent>, a: BusEvent, b: BusEvent)
    ensures EmitAll(l, es + [a, b]) == Emit(Emit(EmitAll(l, es), a), b)
  {
    var all := es + [a, b];
    assert all[..|all| - 1] == es + [a] && (es + [a])[..|es|] == es;
  }

  lemma SendTileView(l: Live, number: string, f: TabFrame, sid: nat)
    requires Open(l, sid)
    ensures View(Tab(SendTile(l, number, f), sid)) == if SessionFor(l, number) == Some(sid) then Folded(View(Tab(l, sid)), f) else View(Tab(l, sid))
  {
    if SessionFor(l, number) == Some(sid) { SendTabView(l, sid, f); } else { assert Tab(SendTile(l, number, f), sid) == Tab(l, sid); }
  }

  lemma SendTabView(l: Live, sid: nat, f: TabFrame)
    requires Open(l, sid)
    ensures View(Tab(SendTab(l, sid, f), sid)) == Folded(View(Tab(l, sid)), f)
  {
    ViewAppend(Tab(l, sid), f);
  }

  lemma LogToTabs(l: Live, wamid: string)
    ensures LogTo(l, wamid).tabs == l.tabs && SameMarks(l, LogTo(l, wamid))
  {}

  lemma SentTickView(l: Live, m: Message, st: Status, sid: nat)
    requires Open(l, sid)
    ensures AfterTicks(View(Tab(l, sid)), View(Tab(SendTile(l, m.customer, StatusTick(m.wamid, st)), sid)), l, [m], sid, st)
  {
    TickedOne(l, m, sid);
    SendTileView(l, m.customer, StatusTick(m.wamid, st), sid);
  }

  lemma TickOneView(l: Live, m: Message, st: Status, at: int, sid: nat)
    requires Open(l, sid)
    ensures var t := Emit(Emit(l, StatusChanged(m.wamid, m.customer, st, at)), LogChanged(m.wamid));
            AfterTicks(View(Tab(l, sid)), View(Tab(t, sid)), l, [m], sid, st) && SameMarks(l, t)
  {
    SentTickView(l, m, st, sid);
    LogToTabs(SendTile(l, m.customer, StatusTick(m.wamid, st)), m.wamid);
  }

  lemma TickedOne(l: Live, m: Message, sid: nat)
    ensures forall w :: TickedFor(l, [m], sid, w) <==> m.wamid == w && SessionFor(l, m.customer) == Some(sid)
  {
    assert m in [m];
  }

  lemma TicksTrans(v: map<string, Status>, v1: map<string, Status>, v2: map<string, Status>, l: Live, todo: seq<Message>, m: Message, sid: nat, st: Status)
    requires AfterTicks(v, v1, l, todo, sid, st) && AfterTicks(v1, v2, l, [m], sid, st)
    ensures AfterTicks(v, v2, l, todo + [m], sid, st)
  {
    forall w | w in v ensures v2[w] == if TickedFor(l, todo + [m], sid, w) then st else v[w] {
      if TickedFor(l, todo, sid, w) {
        var x :| x in todo && x.wamid == w && SessionFor(l, x.customer) == Some(sid);
        assert x in todo + [m];
      }
      if TickedFor(l, [m], sid, w) { assert m in todo + [m]; }
    }
  }

  lemma {:induction false} TicksView(l: Live, todo: seq<Message>, st: Status, at: int, sid: nat)
    requires Open(l, sid)
    ensures var t := EmitAll(l, Announcements(todo, st, at));
            && AfterTicks(View(Tab(l, sid)), View(Tab(t, sid)), l, todo, sid, st)
            && SameMarks(l, t)
  {
    if todo != [] {
      var n := |todo| - 1;
      var m := todo[n];
      var l1 := EmitAll(l, Announcements(todo[..n], st, at));
      TicksView(l, todo[..n], st, at, sid);
      EmitTwo(l, Announcements(todo[..n], st, at), StatusChanged(m.wamid, m.customer, st, at), LogChanged(m.wamid));
      EmitAllTalk(l, Announcements(todo[..n], st, at));
      LastTick(l, l1, todo[..n], m, st, at, sid);
      assert todo == todo[..n] + [m];
    }
  }

  /** One more message ticked, sessions being the same. */
  lemma LastTick(l: Live, l1: Live, todo: seq<Message>, m: Message, st: Status, at: int, sid: nat)
    requires Open(l1, sid) && l1.net == l.net && l1.reg == l.reg && SameMarks(l, l1)
    requires AfterTicks(View(Tab(l, sid)), View(Tab(l1, sid)), l, todo, sid, st)
    ensures var t := Emit(Emit(l1, StatusChanged(m.wamid, m.customer, st, at)), LogChanged(m.wamid));
            AfterTicks(View(Tab(l, sid)), View(Tab(t, sid)), l, todo + [m], sid, st) && SameMarks(l, t)
  {
    TickOneView(l1, m, st, at, sid);
    assert forall w :: TickedFor(l1, [m], sid, w) == TickedFor(l, [m], sid, w);
    var t := Emit(Emit(l1, StatusChanged(m.wamid, m.customer, st, at)), LogChanged(m.wamid));
    TicksTrans(View(Tab(l, sid)), View(Tab(l1, sid)), View(Tab(t, sid)), l, todo, m, sid, st);
  }

  /** Marking messages and ticking their bubbles keeps a tab right, if each newly delivered message has its bubble. */
  lemma TickedMirrors(l: Live, sid: nat, g: string, todo: seq<Message>, kind: JobKind, st: Status, at: int, v': map<string, Status>)
    requires RegOk(l.reg) && ReadyFor(l.reg, todo, kind) && st == (if kind.Delivered? then WasDelivered else WasRead)
    requires Indexed(l.net, sid, g) && TabOk(l, sid, g)
    requires AfterTicks(View(Tab(l, sid)), v', l, todo, sid, st)
    requires kind.Delivered? ==> forall m | m in todo && InGroup(l.reg, m, g) :: m.wamid in View(Tab(l, sid))
    ensures Mirrors(Marked(l.reg, todo, kind, at), g, v', Hidden(l, sid), Stale(l, sid))
  {
    var t := Marked(l.reg, todo, kind, at);
    forall m | m in t.messages && InGroup(t, m, g)
      ensures Tells(m, v', Hidden(l, sid), Stale(l, sid))
    {
      var i :| 0 <= i < |t.messages| && t.messages[i] == m;
      MarkedBubble(l, sid, g, todo, kind, st, at, v', i);
    }
  }

  lemma MarkedBubble(l: Live, sid: nat, g: string, todo: seq<Message>, kind: JobKind, st: Status, at: int, v': map<string, Status>, i: nat)
    requires RegOk(l.reg) && ReadyFor(l.reg, todo, kind) && st == (if kind.Delivered? then WasDelivered else WasRead)
    requires Indexed(l.net, sid, g) && TabOk(l, sid, g)
    requires AfterTicks(View(Tab(l, sid)), v', l, todo, sid, st)
    requires kind.Delivered? ==> forall m | m in todo && InGroup(l.reg, m, g) :: m.wamid in View(Tab(l, sid))
    requires i < |l.reg.messages| && InGroup(l.reg, l.reg.messages[i], g)
    ensures Tells(Marked(l.reg, todo, kind, at).messages[i], v', Hidden(l, sid), Stale(l, sid))
  {
    var x := l.reg.messages[i];
    assert x in l.reg.messages;
    InTodo(l.reg, todo, x);
    assert SessionFor(l, x.customer) == Some(sid);
    TickedIn(l, todo, sid, x);
  }

  lemma TickedIn(l: Live, todo: seq<Message>, sid: nat, x: Message)
    requires RegOk(l.reg) && x in l.reg.messages && SessionFor(l, x.customer) == Some(sid)
    requires forall m | m in todo :: m in l.reg.messages
    ensures TickedFor(l, todo, sid, x.wamid) <==> x in todo
  {
    forall y | y in todo && y.wamid == x.wamid ensures y == x { SameWamid(l.reg, x, y); }
  }

  // ---- registered businesses: no call throws half way ----

  lemma {:induction false} LeadsAll(reg: Reg, todo: seq<Message>)
    requires forall m | m in todo :: Registered(reg, m.phone)
    ensures Leading(reg, todo) == |todo|
  {
    if todo != [] { LeadsAll(reg, todo[1..]); }
  }

  lemma StatusEffectAll(reg: Reg, todo: seq<Message>, kind: JobKind, status: Status, at: int)
    requires forall m | m in todo :: Registered(reg, m.phone)
    ensures StatusEffect(reg, todo, kind, status, at) == Effect(reg, StatusRequests(reg.businesses, todo, kind, at), Announcements(todo, status, at), None)
  {
    LeadsAll(reg, todo);
    assert todo[..|todo|] == todo;
  }

  /** With every business registered, `delivered` announces all it marks. */
  lemma DeliveredEffect(reg: Reg, msgs: seq<Message>, now: int)
    requires RegOk(reg) && AllRegistered(reg, reg.businesses) && Copies(reg, msgs)
    ensures var e, todo := DeliveredCall(reg, msgs, now), DeliveredTodo(reg, msgs);
            && e.reg == (if todo == [] then reg else Marked(reg, todo, Delivered, now))
            && e.events == Announcements(todo, WasDelivered, now) && e.error.None?
            && ReadyFor(reg, todo, Delivered)
  {
    var todo := DeliveredTodo(reg, msgs);
    TodoReady(reg, msgs);
    if todo != [] { StatusEffectAll(SetDelivered(reg, Wamids(todo), now), todo, Delivered, WasDelivered, now); }
  }

  lemma ReadEffect(reg: Reg, customer: string, peer: string, b: Business, now: int)
    requires RegOk(reg) && GetBusiness(reg.businesses, peer) == Some(b)
    ensures var e, todo := ReadCall(reg, customer, peer, now), UnreadDelivered(reg, customer, b.phone);
            && e.reg == (if todo == [] then reg else Marked(reg, todo, JobKind.Read, now))
            && e.events == Announcements(todo, WasRead, now) && e.error.None?
            && ReadyFor(reg, todo, JobKind.Read)
  {
    var todo := UnreadDelivered(reg, customer, b.phone);
    UnreadDeliveredIs(reg, customer, b.phone);
    if todo != [] { StatusEffectAll(SetRead(reg, Wamids(todo), now), todo, JobKind.Read, WasRead, now); }
  }

  // ---- delivered ----

  /** Each message about to be marked is in the tab that shows it. */
  ghost predicate AllShown(l: Live, todo: seq<Message>) {
    forall m, sid: nat | m in todo && SessionFor(l, m.customer) == Some(sid) && Open(l, sid) :: m.wamid in View(Tab(l, sid))
  }

  lemma MarkedTabs(l: Live, todo: seq<Message>, kind: JobKind, st: Status, at: int)
    requires TabsOk(l) && RegOk(l.reg) && ReadyFor(l.reg, todo, kind) && st == (if kind.Delivered? then WasDelivered else WasRead)
    requires kind.Delivered? ==> AllShown(l, todo)
    ensures TabsOk(EmitAll(l.(reg := Marked(l.reg, todo, kind, at)), Announcements(todo, st, at)))
  {
    var l1 := l.(reg := Marked(l.reg, todo, kind, at));
    var t := EmitAll(l1, Announcements(todo, st, at));
    EmitAllTalk(l1, Announcements(todo, st, at));
    forall sid: nat, g: string | Indexed(t.net, sid, g) && Open(t, sid) ensures TabOk(t, sid, g) {
      TicksView(l1, todo, st, at, sid);
      assert forall w :: TickedFor(l1, todo, sid, w) == TickedFor(l, todo, sid, w);
      MarkedTab(l, sid, g, todo, kind, st, at, View(Tab(t, sid)));
    }
  }

  lemma MarkedTab(l: Live, sid: nat, g: string, todo: seq<Message>, kind: JobKind, st: Status, at: int, v': map<string, Status>)
    requires TabsOk(l) && RegOk(l.reg) && ReadyFor(l.reg, todo, kind) && st == (if kind.Delivered? then WasDelivered else WasRead)
    requires (kind.Delivered? ==> AllShown(l, todo)) && Indexed(l.net, sid, g) && Open(l, sid)
    requires AfterTicks(View(Tab(l, sid)), v', l, todo, sid, st)
    ensures Mirrors(Marked(l.reg, todo, kind, at), g, v', Hidden(l, sid), Stale(l, sid))
  {
    assert TabOk(l, sid, g);
    forall m | m in todo && InGroup(l.reg, m, g) && kind.Delivered? ensures m.wamid in View(Tab(l, sid)) {
      assert SessionFor(l, m.customer) == Some(sid);
    }
    TickedMirrors(l, sid, g, todo, kind, st, at, v');
  }

  lemma DeliveredTabs(l: Live, msgs: seq<Message>, now: int)
    requires TabsOk(l) && RegOk(l.reg) && AllRegistered(l.reg, l.reg.businesses) && Copies(l.reg, msgs)
    requires AllShown(l, DeliveredTodo(l.reg, msgs))
    ensures TabsOk(Happened(l, DeliveredCall(l.reg, msgs, now)))
  {
    var todo := DeliveredTodo(l.reg, msgs);
    DeliveredEffect(l.reg, msgs, now);
    if todo != [] { MarkedTabs(l, todo, Delivered, WasDelivered, now); } else { assert Announcements(todo, WasDelivered, now) == []; }
  }

  lemma ReadTabs(l: Live, customer: string, peer: string, now: int)
    requires TabsOk(l) && RegOk(l.reg)
    ensures TabsOk(Happened(l, ReadCall(l.reg, customer, peer, now)))
  {
    match GetBusiness(l.reg.businesses, peer)
    case None => assert Happened(l, ReadCall(l.reg, customer, peer, now)) == l;
    case Some(b) =>
      var todo := UnreadDelivered(l.reg, customer, b.phone);
      ReadEffect(l.reg, customer, peer, b, now);
      if todo != [] { MarkedTabs(l, todo, JobKind.Read, WasRead, now); } else { assert Announcements(todo, WasRead, now) == []; }
  }
}
