/** Every callback keeps the tabs right; the one that can fail, a late copy of a delivered message, is told exactly. */
module LiveMirror {
  import opened Prelude
  import opened JobStore
  import opened Registry
  import opened Lifecycle
  import opened Conservation
  import opened StoreGroups
  import opened Sessions
  import opened Live
  import opened LiveNet
  import opened LiveQueue
  import opened LiveTabs

  // ---- new bubbles ----

  /** Bubbles are added for new ids only; an id already shown keeps its status. */
  lemma {:induction false} ShownIs(view: map<string, Status>, bs: seq<Bubble>)
    ensures var v := Shown(view, bs);
            && (forall w | w in view :: w in v && v[w] == view[w])
            && (forall b | b in bs :: b.wamid in v)
            && (forall w | w in v && w !in view :: exists b :: b in bs && b.wamid == w && b.status == v[w])
  {
    if bs != [] {
      ShownIs(view, bs[..|bs| - 1]);
      assert bs == bs[..|bs| - 1] + [bs[|bs| - 1]];
    }
  }

  /** The new bubbles tell the stored status, or are on record as late. */
  ghost predicate Truthful(reg: Reg, view: map<string, Status>, bs: seq<Bubble>, stale: set<string>) {
    forall b, m | b in bs && b.wamid !in view && m in reg.messages && m.wamid == b.wamid :: Fair(m, b.status, stale)
  }

  lemma BubblesMirror(reg: Reg, g: string, view: map<string, Status>, hidden: set<string>, stale: set<string>, bs: seq<Bubble>)
    requires Mirrors(reg, g, view, hidden, stale) && Truthful(reg, view, bs, stale)
    ensures Mirrors(reg, g, Shown(view, bs), hidden, stale)
  {
    var v := Shown(view, bs);
    ShownIs(view, bs);
    forall m | m in reg.messages && InGroup(reg, m, g)
      ensures Tells(m, v, hidden, stale)
    {
      if m.wamid in v && m.wamid !in view {
        var b :| b in bs && b.wamid == m.wamid && b.status == v[m.wamid];
      }
    }
  }

  /** A frame that shows bubbles. */
  function BubblesIn(f: TabFrame): seq<Bubble>
    requires f.NewBubble? || f.QueueFlush?
  {
    if f.NewBubble? then [f.bubble] else f.bubbles
  }

  lemma SentTabs(l: Live, number: string, f: TabFrame)
    requires TabsOk(l) && (f.NewBubble? || f.QueueFlush?)
    requires forall sid: nat | SessionFor(l, number) == Some(sid) && Open(l, sid) :: Truthful(l.reg, View(Tab(l, sid)), BubblesIn(f), Stale(l, sid))
    ensures TabsOk(SendTile(l, number, f))
  {
    var t := SendTile(l, number, f);
    forall sid: nat, g: string | Indexed(t.net, sid, g) && Open(t, sid) ensures TabOk(t, sid, g) {
      assert TabOk(l, sid, g);
      SendTileView(l, number, f, sid);
      if SessionFor(l, number) == Some(sid) { BubblesMirror(l.reg, g, View(Tab(l, sid)), Hidden(l, sid), Stale(l, sid), BubblesIn(f)); }
    }
  }

  lemma {:induction false} UndeliveredFrom(reg: Reg, msgs: seq<Message>)
    ensures forall x | x in Undelivered(reg, msgs) :: exists m :: m in msgs && m.wamid == x.wamid
  {
    if msgs != [] {
      UndeliveredFrom(reg, msgs[..|msgs| - 1]);
      assert msgs == msgs[..|msgs| - 1] + [msgs[|msgs| - 1]];
    }
  }

  lemma TodoFrom(reg: Reg, msgs: seq<Message>)
    ensures forall x | x in DeliveredTodo(reg, msgs) :: exists m :: m in msgs && m.wamid == x.wamid
  {
    UndeliveredFrom(reg, msgs);
    SortSame(Undelivered(reg, msgs));
  }

  /** Show, then mark: all that is marked has just been shown. */
  lemma PushTabs(l: Live, number: string, f: TabFrame, ms: seq<Message>, now: int)
    requires TabsOk(l) && RegOk(l.reg) && AllRegistered(l.reg, l.reg.businesses) && Copies(l.reg, ms) && (f.NewBubble? || f.QueueFlush?)
    requires forall sid: nat | SessionFor(l, number) == Some(sid) && Open(l, sid) :: Truthful(l.reg, View(Tab(l, sid)), BubblesIn(f), Stale(l, sid))
    requires forall x | x in DeliveredTodo(l.reg, ms) :: x.customer == number
    requires forall m | m in ms :: exists b :: b in BubblesIn(f) && b.wamid == m.wamid
    ensures TabsOk(PushAndMark(l, number, f, ms, now))
  {
    var l1 := SendTile(l, number, f);
    SentTabs(l, number, f);
    TodoFrom(l.reg, ms);
    forall x, sid: nat | x in DeliveredTodo(l.reg, ms) && SessionFor(l1, x.customer) == Some(sid) && Open(l1, sid)
      ensures x.wamid in View(Tab(l1, sid))
    {
      SendTileView(l, number, f, sid);
      ShownIs(View(Tab(l, sid)), BubblesIn(f));
    }
    DeliveredTabs(l1, ms, now);
  }

  lemma BubblesOf(ms: seq<Message>)
    ensures forall m | m in ms :: BubbleOf(m) in Bubbles(ms)
    ensures forall b | b in Bubbles(ms) :: exists m :: m in ms && b == BubbleOf(m)
  {
    forall m | m in ms ensures BubbleOf(m) in Bubbles(ms) {
      var i :| 0 <= i < |ms| && ms[i] == m;
      assert Bubbles(ms)[i] == BubbleOf(m);
    }
  }

  /** Bubbles of stored messages are truthful. */
  lemma StoredTruthful(reg: Reg, view: map<string, Status>, bs: seq<Bubble>, stale: set<string>)
    requires Unique(reg.messages) && forall b | b in bs :: exists m :: m in reg.messages && b == BubbleOf(m)
    ensures Truthful(reg, view, bs, stale)
  {
    forall b, m | b in bs && m in reg.messages && m.wamid == b.wamid ensures b.status == StatusOf(m) {
      var x :| x in reg.messages && b == BubbleOf(x);
      SameWamid(reg, x, m);
    }
  }

  lemma QueueTruthful(reg: Reg, number: string, view: map<string, Status>, stale: set<string>)
    requires Unique(reg.messages)
    ensures Truthful(reg, view, Bubbles(QueuedFor(reg, number)), stale)
  {
    QueuedForIs(reg, number);
    BubblesOf(QueuedFor(reg, number));
    StoredTruthful(reg, view, Bubbles(QueuedFor(reg, number)), stale);
  }

  /** What is marked for a queue is that queue. */
  lemma QueueTodo(reg: Reg, number: string)
    requires RegOk(reg)
    ensures Copies(reg, QueuedFor(reg, number))
    ensures forall x | x in DeliveredTodo(reg, QueuedFor(reg, number)) :: x in reg.messages && Waiting(x) && x.customer == number
  {
    var q := QueuedFor(reg, number);
    QueuedForIs(reg, number);
    StoredCopies(reg, q);
    TodoReady(reg, q);
    TodoFrom(reg, q);
    forall x | x in DeliveredTodo(reg, q) ensures x.customer == number {
      var m :| m in q && m.wamid == x.wamid;
      SameWamid(reg, x, m);
    }
  }

  lemma FlushTabs(l: Live, number: string, now: int)
    requires TabsOk(l) && RegOk(l.reg) && AllRegistered(l.reg, l.reg.businesses)
    ensures TabsOk(FlushTile(l, number, now))
  {
    var q := QueuedFor(l.reg, number);
    forall sid: nat | Open(l, sid) ensures Truthful(l.reg, View(Tab(l, sid)), Bubbles(q), Stale(l, sid)) { QueueTruthful(l.reg, number, View(Tab(l, sid)), Stale(l, sid)); }
    QueueTodo(l.reg, number);
    BubblesOf(q);
    forall m | m in q ensures exists b :: b in BubblesIn(QueueFlush(Bubbles(q))) && b.wamid == m.wamid {
      assert BubbleOf(m) in Bubbles(q);
    }
    PushTabs(l, number, QueueFlush(Bubbles(q)), q, now);
  }

  // ---- the finished response ----

  /** `p` is a message as it was when accepted. */
  ghost predicate CopyOk(reg: Reg, p: Message) {
    && Waiting(p) && p.readAt.None?
    && forall m | m in reg.messages && m.wamid == p.wamid :: m.dir == p.dir && m.customer == p.customer
  }

  /** A late copy that is not on record. */
  predicate Unnoted(l: Live, m: Message) {
    LateCopy(l, m) && m.wamid !in Stale(l, SessionFor(l, m.customer).value)
  }

  lemma CopyTruthful(l: Live, p: Message, sid: nat)
    requires RegOk(l.reg) && CopyOk(l.reg, p) && SessionFor(l, p.customer) == Some(sid) && Open(l, sid)
    requires IsOnline(l, p.customer) && !Unnoted(l, p)
    ensures Truthful(l.reg, View(Tab(l, sid)), [BubbleOf(p)], Stale(l, sid))
  {
    forall m | m in l.reg.messages && m.wamid == p.wamid && p.wamid !in View(Tab(l, sid)) ensures Fair(m, WasSent, Stale(l, sid)) {
      SameWamid(l.reg, m, GetMessage(l.reg.messages, p.wamid).value);
    }
  }

  lemma CopyTodo(reg: Reg, p: Message)
    requires RegOk(reg) && CopyOk(reg, p)
    ensures Copies(reg, [p])
    ensures forall x | x in DeliveredTodo(reg, [p]) :: x.customer == p.customer
    ensures forall m | m in [p] :: exists b :: b in BubblesIn(NewBubble(BubbleOf(p))) && b.wamid == m.wamid
  {
    TodoFrom(reg, [p]);
    TodoReady(reg, [p]);
    assert BubbleOf(p) in [BubbleOf(p)];
  }

  /** A late copy puts an old status into the tab. */
  lemma LateBreaks(l: Live, p: Message, now: int)
    requires RegOk(l.reg) && CopyOk(l.reg, p) && Unnoted(l, p)
    ensures !TabsOk(DeliverNow(l, p, now))
  {
    var x, sid := GetMessage(l.reg.messages, p.wamid).value, SessionFor(l, p.customer).value;
    var g := GetCustomer(l.reg.customers, p.customer).value.group;
    var f := NewBubble(BubbleOf(p));
    var t := PushAndMark(l, p.customer, f, [p], now);
    NothingTodo(l.reg, p, x);
    assert t == SendTile(l, p.customer, f) by { assert DeliveredCall(l.reg, [p], now) == Effect(l.reg, [], [], None); }
    SendTileView(l, p.customer, f, sid);
    assert Shown(View(Tab(l, sid)), [BubbleOf(p)])[p.wamid] == WasSent by { assert [BubbleOf(p)][..0] == []; }
    assert Indexed(t.net, sid, g) && Open(t, sid) && !TabOk(t, sid, g);
  }

  lemma NothingTodo(reg: Reg, p: Message, x: Message)
    requires GetMessage(reg.messages, p.wamid) == Some(x) && x.deliveredAt.Some?
    ensures DeliveredTodo(reg, [p]) == []
  {
    assert [p][..0] == [];
    assert Undelivered(reg, []) == [];
  }

  /**
   A response that finishes keeps the tabs right exactly unless it is a late copy: the message was delivered
   meanwhile, its tile re-claimed, and the new snapshot left it out. Where the exception is on record, all is said.
   */
  lemma FinishedTabs(l: Live, p: Message, now: int)
    requires TabsOk(l) && RegOk(l.reg) && AllRegistered(l.reg, l.reg.businesses) && CopyOk(l.reg, p)
    ensures TabsOk(DeliverNow(l, p, now)) <==> !Unnoted(l, p)
  {
    if Unnoted(l, p) {
      LateBreaks(l, p, now);
    } else if IsOnline(l, p.customer) {
      CopyTodo(l.reg, p);
      forall sid: nat | SessionFor(l, p.customer) == Some(sid) && Open(l, sid)
        ensures Truthful(l.reg, View(Tab(l, sid)), BubblesIn(NewBubble(BubbleOf(p))), Stale(l, sid))
      {
        CopyTruthful(l, p, sid);
      }
      PushTabs(l, p.customer, NewBubble(BubbleOf(p)), [p], now);
    }
  }

  /** Keeping the record makes no tab wrong. */
  lemma NotedTabs(l: Live, p: Message)
    requires TabsOk(l)
    ensures TabsOk(NoteLate(l, p)) && !Unnoted(NoteLate(l, p), p)
  {
    var t := NoteLate(l, p);
    forall sid: nat, g: string | Indexed(t.net, sid, g) && Open(t, sid) ensures TabOk(t, sid, g) {
      assert TabOk(l, sid, g);
    }
  }
}
