/**
 What a tab may miss: a message that the last snapshot cut is delivered, and at least fifty others of its tile are not
 older. Nothing that waits is ever missed.
 */
module LiveHidden {
  import opened Prelude
  import opened JobStore
  import opened Registry
  import opened Lifecycle
  import opened Conservation
  import opened StoreGroups
  import opened Sessions
  import opened Live
  import opened LiveNet
  import opened LiveQueue
  import opened LiveMirror
  import opened LiveTabSteps

  /** The other messages of the customer that are not older. */
  function NotOlder(reg: Reg, m: Message): set<string> {
    set x | x in reg.messages && x.customer == m.customer && x.wamid != m.wamid && !Older(x, m) :: x.wamid
  }

  /** Too old to be in a fresh snapshot. */
  predicate Buried(reg: Reg, m: Message) {
    !Waiting(m) && |NotOlder(reg, m)| >= SNAPSHOT_HISTORY_PER_TILE
  }

  ghost predicate HiddenOk(reg: Reg, hidden: set<string>) {
    forall m | m in reg.messages && m.wamid in hidden :: Buried(reg, m)
  }

  ghost predicate AllHiddenOk(l: Live) {
    forall sid: nat :: HiddenOk(l.reg, Hidden(l, sid))
  }

  // ---- the store grows ----

  /** Messages stay, with at most later times; what was delivered stays so. */
  ghost predicate Grown(reg: Reg, t: Reg) {
    && |t.messages| >= |reg.messages|
    && forall i | 0 <= i < |reg.messages| ::
         && t.messages[i] == reg.messages[i].(deliveredAt := t.messages[i].deliveredAt, readAt := t.messages[i].readAt)
         && (reg.messages[i].deliveredAt.Some? ==> t.messages[i].deliveredAt == reg.messages[i].deliveredAt)
  }

  lemma Subset(a: set<string>, b: set<string>)
    requires a <= b
    ensures |a| <= |b|
  {
    assert b == a + (b - a) && |b| == |a| + |b - a|;
  }

  lemma GrownNotOlder(reg: Reg, t: Reg, i: nat)
    requires Grown(reg, t) && i < |reg.messages|
    ensures NotOlder(reg, reg.messages[i]) <= NotOlder(t, t.messages[i])
  {
    forall w | w in NotOlder(reg, reg.messages[i]) ensures w in NotOlder(t, t.messages[i]) {
      var x :| x in reg.messages && x.customer == reg.messages[i].customer && x.wamid == w != reg.messages[i].wamid && !Older(x, reg.messages[i]);
      var j :| 0 <= j < |reg.messages| && reg.messages[j] == x;
      assert t.messages[j] in t.messages && !Older(t.messages[j], t.messages[i]);
    }
  }

  lemma GrownHidden(reg: Reg, t: Reg, hidden: set<string>)
    requires HiddenOk(reg, hidden) && Grown(reg, t)
    requires forall i | |reg.messages| <= i < |t.messages| :: t.messages[i].wamid !in hidden
    ensures HiddenOk(t, hidden)
  {
    forall m | m in t.messages && m.wamid in hidden ensures Buried(t, m) {
      var i :| 0 <= i < |t.messages| && t.messages[i] == m;
      assert reg.messages[i] in reg.messages && Buried(reg, reg.messages[i]);
      GrownNotOlder(reg, t, i);
      Subset(NotOlder(reg, reg.messages[i]), NotOlder(t, m));
    }
  }

  /** No message was added under an id that some snapshot left out. */
  ghost predicate NewIds(l: Live, t: Reg) {
    forall i, sid: nat | |l.reg.messages| <= i < |t.messages| :: t.messages[i].wamid !in Hidden(l, sid)
  }

  lemma GrownAll(l: Live, t: Live)
    requires AllHiddenOk(l) && t.hidden == l.hidden && Grown(l.reg, t.reg) && NewIds(l, t.reg)
    ensures AllHiddenOk(t)
  {
    forall sid: nat ensures HiddenOk(t.reg, Hidden(t, sid)) {
      assert HiddenOk(l.reg, Hidden(l, sid));
      GrownHidden(l.reg, t.reg, Hidden(l, sid));
    }
  }

  lemma AgedAll(l: Live, t: Live)
    requires AllHiddenOk(l) && t.hidden == l.hidden && Aged(l.reg, t.reg)
    ensures AllHiddenOk(t)
  {
    GrownAll(l, t);
  }

  lemma SameAll(l: Live, t: Live)
    requires AllHiddenOk(l) && t.hidden == l.hidden && t.reg.messages == l.reg.messages
    ensures AllHiddenOk(t)
  {
    GrownAll(l, t);
  }

  lemma StoredAll(l: Live, t: Live, d: Draft)
    requires AllHiddenOk(l) && t.hidden == l.hidden && t.reg == Stored(l.reg, d) && Unseen(l, d.wamid)
    ensures AllHiddenOk(t)
  {
    GrownAll(l, t);
  }

  // ---- what a snapshot cuts ----

  lemma {:induction false} PastOfUnique(ms: seq<Message>, customer: string)
    requires Unique(ms)
    ensures Unique(PastOf(ms, customer))
  {
    if ms != [] {
      var init := ms[..|ms| - 1];
      PastOfIn(init, customer);
      DistinctInit(ms, PastOf(init, customer));
      PastOfUnique(init, customer);
    }
  }

  lemma LastIsNew(ms: seq<Message>)
    requires Unique(ms) && ms != []
    ensures forall m | m in ms[..|ms| - 1] :: m.wamid != ms[|ms| - 1].wamid
  {
    forall m | m in ms[..|ms| - 1] ensures m.wamid != ms[|ms| - 1].wamid {
      var i :| 0 <= i < |ms| - 1 && ms[i] == m;
    }
  }

  lemma {:induction false} UniqueCount(ms: seq<Message>, m: Message)
    requires Unique(ms)
    ensures multiset(ms)[m] <= 1
  {
    if ms != [] {
      var init := ms[..|ms| - 1];
      UniqueCount(init, m);
      LastIsNew(ms);
      assert ms == init + [ms[|ms| - 1]];
      assert ms[|ms| - 1] !in init;
    }
  }

  lemma TwiceCounted(ms: seq<Message>, i: nat, j: nat)
    requires i < j < |ms| && ms[i] == ms[j]
    ensures multiset(ms)[ms[i]] >= 2
  {
    assert ms == ms[..j] + ms[j..];
    assert ms[..j][i] == ms[i] && ms[j..][0] == ms[j];
    assert ms[i] in ms[..j] && ms[i] in ms[j..];
  }

  /** The same messages in another order: still no id twice. */
  lemma UniqueReordered(ms: seq<Message>, ns: seq<Message>)
    requires multiset(ms) == multiset(ns) && Unique(ns)
    ensures Unique(ms)
  {
    forall i, j | 0 <= i < j < |ms| ensures ms[i].wamid != ms[j].wamid {
      if ms[i].wamid == ms[j].wamid {
        assert ms[i] in multiset(ns) && ms[j] in multiset(ns);
        var p :| 0 <= p < |ns| && ns[p] == ms[i];
        var q :| 0 <= q < |ns| && ns[q] == ms[j];
        TwiceCounted(ms, i, j);
        UniqueCount(ns, ms[i]);
      }
    }
  }

  function Ids(ms: seq<Message>): set<string> { set m | m in ms :: m.wamid }

  lemma {:induction false} CountIds(ms: seq<Message>)
    requires Unique(ms)
    ensures |Ids(ms)| == |ms|
  {
    if ms != [] {
      var init, last := ms[..|ms| - 1], ms[|ms| - 1];
      CountIds(init);
      assert ms == init + [last];
      var ids := Ids(init);
      LastIsNew(ms);
      assert last.wamid !in ids;
      assert Ids(ms) == ids + {last.wamid};
    }
  }

  lemma PastUnique(reg: Reg, number: string)
    requires RegOk(reg)
    ensures Unique(Past(reg, number))
  {
    HistoryAndQueuePartition(reg, number);
    PastOfUnique(reg.messages, number);
    UniqueReordered(Past(reg, number), PastOf(reg.messages, number));
  }

  lemma PastHas(reg: Reg, m: Message)
    requires RegOk(reg) && m in reg.messages && !Waiting(m)
    ensures m in Past(reg, m.customer)
    ensures forall x | x in Past(reg, m.customer) :: x in reg.messages && x.customer == m.customer
  {
    var past := Past(reg, m.customer);
    HistoryAndQueuePartition(reg, m.customer);
    PastOfIn(reg.messages, m.customer);
    assert m in multiset(past);
    forall x | x in past ensures x in reg.messages && x.customer == m.customer { assert x in multiset(past); }
  }

  /** What is not among the newest `n` has `n` messages after it. */
  lemma CutHasAfter(ms: seq<Message>, n: nat, m: Message)
    requires Unique(ms) && ByAge(ms) && m in ms && m !in Newest(ms, n)
    ensures |Ids(Newest(ms, n))| == n
    ensures forall x | x in Newest(ms, n) :: x in ms && x.wamid != m.wamid && !Older(x, m)
  {
    var i :| 0 <= i < |ms| && ms[i] == m;
    var cut, shown := if |ms| > n then |ms| - n else 0, Newest(ms, n);
    assert shown == ms[cut..];
    NotInTail(ms, cut, i);
    assert Unique(shown);
    CountIds(shown);
    forall x | x in shown ensures x in ms && x.wamid != m.wamid && !Older(x, m) {
      var j :| 0 <= j < |shown| && shown[j] == x;
      assert ms[cut + j] == x;
    }
  }

  lemma NotInTail(ms: seq<Message>, cut: nat, i: nat)
    requires cut <= |ms| && i < |ms| && ms[i] !in ms[cut..]
    ensures i < cut
  {
    forall k | cut <= k < |ms| ensures ms[k] != ms[i] { assert ms[cut..][k - cut] == ms[k]; }
  }

  /** Whatever the newest fifty leave out has those fifty after it. */
  lemma CutIsBuried(reg: Reg, m: Message)
    requires RegOk(reg) && m in reg.messages && !Waiting(m)
    requires m !in Newest(Past(reg, m.customer), SNAPSHOT_HISTORY_PER_TILE)
    ensures Buried(reg, m)
  {
    var shown := Newest(Past(reg, m.customer), SNAPSHOT_HISTORY_PER_TILE);
    PastHas(reg, m);
    PastUnique(reg, m.customer);
    PastByAge(reg, m.customer);
    CutHasAfter(Past(reg, m.customer), SNAPSHOT_HISTORY_PER_TILE, m);
    assert Ids(shown) <= NotOlder(reg, m);
    Subset(Ids(shown), NotOlder(reg, m));
  }

  lemma {:induction false} TileInSnapshot(reg: Reg, tiles: seq<string>, number: string)
    requires number in tiles
    ensures forall b | b in TileBubbles(reg, number) :: b in SnapshotOf(reg, tiles)
  {
    var n := |tiles| - 1;
    if tiles[n] != number {
      assert tiles == tiles[..n] + [tiles[n]];
      TileInSnapshot(reg, tiles[..n], number);
    }
  }

  lemma MissingIsBuried(reg: Reg, tiles: seq<string>, m: Message)
    requires RegOk(reg) && m in reg.messages && m.customer in tiles
    requires forall b | b in SnapshotOf(reg, tiles) :: b.wamid != m.wamid
    ensures Buried(reg, m)
  {
    var shown := Newest(Past(reg, m.customer), SNAPSHOT_HISTORY_PER_TILE);
    TileInSnapshot(reg, tiles, m.customer);
    TileStored(reg, m.customer);
    assert BubbleOf(m) !in TileBubbles(reg, m.customer);
    BubblesOf(shown);
    assert m in shown ==> BubbleOf(m) in TileBubbles(reg, m.customer);
    CutIsBuried(reg, m);
  }

  lemma LeftOutHidden(reg: Reg, g: string)
    requires RegOk(reg)
    ensures HiddenOk(reg, LeftOut(reg, g))
  {
    TilesOfIs(reg.customers, g);
    forall m | m in reg.messages && m.wamid in LeftOut(reg, g) ensures Buried(reg, m) {
      var x :| x in reg.messages && InGroup(reg, x, g) && x.wamid == m.wamid
               && forall b | b in SnapshotOf(reg, TilesOf(reg.customers, g)) :: b.wamid != x.wamid;
      SameWamid(reg, x, m);
      MissingIsBuried(reg, TilesOf(reg.customers, g), m);
    }
  }

  lemma SnapshotAll(l: Live, sid: nat, g: string)
    requires AllHiddenOk(l) && RegOk(l.reg)
    ensures AllHiddenOk(SendSnapshot(l, sid, g))
  {
    LeftOutHidden(l.reg, g);
    forall tid: nat ensures HiddenOk(l.reg, Hidden(SendSnapshot(l, sid, g), tid)) { assert HiddenOk(l.reg, Hidden(l, tid)); }
  }

  // ---- the steps ----

  lemma ClaimAll(l: Live, sid: nat, g: string, now: int)
    requires AllHiddenOk(l) && RegOk(l.reg) && sid in l.net.sessions
    ensures AllHiddenOk(ClaimGroup(l, sid, g, now))
  {
    if CanTake(l, sid, g) {
      var l0 := l.(net := Claimed(l.net, sid, g, now));
      var l1 := SendSnapshot(l0, sid, g);
      var l2 := DeliverTiles(l1, TilesOf(l1.reg.customers, g), now);
      SameAll(l, l0);
      SnapshotAll(l0, sid, g);
      SnapshotTalk(l0, sid, g);
      DeliverTilesTalk(l1, TilesOf(l1.reg.customers, g), now);
      TilesDelivered(l1, TilesOf(l1.reg.customers, g), now);
      AgedAll(l1, l2);
      LockChangedNet(l2);
      SameAll(l2, LockChanged(l2));
    } else {
      SameAll(l, SendTab(l, sid, Other));
    }
  }

  lemma LinkingAll(l: Live, st: LinkStep)
    requires AllHiddenOk(l) && RegOk(l.reg) && LinkEnabled(l, st)
    ensures AllHiddenOk(LinkApply(l, st))
  {
    match st
    case ClaimFrame(sid, g, now) => ClaimAll(l, sid, g, now);
    case SocketEnds(sid, final) =>
      GoneFrame(l, sid, final);
      SameAll(l, GoneSession(l, sid, final));
    case SubscribeFrame(sid) =>
      SubscribeFrames(l, sid);
      SameAll(l, SubscribeAdmin(l, sid));
    case Opened(sid) => SameAll(l, l.(net := Connected(l.net, sid)));
    case Heartbeat => SameAll(l, l.(net := Ticked(l.net)));
    case PongFrame(sid) => SameAll(l, l.(net := Ponged(l.net, sid)));
  }

  lemma InboundAll(l: Live, sender: string, to: string, body: string, wamid: string, now: int)
    requires AllHiddenOk(l) && Unseen(l, wamid)
    ensures AllHiddenOk(Happened(l, InboundCall(l.reg, sender, to, body, wamid, now)))
  {
    var e := InboundCall(l.reg, sender, to, body, wamid, now);
    InboundNumbers(l.reg, sender, to, body, wamid, now);
    HappenedTalk(l, e);
    if e.reg == l.reg {
      SameAll(l, Happened(l, e));
    } else {
      var c, b := GetCustomer(l.reg.customers, sender).value, GetBusiness(l.reg.businesses, to).value;
      StoredAll(l, Happened(l, e), Draft(wamid, FromCustomer, b.phone, c.number, body, now));
    }
  }

  lemma SendAll(l: Live, sid: nat, number: string, to: string, body: string, wamid: string, now: int)
    requires AllHiddenOk(l) && sid in l.net.sessions && Unseen(l, wamid)
    ensures AllHiddenOk(SendMessage(l, sid, number, to, body, wamid, now))
  {
    SameAll(l, SendTab(l, sid, Other));
    if GetBusiness(l.reg.businesses, to).Some? { InboundAll(l, number, GetBusiness(l.reg.businesses, to).value.phone, body, wamid, now); }
  }

  lemma AcceptAll(l: Live, phone: string, customer: string, text: string, wamid: string, delay: nat, now: int)
    requires AllHiddenOk(l) && Unseen(l, wamid)
    ensures AllHiddenOk(AcceptSend(l, phone, customer, text, wamid, delay, now))
  {
    var d := Draft(wamid, ToCustomer, phone, customer, text, now);
    var l1 := l.(pending := l.pending[wamid := MessageOf(l.reg, d)]);
    HappenedTalk(l1, Accepted(l.reg, phone, customer, text, wamid, delay, now));
    StoredAll(l, AcceptSend(l, phone, customer, text, wamid, delay, now), d);
  }

  lemma AgedEffect(l: Live, e: Effect)
    requires AllHiddenOk(l) && Aged(l.reg, e.reg)
    ensures AllHiddenOk(Happened(l, e))
  {
    HappenedTalk(l, e);
    AgedAll(l, Happened(l, e));
  }

  lemma ReadAll(l: Live, sid: nat, number: string, peer: string, now: int)
    requires AllHiddenOk(l) && RegOk(l.reg) && sid in l.net.sessions
    ensures AllHiddenOk(ReadChat(l, sid, number, peer, now))
  {
    SameAll(l, SendTab(l, sid, Other));
    if GetBusiness(l.reg.businesses, peer).Some? {
      var phone := GetBusiness(l.reg.businesses, peer).value.phone;
      ReadAged(l.reg, number, phone, now);
      AgedEffect(l, ReadCall(l.reg, number, phone, now));
    }
  }

  lemma ResponseAll(l: Live, w: string, now: int)
    requires AllHiddenOk(l) && StoreOk(l) && w in l.pending
    ensures AllHiddenOk(ResponseFinished(l, w, now))
  {
    var l0, m := l.(pending := l.pending - {w}), l.pending[w];
    ResponseTalk(l, w, now);
    PushTalk(l0, m.customer, NewBubble(BubbleOf(m)), [m], now);
    PendingCopies(l, w);
    DeliveredAged(l.reg, [m], now);
    AgedSelf(l.reg);
    AgedAll(l, ResponseFinished(l, w, now));
  }

  lemma TalkingAll(l: Live, st: TalkStep)
    requires AllHiddenOk(l) && StoreOk(l) && TalkEnabled(l, st)
    ensures AllHiddenOk(TalkApply(l, st))
  {
    match st
    case SendFrame(sid, number, to, body, wamid, now) => SendAll(l, sid, number, to, body, wamid, now);
    case ReadFrame(sid, number, peer, now) => ReadAll(l, sid, number, peer, now);
    case HttpSend(phone, customer, text, wamid, delay, now) => AcceptAll(l, phone, customer, text, wamid, delay, now);
    case HttpFinished(wamid, now) => ResponseAll(l, wamid, now);
    case HttpRead(phone, wamid, now) =>
      MarkInboundAged(l.reg, phone, wamid, now);
      AgedEffect(l, MarkInboundRead(l.reg, phone, wamid, now));
    case Inject(sender, to, body, wamid, now) => InboundAll(l, sender, to, body, wamid, now);
    case AutoReply(customer, to, body, wamid, now) => InboundAll(l, customer, to, body, wamid, now);
  }

  lemma PresenceAll(l: Live, number: string, online: bool, now: int)
    requires AllHiddenOk(l) && RegOk(l.reg)
    ensures AllHiddenOk(SetPresence(l, number, online, now)) && SameMarks(l, SetPresence(l, number, online, now))
  {
    var cs := WithOnline(l.reg.customers, number, online);
    var l1 := NumbersChanged(l.(reg := l.reg.(customers := cs)));
    var l2 := SendTile(l1, number, Other);
    SameAll(l, l1);
    SameAll(l1, l2);
    NumbersOk(l.reg, l.reg.businesses, cs);
    FlushReg(l2, number, now);
    FlushTalk(l2, number, now);
    QueueDelivered(l2.reg, number, now);
    AgedSelf(l2.reg);
    AgedAll(l2, FlushTile(l2, number, now));
  }

  lemma ModeMarks(l: Live, number: string, mode: ReplyMode)
    ensures SameMarks(l, SetAutoReply(l, number, mode)) && SetAutoReply(l, number, mode).reg.messages == l.reg.messages
  {}

  lemma SwitchAll(l: Live, st: SwitchStep)
    requires AllHiddenOk(l) && RegOk(l.reg) && SwitchEnabled(l, st)
    ensures AllHiddenOk(SwitchApply(l, st)) && SameMarks(l, SwitchApply(l, st))
  {
    match st
    case PresenceFrame(sid, number, online, now) =>
      SameAll(l, SendTab(l, sid, Other));
      PresenceAll(l, number, online, now);
    case ApiPresence(number, online, now) => PresenceAll(l, number, online, now);
    case AutoReplyFrame(sid, number, mode) =>
      ModeMarks(l, number, mode);
      SameAll(l, SwitchApply(l, st));
    case ApiAutoReply(number, mode) =>
      ModeMarks(l, number, mode);
      SameAll(l, SwitchApply(l, st));
  }

  lemma TableAll(l: Live, st: TableStep)
    requires AllHiddenOk(l)
    ensures AllHiddenOk(TableApply(l, st)) && (!st.ApiReset? ==> SameMarks(l, TableApply(l, st)))
  {
    match st
    case ApiReset(keep, holders) => WipeReg(l, keep, holders);
    case ApiBusinesses(bs) => SameAll(l, TableApply(l, st));
    case ApiCreateGroup(g, numbers) => SameAll(l, TableApply(l, st));
    case ApiDeleteGroup(g) =>
      DeleteFrame(l, g);
      SameAll(l, TableApply(l, st));
  }

  lemma StepHiddenOk(l: Live, st: LiveStep)
    requires AllHiddenOk(l) && StoreOk(l) && LiveEnabled(l, st)
    ensures AllHiddenOk(LiveApply(l, st))
  {
    match st
    case Linking(s) => LinkingAll(l, s);
    case Talking(s) => TalkingAll(l, s);
    case Switching(s) => SwitchAll(l, s);
    case Arranging(s) => TableAll(l, s);
    case Logging(s) =>
      NoteTalk(l, s);
      SameAll(l, NoteApply(l, s));
  }

  // ---- snapshots and late copies are the only marks ----

  /** This step sends session `sid` no snapshot. */
  predicate NoSnapshot(st: LiveStep, sid: nat) {
    !(st.Linking? && st.link.ClaimFrame? && st.link.sid == sid) && !(st.Arranging? && st.table.ApiReset?)
  }

  /** The response that finishes in this step is a late copy. */
  predicate LateStep(l: Live, st: LiveStep) {
    st.Talking? && st.talk.HttpFinished? && st.talk.wamid in l.pending && LateCopy(l, l.pending[st.talk.wamid])
  }

  /** A granted claim leaves the marks of its snapshot. */
  lemma TakenMarks(l: Live, tid: nat, g: string, now: int)
    requires tid in l.net.sessions && CanTake(l, tid, g)
    ensures SameMarks(SendSnapshot(l.(net := Claimed(l.net, tid, g, now)), tid, g), ClaimGroup(l, tid, g, now))
  {
    var l1 := SendSnapshot(l.(net := Claimed(l.net, tid, g, now)), tid, g);
    DeliverTilesTalk(l1, TilesOf(l1.reg.customers, g), now);
    LockChangedNet(DeliverTiles(l1, TilesOf(l1.reg.customers, g), now));
  }

  lemma SnapshotMarks(l: Live, tid: nat, g: string, sid: nat)
    ensures tid != sid ==> Hidden(SendSnapshot(l, tid, g), sid) == Hidden(l, sid) && Stale(SendSnapshot(l, tid, g), sid) == Stale(l, sid)
    ensures Stale(l, sid) == {} ==> Stale(SendSnapshot(l, tid, g), sid) == {}
  {}

  lemma SameMarksOf(l: Live, t: Live, sid: nat)
    requires SameMarks(l, t)
    ensures Hidden(t, sid) == Hidden(l, sid) && Stale(t, sid) == Stale(l, sid)
  {}

  lemma ClaimMarks(l: Live, tid: nat, g: string, now: int, sid: nat)
    requires tid in l.net.sessions
    ensures tid != sid ==> Hidden(ClaimGroup(l, tid, g, now), sid) == Hidden(l, sid) && Stale(ClaimGroup(l, tid, g, now), sid) == Stale(l, sid)
    ensures Stale(l, sid) == {} ==> Stale(ClaimGroup(l, tid, g, now), sid) == {}
  {
    if CanTake(l, tid, g) {
      TakenMarks(l, tid, g, now);
      SnapshotMarks(l.(net := Claimed(l.net, tid, g, now)), tid, g, sid);
      SameMarksOf(SendSnapshot(l.(net := Claimed(l.net, tid, g, now)), tid, g), ClaimGroup(l, tid, g, now), sid);
    } else {
      NoiseTalk(l, tid);
      SameMarksOf(l, ClaimGroup(l, tid, g, now), sid);
    }
  }

  lemma LinkingMarks(l: Live, st: LinkStep, sid: nat)
    requires LinkEnabled(l, st) && NoSnapshot(Linking(st), sid)
    ensures Hidden(LinkApply(l, st), sid) == Hidden(l, sid) && Stale(LinkApply(l, st), sid) == Stale(l, sid)
  {
    match st
    case ClaimFrame(tid, g, now) => ClaimMarks(l, tid, g, now, sid);
    case SocketEnds(tid, final) => GoneFrame(l, tid, final);
    case SubscribeFrame(tid) => SubscribeFrames(l, tid);
    case Opened(_) =>
    case Heartbeat =>
    case PongFrame(_) =>
  }

  lemma TalkingMarks(l: Live, st: TalkStep, sid: nat)
    requires TalkEnabled(l, st)
    ensures Hidden(TalkApply(l, st), sid) == Hidden(l, sid)
    ensures !LateStep(l, Talking(st)) ==> Stale(TalkApply(l, st), sid) == Stale(l, sid)
  {
    TalkingTalk(l, st);
    if st.HttpFinished? { ResponseTalk(l, st.wamid, st.now); }
  }

  lemma StepMarks(l: Live, st: LiveStep, sid: nat)
    requires AllHiddenOk(l) && StoreOk(l) && LiveEnabled(l, st) && NoSnapshot(st, sid)
    ensures Hidden(LiveApply(l, st), sid) == Hidden(l, sid)
    ensures !LateStep(l, st) ==> Stale(LiveApply(l, st), sid) == Stale(l, sid)
  {
    match st
    case Linking(s) => LinkingMarks(l, s, sid);
    case Talking(s) => TalkingMarks(l, s, sid);
    case Switching(s) => SwitchAll(l, s);
    case Arranging(s) => TableAll(l, s);
    case Logging(s) => NoteTalk(l, s);
  }

  lemma RefreshOneStale(l: Live, g: string, tid: nat, keep: bool, sid: nat)
    requires Stale(l, sid) == {}
    ensures Stale(RefreshOne(l, g, tid, keep), sid) == {}
  {
    if tid in l.net.sessions && !(keep && g in l.groups) { DisconnectNet(SendTab(l, tid, Other), tid); }
  }

  lemma {:induction false} RefreshStale(l: Live, holders: seq<(string, nat)>, keep: bool, sid: nat)
    requires Stale(l, sid) == {}
    ensures Stale(RefreshAll(l, holders, keep), sid) == {}
  {
    if holders != [] {
      var n := |holders| - 1;
      RefreshStale(l, holders[..n], keep, sid);
      RefreshOneStale(RefreshAll(l, holders[..n], keep), holders[n].0, holders[n].1, keep, sid);
    }
  }

  /** Only a late copy puts anything on record. */
  lemma StepStale(l: Live, st: LiveStep, sid: nat)
    requires AllHiddenOk(l) && StoreOk(l) && LiveEnabled(l, st) && !LateStep(l, st) && Stale(l, sid) == {}
    ensures Stale(LiveApply(l, st), sid) == {}
  {
    if NoSnapshot(st, sid) {
      StepMarks(l, st, sid);
    } else if st.Linking? {
      ClaimMarks(l, st.link.sid, st.link.group, st.link.now, sid);
    } else {
      var keep := st.table.keep;
      var l0 := l.(reg := WipedReg(l.reg, keep), groups := if keep then l.groups else []);
      ResetFeedNet(l0);
      RefreshStale(ResetFeed(l0), st.table.holders, keep, sid);
    }
  }
}
