/** No message is stranded: what waits for an online tile is only what its HTTP response still has to hand over. */
module LiveQueue {
  import opened Prelude
  import opened JobStore
  import opened Registry
  import opened Lifecycle
  import opened Conservation
  import opened StoreGroups
  import B = Badges
  import opened Sessions
  import opened Live
  import opened LiveNet

  /** An outbound message nobody delivered yet. */
  predicate Waiting(m: Message) { m.dir.ToCustomer? && m.deliveredAt.None? }

  /** What an accepted message looked like when it was accepted. */
  ghost predicate PendingOk(l: Live) {
    && (forall w | w in l.pending ::
          l.pending[w].wamid == w && Waiting(l.pending[w]) && l.pending[w].readAt.None?)
    && (forall m | m in l.reg.messages && m.wamid in l.pending ::
          m.dir == l.pending[m.wamid].dir && m.customer == l.pending[m.wamid].customer)
  }

  /** Every message waiting for a tile that is online has its response under way. */
  ghost predicate NoneStranded(l: Live) {
    forall m | m in l.reg.messages && Waiting(m) && IsOnline(l, m.customer) :: m.wamid in l.pending
  }

  ghost predicate CustomersOnce(cs: seq<Customer>) {
    forall i, j | 0 <= i < j < |cs| :: cs[i].number != cs[j].number
  }

  ghost predicate StoreOk(l: Live) {
    && RegOk(l.reg) && AllRegistered(l.reg, l.reg.businesses) && CustomersOnce(l.reg.customers)
    && PendingOk(l) && NoneStranded(l)
  }

  // ---- the store ages ----

  /** Only times were added. */
  ghost predicate Aged(reg: Reg, t: Reg) {
    && SameButTimes(reg, t) && RegOk(t)
    && forall i | 0 <= i < |reg.messages| :: reg.messages[i].deliveredAt.Some? ==> t.messages[i].deliveredAt == reg.messages[i].deliveredAt
  }

  lemma AgedMessage(reg: Reg, t: Reg, m: Message) returns (x: Message)
    requires SameButTimes(reg, t) && m in t.messages
    ensures x in reg.messages && m == x.(deliveredAt := m.deliveredAt, readAt := m.readAt)
    ensures Aged(reg, t) && x.deliveredAt.Some? ==> m.deliveredAt == x.deliveredAt
  {
    var i :| 0 <= i < |t.messages| && t.messages[i] == m;
    x := reg.messages[i];
  }

  lemma AgedTrans(reg: Reg, t: Reg, u: Reg)
    requires Aged(reg, t) && Aged(t, u)
    ensures Aged(reg, u)
  {
    forall i | 0 <= i < |reg.messages|
      ensures u.messages[i] == reg.messages[i].(deliveredAt := u.messages[i].deliveredAt, readAt := u.messages[i].readAt)
    {
      assert t.messages[i] == reg.messages[i].(deliveredAt := t.messages[i].deliveredAt, readAt := t.messages[i].readAt);
    }
  }

  lemma AgedSelf(reg: Reg)
    requires RegOk(reg)
    ensures Aged(reg, reg)
  {}

  lemma MarkedAged(reg: Reg, todo: seq<Message>, kind: JobKind, at: int)
    requires RegOk(reg) && ReadyFor(reg, todo, kind)
    ensures Aged(reg, Marked(reg, todo, kind, at))
  {
    MarkedOk(reg, todo, kind, at);
  }

  lemma StoredCopies(reg: Reg, msgs: seq<Message>)
    requires Unique(reg.messages) && forall m | m in msgs :: m in reg.messages
    ensures Copies(reg, msgs)
  {
    forall m, x | m in msgs && x in reg.messages && m.wamid == x.wamid ensures m.dir == x.dir { SameWamid(reg, m, x); }
  }

  lemma DeliveredAged(reg: Reg, msgs: seq<Message>, now: int)
    requires RegOk(reg) && Copies(reg, msgs)
    ensures Aged(reg, DeliveredCall(reg, msgs, now).reg)
  {
    TodoReady(reg, msgs);
    MarkedAged(reg, DeliveredTodo(reg, msgs), Delivered, now);
    AgedSelf(reg);
  }

  lemma ReadAged(reg: Reg, customer: string, peer: string, now: int)
    requires RegOk(reg)
    ensures Aged(reg, ReadCall(reg, customer, peer, now).reg)
  {
    AgedSelf(reg);
    match GetBusiness(reg.businesses, peer)
    case None =>
    case Some(b) =>
      UnreadDeliveredIs(reg, customer, b.phone);
      MarkedAged(reg, UnreadDelivered(reg, customer, b.phone), JobKind.Read, now);
  }

  lemma MarkInboundAged(reg: Reg, phone: string, wamid: string, now: int)
    requires RegOk(reg)
    ensures Aged(reg, MarkInboundRead(reg, phone, wamid, now).reg)
  {
    AgedSelf(reg);
    var t := MarkInboundRead(reg, phone, wamid, now).reg;
    if t != reg {
      forall i | 0 <= i < |reg.messages|
        ensures Timeline(t.messages[i]) && t.messages[i] == reg.messages[i].(readAt := t.messages[i].readAt)
      {
        assert reg.messages[i] in reg.messages;
        if reg.messages[i].wamid == wamid { SameWamid(reg, reg.messages[i], GetMessage(reg.messages, wamid).value); }
      }
      TimesOk(reg, t);
    }
  }

  /** After `delivered` none of the given stored messages waits. */
  lemma DeliveredAll(reg: Reg, msgs: seq<Message>, now: int, m: Message)
    requires RegOk(reg) && Copies(reg, msgs) && m in DeliveredCall(reg, msgs, now).reg.messages
    requires exists x :: x in msgs && x.wamid == m.wamid
    ensures !Waiting(m)
  {
    var t := DeliveredCall(reg, msgs, now).reg;
    DeliveredAged(reg, msgs, now);
    var i :| 0 <= i < |t.messages| && t.messages[i] == m;
    assert reg.messages[i] in reg.messages;
    B.DeliveredOne(reg, msgs, now, i);
    if Waiting(reg.messages[i]) {
      UndeliveredIs(reg, msgs, reg.messages[i]);
      SortSame(Undelivered(reg, msgs));
    }
  }

  /** Delivering the queue of a customer leaves that customer nothing to wait for. */
  lemma QueueDelivered(reg: Reg, number: string, now: int)
    requires RegOk(reg)
    ensures Copies(reg, QueuedFor(reg, number)) && Aged(reg, DeliveredCall(reg, QueuedFor(reg, number), now).reg)
    ensures forall m | m in DeliveredCall(reg, QueuedFor(reg, number), now).reg.messages && m.customer == number :: !Waiting(m)
  {
    var q := QueuedFor(reg, number);
    QueuedForIs(reg, number);
    StoredCopies(reg, q);
    DeliveredAged(reg, q, now);
    var t := DeliveredCall(reg, q, now).reg;
    forall m | m in t.messages && m.customer == number ensures !Waiting(m) {
      var x := AgedMessage(reg, t, m);
      if Waiting(x) {
        assert x in q;
        DeliveredAll(reg, q, now, m);
      }
    }
  }

  // ---- who is online ----

  /** Nobody is online that was not. */
  ghost predicate NoneComes(l: Live, t: Live) {
    forall number :: IsOnline(t, number) ==> IsOnline(l, number)
  }

  /** Aging strands nobody. */
  lemma AgedStoreOk(l: Live, t: Live)
    requires StoreOk(l) && Aged(l.reg, t.reg) && t.pending == l.pending && NoneComes(l, t)
    ensures StoreOk(t)
  {
    forall m | m in t.reg.messages && m.wamid in t.pending
      ensures m.dir == t.pending[m.wamid].dir && m.customer == t.pending[m.wamid].customer
    {
      var x := AgedMessage(l.reg, t.reg, m);
    }
    forall m | m in t.reg.messages && Waiting(m) && IsOnline(t, m.customer) ensures m.wamid in t.pending {
      var x := AgedMessage(l.reg, t.reg, m);
    }
    forall m | m in t.reg.messages ensures GetBusiness(t.reg.businesses, m.phone).Some? {
      var x := AgedMessage(l.reg, t.reg, m);
    }
  }

  lemma SameOnline(l: Live, t: Live)
    requires t.reg.customers == l.reg.customers && t.net.index.Keys <= l.net.index.Keys
    ensures NoneComes(l, t)
  {
    forall number | IsOnline(t, number) ensures IsOnline(l, number) {
      assert GetCustomer(t.reg.customers, number).value.group in t.net.index;
    }
  }

  /** A lifecycle call that only ages the store. */
  lemma HappenedStoreOk(l: Live, e: Effect)
    requires StoreOk(l) && Aged(l.reg, e.reg)
    ensures StoreOk(Happened(l, e))
  {
    HappenedTalk(l, e);
    SameOnline(l, Happened(l, e));
    AgedStoreOk(l, Happened(l, e));
  }

  // ---- a new message ----

  lemma StoredPending(l: Live, d: Draft)
    requires StoreOk(l) && Fresh(l.reg, d.wamid) && d.wamid !in l.pending && GetBusiness(l.reg.businesses, d.phone).Some?
    requires d.dir.FromCustomer?
    ensures StoreOk(l.(reg := Stored(l.reg, d)))
  {
    var t := l.(reg := Stored(l.reg, d));
    StoredOk(l.reg, d);
    forall m | m in t.reg.messages && Waiting(m) && IsOnline(t, m.customer) ensures m.wamid in t.pending {
      assert m in l.reg.messages;
      assert IsOnline(l, m.customer);
    }
  }

  lemma InboundStoreOk(l: Live, sender: string, to: string, body: string, wamid: string, now: int)
    requires StoreOk(l) && Unseen(l, wamid)
    ensures StoreOk(Happened(l, InboundCall(l.reg, sender, to, body, wamid, now)))
  {
    var e := InboundCall(l.reg, sender, to, body, wamid, now);
    InboundNumbers(l.reg, sender, to, body, wamid, now);
    HappenedTalk(l, e);
    var t := Happened(l, e);
    if e.reg != l.reg {
      var c, b := GetCustomer(l.reg.customers, sender).value, GetBusiness(l.reg.businesses, to).value;
      StoredPending(l, Draft(wamid, FromCustomer, b.phone, c.number, body, now));
    }
    SameOnline(l.(reg := e.reg), t);
    AgedSelf(e.reg);
    AgedStoreOk(l.(reg := e.reg), t);
  }

  lemma StoredRegistered(reg: Reg, d: Draft)
    requires AllRegistered(reg, reg.businesses) && GetBusiness(reg.businesses, d.phone).Some?
    ensures AllRegistered(Stored(reg, d), reg.businesses)
  {}

  lemma StoredPendingOk(l: Live, d: Draft)
    requires PendingOk(l) && Fresh(l.reg, d.wamid) && d.dir.ToCustomer?
    ensures PendingOk(l.(reg := Stored(l.reg, d), pending := l.pending[d.wamid := MessageOf(l.reg, d)]))
  {}

  lemma StoredWaiting(l: Live, d: Draft)
    requires StoreOk(l) && Fresh(l.reg, d.wamid) && GetBusiness(l.reg.businesses, d.phone).Some? && d.dir.ToCustomer?
    ensures StoreOk(l.(reg := Stored(l.reg, d), pending := l.pending[d.wamid := MessageOf(l.reg, d)]))
  {
    var t := l.(reg := Stored(l.reg, d), pending := l.pending[d.wamid := MessageOf(l.reg, d)]);
    StoredOk(l.reg, d);
    StoredRegistered(l.reg, d);
    StoredPendingOk(l, d);
    SameOnline(l, t);
    forall m | m in t.reg.messages && Waiting(m) && IsOnline(t, m.customer) ensures m.wamid in t.pending {
      assert m == MessageOf(l.reg, d) || m in l.reg.messages;
    }
  }

  /** A send waits with its response under way. */
  lemma AcceptStoreOk(l: Live, phone: string, customer: string, text: string, wamid: string, delay: nat, now: int)
    requires StoreOk(l) && Unseen(l, wamid) && Registered(l.reg, phone)
    ensures StoreOk(AcceptSend(l, phone, customer, text, wamid, delay, now))
  {
    var d := Draft(wamid, ToCustomer, phone, customer, text, now);
    var e := Accepted(l.reg, phone, customer, text, wamid, delay, now);
    var l1 := l.(pending := l.pending[wamid := MessageOf(l.reg, d)]);
    StoredWaiting(l, d);
    HappenedTalk(l1, e);
    SameOnline(l1.(reg := e.reg), Happened(l1, e));
    AgedSelf(e.reg);
    AgedStoreOk(l1.(reg := e.reg), Happened(l1, e));
  }

  // ---- handing over ----

  lemma PendingCopies(l: Live, w: string)
    requires StoreOk(l) && w in l.pending
    ensures Copies(l.reg, [l.pending[w]])
  {}

  /** A response that is over leaves nothing stranded if its message no longer waits for an online tile. */
  lemma OneLessPending(l: Live, w: string)
    requires StoreOk(l)
    requires forall x | x in l.reg.messages && x.wamid == w :: !Waiting(x) || !IsOnline(l, x.customer)
    ensures StoreOk(l.(pending := l.pending - {w}))
  {
    var t := l.(pending := l.pending - {w});
    forall x | x in t.reg.messages && Waiting(x) && IsOnline(t, x.customer) ensures x.wamid in t.pending {
      assert IsOnline(l, x.customer);
    }
  }

  /** When a response finishes, its message is delivered or its tile is offline. */
  lemma FinishedStoreOk(l: Live, w: string, now: int)
    requires StoreOk(l) && w in l.pending
    ensures StoreOk(ResponseFinished(l, w, now))
  {
    ResponseTalk(l, w, now);
    DeliveredNowStoreOk(l, w, now);
    SameStoreOk(DeliverNow(l.(pending := l.pending - {w}), l.pending[w], now), ResponseFinished(l, w, now), "");
  }

  lemma DeliveredNowStoreOk(l: Live, w: string, now: int)
    requires StoreOk(l) && w in l.pending
    ensures StoreOk(DeliverNow(l.(pending := l.pending - {w}), l.pending[w], now))
    ensures var t := DeliverNow(l.(pending := l.pending - {w}), l.pending[w], now);
            t.pending == l.pending - {w} && t.net == l.net
  {
    DeliverNowTalk(l.(pending := l.pending - {w}), l.pending[w], now);
    var l0, m := l.(pending := l.pending - {w}), l.pending[w];
    var t := DeliverNow(l0, m, now);
    PendingCopies(l, w);
    if IsOnline(l, m.customer) {
      PushTalk(l0, m.customer, NewBubble(BubbleOf(m)), [m], now);
      DeliveredAged(l.reg, [m], now);
      DeliveredOneMore(l, t.(pending := l.pending), w, now);
      OneLessPending(t.(pending := l.pending), w);
    } else {
      OneLessPending(l, w);
    }
  }

  lemma DeliveredOneMore(l: Live, t: Live, w: string, now: int)
    requires StoreOk(l) && w in l.pending && Copies(l.reg, [l.pending[w]]) && Talk(l, t) && t.pending == l.pending
    requires t.reg == DeliveredCall(l.reg, [l.pending[w]], now).reg
    ensures StoreOk(t)
    ensures forall x | x in t.reg.messages && x.wamid == w :: !Waiting(x)
  {
    DeliveredAged(l.reg, [l.pending[w]], now);
    SameOnline(l, t);
    AgedStoreOk(l, t);
    assert l.pending[w] in [l.pending[w]];
    forall x | x in t.reg.messages && x.wamid == w ensures !Waiting(x) { DeliveredAll(l.reg, [l.pending[w]], now, x); }
  }

  lemma FlushReg(l: Live, number: string, now: int)
    ensures FlushTile(l, number, now).reg == if IsOnline(l, number) then DeliveredCall(l.reg, QueuedFor(l.reg, number), now).reg else l.reg
  {
    PushTalk(l, number, QueueFlush(Bubbles(QueuedFor(l.reg, number))), QueuedFor(l.reg, number), now);
    NothingDelivered(l.reg, now);
  }

  lemma NothingDelivered(reg: Reg, now: int)
    ensures DeliveredCall(reg, [], now).reg == reg
  {
    assert Undelivered(reg, []) == [];
  }

  lemma DeliverTileReg(l: Live, number: string, now: int)
    ensures DeliverTile(l, number, now).reg == if IsOnline(l, number) then DeliveredCall(l.reg, QueuedFor(l.reg, number), now).reg else l.reg
  {
    var ms := QueuedFor(l.reg, number);
    DeliveredNumbers(l.reg, ms, now);
    HappenedTalk(l, DeliveredCall(l.reg, ms, now));
    NothingDelivered(l.reg, now);
  }

  /** Nobody of these customers waits. */
  ghost predicate Cleared(reg: Reg, l: Live, tiles: seq<string>) {
    forall m | m in reg.messages && m.customer in tiles && IsOnline(l, m.customer) :: !Waiting(m)
  }

  lemma ClearedMore(l: Live, reg: Reg, t: Reg, tiles: seq<string>, number: string)
    requires Aged(reg, t) && Cleared(reg, l, tiles)
    requires forall m | m in t.messages && m.customer == number && IsOnline(l, number) :: !Waiting(m)
    ensures Cleared(t, l, tiles + [number])
  {
    forall m | m in t.messages && m.customer in tiles + [number] && IsOnline(l, m.customer) ensures !Waiting(m) {
      var x := AgedMessage(reg, t, m);
    }
  }

  /** Tiles one after the other: all their online customers end with nothing waiting. */
  lemma {:induction false} TilesDelivered(l: Live, tiles: seq<string>, now: int)
    requires RegOk(l.reg)
    ensures Aged(l.reg, DeliverTiles(l, tiles, now).reg) && Cleared(DeliverTiles(l, tiles, now).reg, l, tiles)
  {
    if tiles == [] {
      AgedSelf(l.reg);
    } else {
      var n := |tiles| - 1;
      var l1 := DeliverTiles(l, tiles[..n], now);
      TilesDelivered(l, tiles[..n], now);
      DeliverTilesTalk(l, tiles[..n], now);
      TilesUnfold(l, tiles, now);
      LastTileDelivered(l, l1, DeliverTiles(l, tiles, now), tiles[..n], tiles[n], now);
    }
  }

  lemma TilesUnfold(l: Live, tiles: seq<string>, now: int)
    requires tiles != []
    ensures var n := |tiles| - 1;
            tiles[..n] + [tiles[n]] == tiles && DeliverTiles(l, tiles, now) == DeliverTile(DeliverTiles(l, tiles[..n], now), tiles[n], now)
  {}

  lemma LastTileDelivered(l: Live, l1: Live, t: Live, tiles: seq<string>, number: string, now: int)
    requires Aged(l.reg, l1.reg) && Cleared(l1.reg, l, tiles) && l1.reg.customers == l.reg.customers && l1.net == l.net
    requires t == DeliverTile(l1, number, now)
    ensures Aged(l.reg, t.reg) && Cleared(t.reg, l, tiles + [number])
  {
    DeliverTileReg(l1, number, now);
    QueueDelivered(l1.reg, number, now);
    AgedSelf(l1.reg);
    assert IsOnline(l1, number) == IsOnline(l, number);
    AgedTrans(l.reg, l1.reg, t.reg);
    ClearedMore(l, l1.reg, t.reg, tiles, number);
  }

  lemma {:induction false} TilesOfIs(cs: seq<Customer>, g: string)
    ensures forall c | c in cs && c.group == g :: c.number in TilesOf(cs, g)
  {
    if cs != [] {
      TilesOfIs(cs[..|cs| - 1], g);
      assert cs == cs[..|cs| - 1] + [cs[|cs| - 1]];
    }
  }

  // ---- the steps ----

  /** Whoever is online after a claim was online before, or shows the claimed group. */
  lemma ClaimComes(l: Live, t: Live, g: string, number: string)
    requires t.reg.customers == l.reg.customers && t.net.index.Keys <= l.net.index.Keys + {g} && IsOnline(t, number)
    ensures IsOnline(l, number) || (GetCustomer(l.reg.customers, number).Some? && GetCustomer(l.reg.customers, number).value.group == g)
  {}

  /** A claim marks what waits in its online tiles: nothing stays behind. */
  lemma TakeStoreOk(l: Live, sid: nat, g: string, now: int)
    requires StoreOk(l) && sid in l.net.sessions && CanTake(l, sid, g)
    ensures StoreOk(TakeGroup(l, sid, g, now))
  {
    var l0 := l.(net := Claimed(l.net, sid, g, now));
    var l1 := SendSnapshot(l0, sid, g);
    var tiles := TilesOf(l1.reg.customers, g);
    SnapshotTalk(l0, sid, g);
    DeliverTilesTalk(l1, tiles, now);
    TilesDelivered(l1, tiles, now);
    TilesOfIs(l1.reg.customers, g);
    ClaimedStoreOk(l, DeliverTiles(l1, tiles, now), g, tiles);
  }

  lemma ClaimStoreOk(l: Live, sid: nat, g: string, now: int)
    requires StoreOk(l) && sid in l.net.sessions
    ensures StoreOk(ClaimGroup(l, sid, g, now))
  {
    if CanTake(l, sid, g) {
      var t := TakeGroup(l, sid, g, now);
      TakeStoreOk(l, sid, g, now);
      LockChangedNet(t);
      SameStoreOk(t, LockChanged(t), "");
    } else {
      SameStoreOk(l, SendTab(l, sid, Other), "");
    }
  }

  lemma ClaimedStoreOk(l: Live, t: Live, g: string, tiles: seq<string>)
    requires StoreOk(l) && Aged(l.reg, t.reg) && t.pending == l.pending && SameNumbers(l.reg, t.reg)
    requires t.net.index.Keys <= l.net.index.Keys + {g} && Cleared(t.reg, t, tiles)
    requires forall c | c in l.reg.customers && c.group == g :: c.number in tiles
    ensures StoreOk(t)
  {
    var hush := t.(net := l.net);
    SameOnline(l, hush);
    AgedStoreOk(l, hush);
    forall m | m in t.reg.messages && Waiting(m) && IsOnline(t, m.customer) ensures m.wamid in t.pending {
      ClaimComes(l, t, g, m.customer);
      assert IsOnline(l, m.customer) || m.customer in tiles;
      assert IsOnline(hush, m.customer) == IsOnline(l, m.customer);
    }
  }

  lemma {:induction false} GetSwitched(cs: seq<Customer>, number: string, online: bool, k: string)
    ensures GetCustomer(WithOnline(cs, number, online), k) ==
            match GetCustomer(cs, k) case Some(c) => Some(if k == number then c.(online := online) else c) case None => None
  {
    if cs != [] {
      assert WithOnline(cs, number, online)[1..] == WithOnline(cs[1..], number, online);
      GetSwitched(cs[1..], number, online, k);
    }
  }

  lemma {:induction false} GetModed(cs: seq<Customer>, number: string, mode: ReplyMode, k: string)
    ensures GetCustomer(WithMode(cs, number, mode), k) ==
            match GetCustomer(cs, k) case Some(c) => Some(if k == number then c.(mode := mode) else c) case None => None
  {
    if cs != [] {
      assert WithMode(cs, number, mode)[1..] == WithMode(cs[1..], number, mode);
      GetModed(cs[1..], number, mode, k);
    }
  }

  /** Only customers changed: nothing of the messages, and the conversations stay consistent. */
  lemma CustomersStoreOk(l: Live, cs: seq<Customer>)
    requires StoreOk(l) && CustomersOnce(cs)
    requires forall m | m in l.reg.messages && Waiting(m) && IsOnline(l.(reg := l.reg.(customers := cs)), m.customer) :: IsOnline(l, m.customer)
    ensures StoreOk(l.(reg := l.reg.(customers := cs)))
  {
    NumbersOk(l.reg, l.reg.businesses, cs);
  }

  lemma NumbersOk(reg: Reg, bs: seq<Business>, cs: seq<Customer>)
    requires RegOk(reg)
    ensures RegOk(reg.(businesses := bs, customers := cs))
  {
    var t := reg.(businesses := bs, customers := cs);
    forall k | k in t.convs ensures Numbered(t, k) { assert Numbered(reg, k); }
  }

  /** `StoreOk`, but messages may wait for this one number. */
  ghost predicate StoreOkBut(l: Live, number: string) {
    && RegOk(l.reg) && AllRegistered(l.reg, l.reg.businesses) && CustomersOnce(l.reg.customers) && PendingOk(l)
    && (forall m | m in l.reg.messages && Waiting(m) && m.customer != number && IsOnline(l, m.customer) :: m.wamid in l.pending)
  }

  /** Flushing the queue of an online number makes it whole again. */
  lemma FlushHeals(l: Live, number: string, now: int)
    requires StoreOkBut(l, number)
    ensures StoreOk(FlushTile(l, number, now))
  {
    var t := FlushTile(l, number, now);
    FlushReg(l, number, now);
    FlushTalk(l, number, now);
    QueueDelivered(l.reg, number, now);
    AgedSelf(l.reg);
    assert Aged(l.reg, t.reg);
    SameOnline(l, t);
    HealedBut(l, t, number);
  }

  lemma HealedBut(l: Live, t: Live, number: string)
    requires StoreOkBut(l, number) && Aged(l.reg, t.reg) && t.pending == l.pending && NoneComes(l, t) && SameNumbers(l.reg, t.reg)
    requires IsOnline(t, number) ==> forall m | m in t.reg.messages && m.customer == number :: !Waiting(m)
    ensures StoreOk(t)
  {
    forall m | m in t.reg.messages && m.wamid in t.pending
      ensures m.dir == t.pending[m.wamid].dir && m.customer == t.pending[m.wamid].customer
    {
      var x := AgedMessage(l.reg, t.reg, m);
    }
    forall m | m in t.reg.messages && Waiting(m) && IsOnline(t, m.customer) ensures m.wamid in t.pending {
      var x := AgedMessage(l.reg, t.reg, m);
    }
    forall m | m in t.reg.messages ensures GetBusiness(t.reg.businesses, m.phone).Some? {
      var x := AgedMessage(l.reg, t.reg, m);
    }
  }

  lemma SwitchedStoreOk(l: Live, number: string, online: bool)
    requires StoreOk(l)
    ensures StoreOkBut(l.(reg := l.reg.(customers := WithOnline(l.reg.customers, number, online))), number)
    ensures !online ==> StoreOk(l.(reg := l.reg.(customers := WithOnline(l.reg.customers, number, online))))
  {
    var cs := WithOnline(l.reg.customers, number, online);
    NumbersOk(l.reg, l.reg.businesses, cs);
    var t := l.(reg := l.reg.(customers := cs));
    forall m | m in t.reg.messages && Waiting(m) && (m.customer != number || !online) && IsOnline(t, m.customer) ensures m.wamid in t.pending {
      GetSwitched(l.reg.customers, number, online, m.customer);
      assert IsOnline(l, m.customer);
    }
  }

  lemma SameStoreOk(l: Live, t: Live, number: string)
    requires t.reg == l.reg && t.pending == l.pending && t.net.index == l.net.index
    ensures StoreOk(l) ==> StoreOk(t)
    ensures StoreOkBut(l, number) ==> StoreOkBut(t, number)
  {
    assert forall k :: IsOnline(t, k) == IsOnline(l, k);
  }

  lemma PresenceStoreOk(l: Live, number: string, online: bool, now: int)
    requires StoreOk(l)
    ensures StoreOk(SetPresence(l, number, online, now))
  {
    var l0 := l.(reg := l.reg.(customers := WithOnline(l.reg.customers, number, online)));
    var l1 := NumbersChanged(l0);
    var l2 := SendTile(l1, number, Other);
    SwitchedStoreOk(l, number, online);
    SameStoreOk(l0, l1, number);
    SameStoreOk(l1, l2, number);
    if SessionFor(l1, number).None? {
      assert forall m | m in l1.reg.messages && Waiting(m) && IsOnline(l1, m.customer) :: m.customer != number;
    } else if online {
      FlushHeals(l2, number, now);
    }
  }

  lemma ModeStoreOk(l: Live, number: string, mode: ReplyMode)
    requires StoreOk(l)
    ensures StoreOk(SetAutoReply(l, number, mode))
  {
    var cs := WithMode(l.reg.customers, number, mode);
    var l0 := l.(reg := l.reg.(customers := cs));
    forall k | IsOnline(l0, k) ensures IsOnline(l, k) { GetModed(l.reg.customers, number, mode, k); }
    CustomersStoreOk(l, cs);
    SameStoreOk(l0, NumbersChanged(l0), number);
    SameStoreOk(NumbersChanged(l0), SetAutoReply(l, number, mode), number);
  }

  lemma BusinessesStoreOk(l: Live, bs: seq<Business>)
    requires StoreOk(l) && AllRegistered(l.reg, bs)
    ensures StoreOk(NumbersChanged(l.(reg := l.reg.(businesses := bs))))
  {
    var t := l.(reg := l.reg.(businesses := bs));
    NumbersOk(l.reg, bs, l.reg.customers);
    SameOnline(l, t);
    SameStoreOk(t, NumbersChanged(t), "");
  }

  lemma {:induction false} GetAppended(cs: seq<Customer>, ds: seq<Customer>, k: string)
    ensures GetCustomer(cs + ds, k) == if GetCustomer(cs, k).Some? then GetCustomer(cs, k) else GetCustomer(ds, k)
  {
    if cs == [] {
      assert cs + ds == ds;
    } else {
      assert (cs + ds)[1..] == cs[1..] + ds;
      GetAppended(cs[1..], ds, k);
    }
  }

  lemma {:induction false} GetWithout(cs: seq<Customer>, g: string, k: string)
    requires CustomersOnce(cs)
    ensures CustomersOnce(WithoutGroup(cs, g))
    ensures forall c :: c in WithoutGroup(cs, g) <==> c in cs && c.group != g
    ensures GetCustomer(WithoutGroup(cs, g), k).Some? ==> GetCustomer(WithoutGroup(cs, g), k) == GetCustomer(cs, k)
  {
    WithoutGroupIs(cs, g);
    var r := GetCustomer(WithoutGroup(cs, g), k);
    if r.Some? {
      var i :| 0 <= i < |cs| && cs[i] == r.value;
      var x := GetCustomer(cs, k).value;
      var j :| 0 <= j < |cs| && cs[j] == x;
    }
  }

  lemma {:induction false} WithoutGroupIs(cs: seq<Customer>, g: string)
    requires CustomersOnce(cs)
    ensures CustomersOnce(WithoutGroup(cs, g))
    ensures forall c :: c in WithoutGroup(cs, g) <==> c in cs && c.group != g
  {
    if cs != [] {
      var init, last := cs[..|cs| - 1], cs[|cs| - 1];
      WithoutGroupIs(init, g);
      assert cs == init + [last];
      forall c | c in WithoutGroup(init, g) ensures c.number != last.number {
        assert c in init;
        var i :| 0 <= i < |init| && init[i] == c;
      }
    }
  }

  lemma CreateStoreOk(l: Live, g: string, numbers: seq<string>)
    requires StoreOk(l) && NetOk(l) && TableEnabled(l, ApiCreateGroup(g, numbers))
    ensures StoreOk(CreateGroup(l, g, numbers))
  {
    var added := seq(|numbers|, i requires 0 <= i < |numbers| => Customer(numbers[i], g, true, Manual));
    var cs := l.reg.customers + added;
    var l0 := l.(reg := l.reg.(customers := cs));
    LockedIsIndexed(l.net);
    assert g !in l.net.index;
    forall k | IsOnline(l0, k) ensures IsOnline(l, k) { GetAppended(l.reg.customers, added, k); }
    forall i, j | 0 <= i < j < |cs| ensures cs[i].number != cs[j].number {
      if i < |l.reg.customers| <= j { assert numbers[j - |l.reg.customers|] in numbers; assert l.reg.customers[i] in l.reg.customers; }
    }
    CustomersStoreOk(l, cs);
    SameStoreOk(l0, CreateGroup(l, g, numbers), "");
  }

  lemma DeleteStoreOk(l: Live, g: string)
    requires StoreOk(l)
    ensures StoreOk(DeleteGroup(l, g))
  {
    var cs := WithoutGroup(l.reg.customers, g);
    var l0 := l.(reg := l.reg.(customers := cs));
    WithoutGroupIs(l.reg.customers, g);
    forall k | IsOnline(l0, k) ensures IsOnline(l, k) { GetWithout(l.reg.customers, g, k); }
    CustomersStoreOk(l, cs);
    if g !in l.net.locks && g in l.groups { SameStoreOk(l0, DeleteGroup(l, g), ""); }
  }

  lemma LessIndexStoreOk(l: Live, t: Live)
    requires StoreOk(l) && t.reg == l.reg && t.pending == l.pending && t.net.index.Keys <= l.net.index.Keys
    ensures StoreOk(t)
  {
    SameOnline(l, t);
    AgedSelf(l.reg);
    AgedStoreOk(l, t);
  }

  /** Without messages nothing is stranded. */
  lemma WipedStoreOk(l: Live, t: Live, keep: bool)
    requires StoreOk(l) && t.reg == WipedReg(l.reg, keep) && t.pending == l.pending
    ensures StoreOk(t)
  {}

  lemma RefreshOneReg(l: Live, g: string, sid: nat, keep: bool)
    ensures RefreshOne(l, g, sid, keep).reg == l.reg && RefreshOne(l, g, sid, keep).pending == l.pending
  {
    if sid in l.net.sessions {
      if keep && g in l.groups { SnapshotTalk(l, sid, g); } else { DisconnectNet(SendTab(l, sid, Other), sid); }
    }
  }

  lemma {:induction false} RefreshReg(l: Live, holders: seq<(string, nat)>, keep: bool)
    ensures RefreshAll(l, holders, keep).reg == l.reg && RefreshAll(l, holders, keep).pending == l.pending
  {
    if holders != [] {
      var n := |holders| - 1;
      RefreshReg(l, holders[..n], keep);
      RefreshOneReg(RefreshAll(l, holders[..n], keep), holders[n].0, holders[n].1, keep);
    }
  }

  lemma WipeReg(l: Live, keep: bool, holders: seq<(string, nat)>)
    ensures WipeAll(l, keep, holders).reg == WipedReg(l.reg, keep) && WipeAll(l, keep, holders).pending == l.pending
  {
    var l1 := l.(reg := WipedReg(l.reg, keep), groups := if keep then l.groups else []);
    ResetFeedNet(l1);
    RefreshReg(ResetFeed(l1), holders, keep);
  }

  lemma GoneStoreOk(l: Live, sid: nat, final: bool)
    requires StoreOk(l) && sid in l.net.sessions
    ensures StoreOk(GoneSession(l, sid, final))
  {
    GoneFrame(l, sid, final);
    LessIndexStoreOk(l, GoneSession(l, sid, final));
  }

  /** The end of a socket leaves the store alone and gives up at most a group. */
  lemma GoneFrame(l: Live, sid: nat, final: bool)
    requires sid in l.net.sessions
    ensures var t := GoneSession(l, sid, final);
            t.reg == l.reg && t.pending == l.pending && t.net.index.Keys <= l.net.index.Keys && SameMarks(l, t)
  {
    GoneIs(l, sid, final);
    GoneIndex(l.net, sid, final);
  }

  lemma GoneIndex(n: Net, sid: nat, final: bool)
    requires sid in n.sessions
    ensures SocketGone(n, sid, final).index.Keys <= n.index.Keys
  {}

  lemma SubscribeFrames(l: Live, sid: nat)
    requires sid in l.net.sessions
    ensures var t := SubscribeAdmin(l, sid); t.reg == l.reg && t.pending == l.pending && t.net.index == l.net.index && SameMarks(l, t)
  {
    if l.net.sessions[sid].role.NoRole? {
      var l1 := l.(net := Subscribed(l.net, sid), admins := l.admins + {sid});
      SendFeedFrame(l1, sid, GroupsFrame(l1));
      SendFeedFrame(SendFeed(l1, sid, GroupsFrame(l1)), sid, NumbersFrame(SendFeed(l1, sid, GroupsFrame(l1))));
    } else {
      NoiseTalk(l, sid);
    }
  }

  lemma SendFeedFrame(l: Live, sid: nat, f: FeedFrame)
    ensures SendFeed(l, sid, f) == l.(feeds := SendFeed(l, sid, f).feeds)
  {}

  lemma SubscribeStoreOk(l: Live, sid: nat)
    requires StoreOk(l) && sid in l.net.sessions
    ensures StoreOk(SubscribeAdmin(l, sid))
  {
    SubscribeFrames(l, sid);
    LessIndexStoreOk(l, SubscribeAdmin(l, sid));
  }

  lemma BeatStoreOk(l: Live, t: Live)
    requires StoreOk(l) && t == l.(net := t.net) && t.net.index == l.net.index
    ensures StoreOk(t)
  {
    LessIndexStoreOk(l, t);
  }

  lemma LinkingStoreOk(l: Live, st: LinkStep)
    requires StoreOk(l) && LinkEnabled(l, st)
    ensures StoreOk(LinkApply(l, st))
  {
    match st
    case ClaimFrame(sid, g, now) => ClaimStoreOk(l, sid, g, now);
    case SocketEnds(sid, final) => GoneStoreOk(l, sid, final);
    case SubscribeFrame(sid) => SubscribeStoreOk(l, sid);
    case Opened(sid) => BeatStoreOk(l, l.(net := Connected(l.net, sid)));
    case Heartbeat => BeatStoreOk(l, l.(net := Ticked(l.net)));
    case PongFrame(sid) => BeatStoreOk(l, l.(net := Ponged(l.net, sid)));
  }

  lemma SendStoreOk(l: Live, sid: nat, number: string, to: string, body: string, wamid: string, now: int)
    requires StoreOk(l) && sid in l.net.sessions && Unseen(l, wamid)
    ensures StoreOk(SendMessage(l, sid, number, to, body, wamid, now))
  {
    SameStoreOk(l, SendTab(l, sid, Other), "");
    if GetBusiness(l.reg.businesses, to).Some? {
      InboundStoreOk(l, number, GetBusiness(l.reg.businesses, to).value.phone, body, wamid, now);
    }
  }

  lemma ReadStoreOk(l: Live, sid: nat, number: string, peer: string, now: int)
    requires StoreOk(l) && sid in l.net.sessions
    ensures StoreOk(ReadChat(l, sid, number, peer, now))
  {
    SameStoreOk(l, SendTab(l, sid, Other), "");
    if GetBusiness(l.reg.businesses, peer).Some? {
      var phone := GetBusiness(l.reg.businesses, peer).value.phone;
      ReadAged(l.reg, number, phone, now);
      HappenedStoreOk(l, ReadCall(l.reg, number, phone, now));
    }
  }

  lemma TalkingStoreOk(l: Live, st: TalkStep)
    requires StoreOk(l) && TalkEnabled(l, st)
    ensures StoreOk(TalkApply(l, st))
  {
    match st
    case SendFrame(sid, number, to, body, wamid, now) => SendStoreOk(l, sid, number, to, body, wamid, now);
    case ReadFrame(sid, number, peer, now) => ReadStoreOk(l, sid, number, peer, now);
    case HttpSend(phone, customer, text, wamid, delay, now) => AcceptStoreOk(l, phone, customer, text, wamid, delay, now);
    case HttpFinished(wamid, now) => FinishedStoreOk(l, wamid, now);
    case HttpRead(phone, wamid, now) =>
      MarkInboundAged(l.reg, phone, wamid, now);
      HappenedStoreOk(l, MarkInboundRead(l.reg, phone, wamid, now));
    case Inject(sender, to, body, wamid, now) => InboundStoreOk(l, sender, to, body, wamid, now);
    case AutoReply(customer, to, body, wamid, now) => InboundStoreOk(l, customer, to, body, wamid, now);
  }

  lemma SwitchStoreOk(l: Live, st: SwitchStep)
    requires StoreOk(l) && SwitchEnabled(l, st)
    ensures StoreOk(SwitchApply(l, st))
  {
    match st
    case PresenceFrame(sid, number, online, now) =>
      SameStoreOk(l, SendTab(l, sid, Other), "");
      PresenceStoreOk(l, number, online, now);
    case ApiPresence(number, online, now) => PresenceStoreOk(l, number, online, now);
    case AutoReplyFrame(sid, number, mode) =>
      SameStoreOk(l, SendTab(l, sid, Other), "");
      ModeStoreOk(l, number, mode);
    case ApiAutoReply(number, mode) =>
      ModeStoreOk(l, number, mode);
      SameStoreOk(SetAutoReply(l, number, mode), NumbersChanged(SetAutoReply(l, number, mode)), "");
  }

  lemma TableStoreOk(l: Live, st: TableStep)
    requires StoreOk(l) && NetOk(l) && TableEnabled(l, st)
    ensures StoreOk(TableApply(l, st))
  {
    match st
    case ApiBusinesses(bs) => BusinessesStoreOk(l, bs);
    case ApiCreateGroup(g, numbers) => CreateStoreOk(l, g, numbers);
    case ApiDeleteGroup(g) => DeleteStoreOk(l, g);
    case ApiReset(keep, holders) =>
      WipeReg(l, keep, holders);
      WipedStoreOk(l, WipeAll(l, keep, holders), keep);
  }

  /** Nothing is stranded after any callback. */
  lemma StepStoreOk(l: Live, st: LiveStep)
    requires StoreOk(l) && NetOk(l) && LiveEnabled(l, st)
    ensures StoreOk(LiveApply(l, st))
  {
    match st
    case Linking(s) => LinkingStoreOk(l, s);
    case Talking(s) => TalkingStoreOk(l, s);
    case Switching(s) => SwitchStoreOk(l, s);
    case Arranging(s) => TableStoreOk(l, s);
    case Logging(s) =>
      NoteTalk(l, s);
      SameStoreOk(l, NoteApply(l, s), "");
  }
}
