/** The message store behind the emulator: numbers, customers, conversations and the status timeline of each message. */
module Registry {
  import opened Prelude

  datatype Direction = ToCustomer | FromCustomer
  datatype Status = WasSent | WasDelivered | WasRead

  datatype Business = Business(phone: string, display: string)
  datatype ReplyMode = Manual | Echo | Keyword

  /** `online` is the tile's own switch. */
  datatype Customer = Customer(number: string, group: string, online: bool, mode: ReplyMode)

  /** `conv` and `no` are the conversation id and the per-conversation sequence number. */
  datatype Message = Message(wamid: string, conv: nat, no: nat, dir: Direction, phone: string, customer: string,
                             sender: string, recipient: string, body: string, createdAt: int,
                             sentAt: Option<int>, deliveredAt: Option<int>, readAt: Option<int>)

  datatype Draft = Draft(wamid: string, dir: Direction, phone: string, customer: string, body: string, at: int)
  datatype Conv = Conv(id: nat, next: nat)

  datatype Reg = Reg(businesses: seq<Business>, customers: seq<Customer>, messages: seq<Message>,
                     convs: map<(string, string), Conv>, nextConv: nat)

  const EmptyReg := Reg([], [], [], map[], 1)

  /** The first business registered under this id or display number. */
  function GetBusiness(bs: seq<Business>, key: string): (r: Option<Business>)
    ensures r.Some? ==> r.value in bs && (r.value.phone == key || r.value.display == key)
    ensures r.None? ==> forall b | b in bs :: b.phone != key && b.display != key
  {
    if bs == [] then None
    else if bs[0].phone == key || bs[0].display == key then Some(bs[0])
    else GetBusiness(bs[1..], key)
  }

  function GetCustomer(cs: seq<Customer>, number: string): (r: Option<Customer>)
    ensures r.Some? ==> r.value in cs && r.value.number == number
    ensures r.None? ==> forall c | c in cs :: c.number != number
  {
    if cs == [] then None else if cs[0].number == number then Some(cs[0]) else GetCustomer(cs[1..], number)
  }

  function GetMessage(ms: seq<Message>, wamid: string): (r: Option<Message>)
    ensures r.Some? ==> r.value in ms && r.value.wamid == wamid
    ensures r.None? ==> forall m | m in ms :: m.wamid != wamid
  {
    if ms == [] then None else if ms[0].wamid == wamid then Some(ms[0]) else GetMessage(ms[1..], wamid)
  }

  function ConvOf(reg: Reg, d: Draft): Conv {
    var key := (d.phone, d.customer);
    if key in reg.convs then reg.convs[key] else Conv(reg.nextConv, 1)
  }

  function DisplayOf(reg: Reg, phone: string): string {
    match GetBusiness(reg.businesses, phone) case Some(b) => b.display case None => phone
  }

  function MessageOf(reg: Reg, d: Draft): Message {
    var shown := DisplayOf(reg, d.phone);
    Message(d.wamid, ConvOf(reg, d).id, ConvOf(reg, d).next, d.dir, d.phone, d.customer,
            if d.dir.ToCustomer? then shown else d.customer, if d.dir.ToCustomer? then d.customer else shown,
            d.body, d.at, if d.dir.ToCustomer? then Some(d.at) else None, None, None)
  }

  function Stored(reg: Reg, d: Draft): Reg {
    var c := ConvOf(reg, d);
    reg.(messages := reg.messages + [MessageOf(reg, d)],
         convs := reg.convs[(d.phone, d.customer) := c.(next := c.next + 1)],
         nextConv := if (d.phone, d.customer) in reg.convs then reg.nextConv else reg.nextConv + 1)
  }

  /** Timestamps are written once. */
  function MarkDelivered(m: Message, wamids: seq<string>, at: int): Message {
    if m.wamid in wamids && m.deliveredAt.None? then m.(deliveredAt := Some(at)) else m
  }

  function MarkRead(m: Message, wamids: seq<string>, at: int): Message {
    if m.wamid in wamids && m.readAt.None? then m.(readAt := Some(at)) else m
  }

  function SetDelivered(reg: Reg, wamids: seq<string>, at: int): Reg {
    reg.(messages := seq(|reg.messages|, i requires 0 <= i < |reg.messages| => MarkDelivered(reg.messages[i], wamids, at)))
  }

  function SetRead(reg: Reg, wamids: seq<string>, at: int): Reg {
    reg.(messages := seq(|reg.messages|, i requires 0 <= i < |reg.messages| => MarkRead(reg.messages[i], wamids, at)))
  }

  predicate Unread(m: Message, customer: string, phone: string) {
    m.dir.ToCustomer? && m.customer == customer && m.phone == phone && m.deliveredAt.Some? && m.readAt.None?
  }

  predicate InQueue(m: Message, customer: string) {
    m.dir.ToCustomer? && m.customer == customer && m.deliveredAt.None?
  }

  /** Messages come out by conversation, then by number; equal keys keep their order. */
  predicate Before(a: Message, b: Message) {
    a.conv < b.conv || (a.conv == b.conv && a.no < b.no)
  }

  function InsertByNo(ms: seq<Message>, m: Message): (r: seq<Message>)
    ensures multiset(r) == multiset(ms) + multiset{m}
  {
    if ms == [] || !Before(m, ms[|ms| - 1]) then ms + [m]
    else
      assert ms == ms[..|ms| - 1] + [ms[|ms| - 1]];
      InsertByNo(ms[..|ms| - 1], m) + [ms[|ms| - 1]]
  }

  function SortByNo(ms: seq<Message>): (r: seq<Message>)
    ensures multiset(r) == multiset(ms)
  {
    if ms == [] then []
    else
      assert ms == ms[..|ms| - 1] + [ms[|ms| - 1]];
      InsertByNo(SortByNo(ms[..|ms| - 1]), ms[|ms| - 1])
  }

  function UnreadOf(ms: seq<Message>, customer: string, phone: string): seq<Message> {
    if ms == [] then [] else
      var m := ms[|ms| - 1];
      UnreadOf(ms[..|ms| - 1], customer, phone) + if Unread(m, customer, phone) then [m] else []
  }

  function QueueOf(ms: seq<Message>, customer: string): seq<Message> {
    if ms == [] then [] else
      var m := ms[|ms| - 1];
      QueueOf(ms[..|ms| - 1], customer) + if InQueue(m, customer) then [m] else []
  }

  /** Delivered but not read, in one chat, by number. */
  function UnreadDelivered(reg: Reg, customer: string, phone: string): seq<Message> {
    SortByNo(UnreadOf(reg.messages, customer, phone))
  }

  /** Not yet delivered to this customer, by conversation and number. */
  function QueuedFor(reg: Reg, customer: string): seq<Message> {
    SortByNo(QueueOf(reg.messages, customer))
  }

  function Wamids(ms: seq<Message>): (r: seq<string>)
    ensures |r| == |ms| && forall i | 0 <= i < |ms| :: r[i] == ms[i].wamid
  {
    seq(|ms|, i requires 0 <= i < |ms| => ms[i].wamid)
  }

  /** Messages and conversations go; numbers stay only if asked. Conversation ids are never reused. */
  function WipedReg(reg: Reg, keepNumbers: bool): Reg {
    Reg(if keepNumbers then reg.businesses else [], if keepNumbers then reg.customers else [], [], map[], reg.nextConv)
  }

  // ---- the invariant ----

  function OfConv(ms: seq<Message>, c: nat): seq<Message> {
    if ms == [] then [] else
      var m := ms[|ms| - 1];
      OfConv(ms[..|ms| - 1], c) + if m.conv == c then [m] else []
  }

  /** Read implies delivered implies sent, for what goes to a customer; nothing but `read` for what comes from one. */
  predicate Timeline(m: Message) {
    && (m.dir.ToCustomer? <==> m.sentAt.Some?)
    && (m.deliveredAt.Some? ==> m.dir.ToCustomer?)
    && (m.dir.ToCustomer? && m.readAt.Some? ==> m.deliveredAt.Some?)
  }

  /** The messages of a conversation are numbered 1, 2, 3, ... up to just before its next number. */
  ghost predicate Numbered(reg: Reg, key: (string, string))
    requires key in reg.convs
  {
    var ms := OfConv(reg.messages, reg.convs[key].id);
    |ms| + 1 == reg.convs[key].next && forall i | 0 <= i < |ms| :: ms[i].no == i + 1
  }

  ghost predicate Unique(ms: seq<Message>) {
    forall i, j | 0 <= i < j < |ms| :: ms[i].wamid != ms[j].wamid
  }

  ghost predicate RegOk(reg: Reg) {
    && Unique(reg.messages)
    && (forall m | m in reg.messages :: Timeline(m) && (m.phone, m.customer) in reg.convs && reg.convs[(m.phone, m.customer)].id == m.conv)
    && (forall k | k in reg.convs :: reg.convs[k].id < reg.nextConv && Numbered(reg, k))
    && (forall k, l | k in reg.convs && l in reg.convs && reg.convs[k].id == reg.convs[l].id :: k == l)
  }

  lemma OfConvAppend(ms: seq<Message>, m: Message, c: nat)
    ensures OfConv(ms + [m], c) == OfConv(ms, c) + if m.conv == c then [m] else []
  {
    assert (ms + [m])[..|ms|] == ms;
  }

  lemma {:induction false} OfConvIn(ms: seq<Message>, c: nat)
    ensures forall m :: m in OfConv(ms, c) <==> m in ms && m.conv == c
  {
    if ms != [] {
      OfConvIn(ms[..|ms| - 1], c);
      assert ms == ms[..|ms| - 1] + [ms[|ms| - 1]];
    }
  }

  ghost predicate Fresh(reg: Reg, wamid: string) {
    forall m | m in reg.messages :: m.wamid != wamid
  }

  lemma {:induction false} OfConvNone(ms: seq<Message>, c: nat)
    requires forall m | m in ms :: m.conv != c
    ensures OfConv(ms, c) == []
  {
    if ms != [] { OfConvNone(ms[..|ms| - 1], c); }
  }

  lemma StoredNumbered(reg: Reg, d: Draft, k: (string, string))
    requires RegOk(reg) && k in Stored(reg, d).convs
    ensures Numbered(Stored(reg, d), k)
  {
    var t, m := Stored(reg, d), MessageOf(reg, d);
    OfConvAppend(reg.messages, m, t.convs[k].id);
    if k in reg.convs {
      assert Numbered(reg, k);
    } else {
      OfConvNone(reg.messages, reg.nextConv);
    }
  }

  /** A stored message gets the next number of its conversation, and the store stays in order. */
  lemma StoredOk(reg: Reg, d: Draft)
    requires RegOk(reg) && Fresh(reg, d.wamid)
    ensures RegOk(Stored(reg, d))
  {
    var t, m := Stored(reg, d), MessageOf(reg, d);
    forall x | x in t.messages ensures Timeline(x) && (x.phone, x.customer) in t.convs && t.convs[(x.phone, x.customer)].id == x.conv {
      if x != m { assert x in reg.messages; }
    }
    forall k | k in t.convs ensures Numbered(t, k) { StoredNumbered(reg, d, k); }
    forall i, j | 0 <= i < j < |t.messages| ensures t.messages[i].wamid != t.messages[j].wamid {
      assert t.messages[i] in reg.messages;
    }
  }

  /** `t` differs from `s` at most in the delivered and read times of messages. */
  ghost predicate SameButTimes(s: Reg, t: Reg) {
    && t == s.(messages := t.messages) && |t.messages| == |s.messages|
    && forall i | 0 <= i < |s.messages| ::
         t.messages[i] == s.messages[i].(deliveredAt := t.messages[i].deliveredAt, readAt := t.messages[i].readAt)
  }

  lemma {:induction false} OfConvSame(ms: seq<Message>, ns: seq<Message>, c: nat)
    requires |ms| == |ns| && forall i | 0 <= i < |ms| :: ns[i].conv == ms[i].conv && ns[i].no == ms[i].no
    ensures |OfConv(ms, c)| == |OfConv(ns, c)| && forall i | 0 <= i < |OfConv(ms, c)| :: OfConv(ms, c)[i].no == OfConv(ns, c)[i].no
  {
    if ms != [] { OfConvSame(ms[..|ms| - 1], ns[..|ns| - 1], c); }
  }

  lemma TimesOk(s: Reg, t: Reg)
    requires RegOk(s) && SameButTimes(s, t) && forall m | m in t.messages :: Timeline(m)
    ensures RegOk(t)
  {
    forall x | x in t.messages ensures (x.phone, x.customer) in t.convs && t.convs[(x.phone, x.customer)].id == x.conv {
      var i :| 0 <= i < |t.messages| && t.messages[i] == x;
      assert s.messages[i] in s.messages;
    }
    forall k | k in t.convs ensures Numbered(t, k) {
      assert Numbered(s, k);
      OfConvSame(s.messages, t.messages, s.convs[k].id);
    }
  }

  /** Two messages of a conversation with the same number are the same message. */
  lemma {:induction false} ConvOrder(reg: Reg, i: nat, j: nat)
    requires RegOk(reg) && i < j < |reg.messages| && reg.messages[i].conv == reg.messages[j].conv
    ensures reg.messages[i].no < reg.messages[j].no
  {
    var m := reg.messages[j];
    assert m in reg.messages;
    var k := (m.phone, m.customer);
    assert Numbered(reg, k);
    OfConvPositions(reg.messages, m.conv, i, j);
  }

  lemma {:induction false} OfConvPositions(ms: seq<Message>, c: nat, i: nat, j: nat)
    requires i < j < |ms| && ms[i].conv == c && ms[j].conv == c
    ensures exists a, b :: 0 <= a < b < |OfConv(ms, c)| && OfConv(ms, c)[a] == ms[i] && OfConv(ms, c)[b] == ms[j]
  {
    var init := ms[..|ms| - 1];
    if j < |init| {
      OfConvPositions(init, c, i, j);
      var a, b :| 0 <= a < b < |OfConv(init, c)| && OfConv(init, c)[a] == init[i] && OfConv(init, c)[b] == init[j];
      assert OfConv(ms, c)[a] == ms[i] && OfConv(ms, c)[b] == ms[j];
    } else {
      OfConvIn(init, c);
      assert init[i] in init;
      var a :| 0 <= a < |OfConv(init, c)| && OfConv(init, c)[a] == init[i];
      assert OfConv(ms, c)[a] == ms[i] && OfConv(ms, c)[|OfConv(init, c)|] == ms[j];
    }
  }

  // ---- filters and sorting ----

  lemma {:induction false} UnreadOfIn(ms: seq<Message>, customer: string, phone: string)
    ensures forall m :: m in UnreadOf(ms, customer, phone) <==> m in ms && Unread(m, customer, phone)
    ensures Unique(ms) ==> Unique(UnreadOf(ms, customer, phone))
  {
    if ms != [] {
      var init, last := ms[..|ms| - 1], ms[|ms| - 1];
      UnreadOfIn(init, customer, phone);
      assert ms == init + [last];
      if Unique(ms) { DistinctInit(ms, UnreadOf(init, customer, phone)); }
    }
  }

  lemma {:induction false} QueueOfIn(ms: seq<Message>, customer: string)
    ensures forall m :: m in QueueOf(ms, customer) <==> m in ms && InQueue(m, customer)
    ensures Unique(ms) ==> Unique(QueueOf(ms, customer))
  {
    if ms != [] {
      var init, last := ms[..|ms| - 1], ms[|ms| - 1];
      QueueOfIn(init, customer);
      assert ms == init + [last];
      if Unique(ms) { DistinctInit(ms, QueueOf(init, customer)); }
    }
  }

  /** Adding the last message to a selection of the earlier ones repeats no wamid. */
  lemma DistinctInit(ms: seq<Message>, sel: seq<Message>)
    requires ms != [] && Unique(ms)
    requires forall m | m in sel :: m in ms[..|ms| - 1]
    ensures Unique(ms[..|ms| - 1])
    ensures Unique(sel) ==> Unique(sel + [ms[|ms| - 1]])
  {
    var n := |ms| - 1;
    forall i | 0 <= i < |sel| ensures sel[i].wamid != ms[n].wamid {
      var m := sel[i];
      assert m in sel;
      assert m in ms[..n];
      var j :| 0 <= j < n && ms[j] == m;
    }
  }

  ghost predicate SortedByNo(ms: seq<Message>) {
    forall i, j | 0 <= i < j < |ms| :: !Before(ms[j], ms[i])
  }

  lemma {:induction false} InsertSorted(ms: seq<Message>, m: Message)
    requires SortedByNo(ms)
    ensures SortedByNo(InsertByNo(ms, m))
  {
    if !(ms == [] || !Before(m, ms[|ms| - 1])) {
      var init, last := ms[..|ms| - 1], ms[|ms| - 1];
      InsertSorted(init, m);
      var r := InsertByNo(init, m);
      assert ms == init + [last];
      forall i | 0 <= i < |r| ensures !Before(last, r[i]) {
        assert r[i] in multiset(r);
        if r[i] != m { assert r[i] in multiset(init); assert r[i] in init; }
      }
    }
  }

  lemma {:induction false} SortSorted(ms: seq<Message>)
    ensures SortedByNo(SortByNo(ms))
  {
    if ms != [] {
      SortSorted(ms[..|ms| - 1]);
      InsertSorted(SortByNo(ms[..|ms| - 1]), ms[|ms| - 1]);
    }
  }

  lemma SortSame(ms: seq<Message>)
    ensures forall m :: m in SortByNo(ms) <==> m in ms
    ensures |SortByNo(ms)| == |ms|
  {
    var r := SortByNo(ms);
    assert |multiset(r)| == |multiset(ms)|;
    forall m ensures m in r <==> m in ms {
      assert m in r <==> m in multiset(r);
      assert m in ms <==> m in multiset(ms);
    }
  }

  lemma {:induction false} InsertUnique(ms: seq<Message>, m: Message)
    requires Unique(ms + [m])
    ensures Unique(InsertByNo(ms, m))
  {
    if !(ms == [] || !Before(m, ms[|ms| - 1])) {
      var init, last := ms[..|ms| - 1], ms[|ms| - 1];
      var x := ms + [m];
      forall i, j | 0 <= i < j < |init| + 1 ensures (init + [m])[i].wamid != (init + [m])[j].wamid {
        assert x[i].wamid != x[if j < |init| then j else |ms|].wamid;
      }
      InsertUnique(init, m);
      var r := InsertByNo(init, m);
      forall i | 0 <= i < |r| ensures r[i].wamid != last.wamid {
        assert r[i] in multiset(r);
        assert r[i] in multiset(init) || r[i] == m;
        if r[i] == m {
          assert x[|ms| - 1].wamid != x[|ms|].wamid;
        } else {
          var a :| 0 <= a < |init| && init[a] == r[i];
          assert x[a].wamid != x[|ms| - 1].wamid;
        }
      }
    }
  }

  lemma {:induction false} SortUnique(ms: seq<Message>)
    requires Unique(ms)
    ensures Unique(SortByNo(ms))
  {
    if ms != [] {
      var init, last := ms[..|ms| - 1], ms[|ms| - 1];
      SortUnique(init);
      var r := SortByNo(init);
      SortSame(init);
      forall i | 0 <= i < |r| ensures r[i].wamid != last.wamid {
        assert r[i] in init;
      }
      InsertUnique(r, last);
    }
  }

  /** What `queuedFor` returns: the queue of the customer, each message once, in order. */
  lemma QueuedForIs(reg: Reg, customer: string)
    requires Unique(reg.messages)
    ensures forall m :: m in QueuedFor(reg, customer) <==> m in reg.messages && InQueue(m, customer)
    ensures SortedByNo(QueuedFor(reg, customer)) && Unique(QueuedFor(reg, customer))
  {
    QueueOfIn(reg.messages, customer);
    SortSame(QueueOf(reg.messages, customer));
    SortSorted(QueueOf(reg.messages, customer));
    SortUnique(QueueOf(reg.messages, customer));
  }

  lemma UnreadDeliveredIs(reg: Reg, customer: string, phone: string)
    requires Unique(reg.messages)
    ensures forall m :: m in UnreadDelivered(reg, customer, phone) <==> m in reg.messages && Unread(m, customer, phone)
    ensures SortedByNo(UnreadDelivered(reg, customer, phone)) && Unique(UnreadDelivered(reg, customer, phone))
  {
    UnreadOfIn(reg.messages, customer, phone);
    SortSame(UnreadOf(reg.messages, customer, phone));
    SortSorted(UnreadOf(reg.messages, customer, phone));
    SortUnique(UnreadOf(reg.messages, customer, phone));
  }
}
