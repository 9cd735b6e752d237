/**
 Unread badges: a tile counts its delivered, unread messages per sender name, while a chat is opened per phone number
 id. The two agree exactly as long as names and ids pair up.
 */
module Badges {
  import opened Prelude
  import opened JobStore
  import opened Registry
  import opened Lifecycle
  import opened Conservation
  import opened StoreGroups

  /** The number on the badge of this sender in the customer's tile. */
  function Badge(reg: Reg, customer: string, sender: string): nat {
    var unread := TileOf(reg, customer).unread;
    if sender in unread then unread[sender] else 0
  }

  // ---- counting ----

  lemma WithoutOne(ns: seq<Message>, i: nat, sender: string)
    requires i < |ns|
    ensures multiset(ns[..i] + ns[i + 1..]) == multiset(ns) - multiset{ns[i]}
    ensures CountUnread(ns, sender) == CountUnread(ns[..i] + ns[i + 1..], sender) + CountUnread([ns[i]], sender)
  {
    assert ns == ns[..i] + [ns[i]] + ns[i + 1..];
    CountUnreadCat(ns[..i], ns[i + 1..], sender);
    CountUnreadCat(ns[..i] + [ns[i]], ns[i + 1..], sender);
    CountUnreadCat(ns[..i], [ns[i]], sender);
  }

  lemma CountUnreadMultiset(ms: seq<Message>, ns: seq<Message>, sender: string)
    requires multiset(ms) == multiset(ns)
    ensures CountUnread(ms, sender) == CountUnread(ns, sender)
    decreases |ms|
  {
    if ms == [] {
      assert |multiset(ns)| == |ns|;
    } else {
      var n := |ms| - 1;
      assert ms[n] in multiset(ns);
      var i :| 0 <= i < |ns| && ns[i] == ms[n];
      WithoutOne(ns, i, sender);
      WithoutOne(ms, n, sender);
      assert ms[..n] + ms[n + 1..] == ms[..n];
      CountUnreadMultiset(ms[..n], ns[..i] + ns[i + 1..], sender);
    }
  }

  lemma {:induction false} CountUnreadCat(ms: seq<Message>, ns: seq<Message>, sender: string)
    ensures CountUnread(ms + ns, sender) == CountUnread(ms, sender) + CountUnread(ns, sender)
  {
    if ns == [] {
      assert ms + ns == ms;
    } else {
      CountUnreadCat(ms, ns[..|ns| - 1], sender);
      assert (ms + ns)[..|ms + ns| - 1] == ms + ns[..|ns| - 1];
    }
  }

  predicate UnreadTo(m: Message, customer: string) { IsUnread(m) && m.customer == customer }

  /** Unread messages to the customer under this sender name, whatever their phone number id. */
  function CountNamed(ms: seq<Message>, customer: string, sender: string): nat {
    if ms == [] then 0 else
      var m := ms[|ms| - 1];
      CountNamed(ms[..|ms| - 1], customer, sender) + if UnreadTo(m, customer) && m.sender == sender then 1 else 0
  }

  /** Unread messages under this name that another phone number id sent. */
  function CountElsewhere(ms: seq<Message>, customer: string, phone: string, sender: string): nat {
    if ms == [] then 0 else
      var m := ms[|ms| - 1];
      CountElsewhere(ms[..|ms| - 1], customer, phone, sender) + if UnreadTo(m, customer) && m.sender == sender && m.phone != phone then 1 else 0
  }

  /** Unread messages that this phone number id sent under another name. */
  function CountRenamed(ms: seq<Message>, customer: string, phone: string, sender: string): nat {
    if ms == [] then 0 else
      var m := ms[|ms| - 1];
      CountRenamed(ms[..|ms| - 1], customer, phone, sender) + if UnreadTo(m, customer) && m.phone == phone && m.sender != sender then 1 else 0
  }

  lemma {:induction false} NamedOfPast(ms: seq<Message>, customer: string, sender: string)
    ensures CountUnread(PastOf(ms, customer), sender) == CountNamed(ms, customer, sender)
  {
    if ms != [] {
      var init, m := ms[..|ms| - 1], ms[|ms| - 1];
      var p := PastOf(init, customer);
      NamedOfPast(init, customer, sender);
      if m.customer == customer && !InQueue(m, customer) { assert (p + [m])[..|p|] == p; } else { assert p + [] == p; }
    }
  }

  lemma {:induction false} NoUnread(ms: seq<Message>, sender: string)
    requires forall m | m in ms && IsUnread(m) :: m.sender != sender
    ensures CountUnread(ms, sender) == 0
  {
    if ms != [] { NoUnread(ms[..|ms| - 1], sender); }
  }

  /** The badge counts over the whole history, even when the snapshot is cut. */
  lemma BadgeIs(reg: Reg, customer: string, sender: string)
    requires RegOk(reg)
    ensures Badge(reg, customer, sender) == CountNamed(reg.messages, customer, sender)
  {
    var past := Past(reg, customer);
    HistoryAndQueuePartition(reg, customer);
    CountUnreadMultiset(past, PastOf(reg.messages, customer), sender);
    NamedOfPast(reg.messages, customer, sender);
    if sender !in UnreadMap(past) { NoUnread(past, sender); }
  }

  lemma {:induction false} NamesAndIds(ms: seq<Message>, customer: string, phone: string, sender: string)
    ensures CountNamed(ms, customer, sender) + CountRenamed(ms, customer, phone, sender)
         == |UnreadOf(ms, customer, phone)| + CountElsewhere(ms, customer, phone, sender)
  {
    if ms != [] { NamesAndIds(ms[..|ms| - 1], customer, phone, sender); }
  }

  /**
   The badge of a name shows the number of delivered, unread messages of a phone number id exactly when as many unread
   messages have that name under another id as have that id under another name.
   */
  lemma UnreadBadges(reg: Reg, customer: string, phone: string, sender: string)
    requires RegOk(reg)
    ensures Badge(reg, customer, sender) == |UnreadDelivered(reg, customer, phone)| <==>
            CountElsewhere(reg.messages, customer, phone, sender) == CountRenamed(reg.messages, customer, phone, sender)
  {
    BadgeIs(reg, customer, sender);
    NamesAndIds(reg.messages, customer, phone, sender);
    SortSame(UnreadOf(reg.messages, customer, phone));
  }

  /** Sender display numbers and phone number ids name the same businesses in this customer's messages. */
  ghost predicate WellNumbered(ms: seq<Message>, customer: string) {
    forall a, b | a in ms && b in ms && a.dir.ToCustomer? && b.dir.ToCustomer? && a.customer == b.customer == customer ::
      a.phone == b.phone <==> a.sender == b.sender
  }

  lemma {:induction false} NoneAstray(ms: seq<Message>, customer: string, phone: string, sender: string)
    requires forall m | m in ms && m.dir.ToCustomer? && m.customer == customer :: m.phone == phone <==> m.sender == sender
    ensures CountElsewhere(ms, customer, phone, sender) == 0 && CountRenamed(ms, customer, phone, sender) == 0
  {
    if ms != [] {
      assert ms[|ms| - 1] in ms;
      NoneAstray(ms[..|ms| - 1], customer, phone, sender);
    }
  }

  /** Where names and ids pair up, every badge is right. */
  lemma PairedBadges(reg: Reg, x: Message)
    requires RegOk(reg) && WellNumbered(reg.messages, x.customer) && x in reg.messages && x.dir.ToCustomer?
    ensures Badge(reg, x.customer, x.sender) == |UnreadDelivered(reg, x.customer, x.phone)|
  {
    NoneAstray(reg.messages, x.customer, x.phone, x.sender);
    UnreadBadges(reg, x.customer, x.phone, x.sender);
  }

  // ---- opening a chat ----

  /** One message before and after the chat with `phone` is opened. */
  predicate AfterOpening(m: Message, n: Message, customer: string, phone: string) {
    && n.customer == m.customer && n.sender == m.sender && n.phone == m.phone
    && (IsUnread(n) <==> IsUnread(m) && !(m.customer == customer && m.phone == phone))
  }

  lemma {:induction false} OpenedCounts(ms: seq<Message>, ns: seq<Message>, customer: string, phone: string, other: string, sender: string)
    requires |ns| == |ms| && forall i | 0 <= i < |ms| :: AfterOpening(ms[i], ns[i], customer, phone)
    ensures CountNamed(ns, other, sender) == if other == customer then CountElsewhere(ms, customer, phone, sender) else CountNamed(ms, other, sender)
  {
    if ms != [] {
      var n := |ms| - 1;
      assert AfterOpening(ms[n], ns[n], customer, phone);
      OpenedCounts(ms[..n], ns[..n], customer, phone, other, sender);
    }
  }

  lemma ReadOpens(reg: Reg, customer: string, peer: string, b: Business, now: int, i: nat)
    requires RegOk(reg) && GetBusiness(reg.businesses, peer) == Some(b) && i < |reg.messages|
    ensures var t := ReadCall(reg, customer, peer, now).reg;
            |t.messages| == |reg.messages| && AfterOpening(reg.messages[i], t.messages[i], customer, b.phone)
  {
    var todo, m := UnreadDelivered(reg, customer, b.phone), reg.messages[i];
    UnreadDeliveredIs(reg, customer, b.phone);
    assert m in reg.messages;
    InTodo(reg, todo, m);
    assert m in todo <==> Unread(m, customer, b.phone);
  }

  /**
   Opening a chat leaves on each badge of the tile exactly what other phone number ids sent under that name, so it
   clears its own, and it touches no other customer's badges.
   */
  lemma ReadClearsOneBadge(reg: Reg, customer: string, peer: string, b: Business, now: int, other: string, sender: string)
    requires RegOk(reg) && GetBusiness(reg.businesses, peer) == Some(b)
    ensures Badge(ReadCall(reg, customer, peer, now).reg, other, sender) ==
            if other == customer then CountElsewhere(reg.messages, customer, b.phone, sender) else Badge(reg, other, sender)
  {
    var t := ReadCall(reg, customer, peer, now).reg;
    forall i | 0 <= i < |reg.messages| ensures |t.messages| == |reg.messages| && AfterOpening(reg.messages[i], t.messages[i], customer, b.phone) {
      ReadOpens(reg, customer, peer, b, now, i);
    }
    ReadLength(reg, customer, peer, now);
    ReadKeepsOk(reg, customer, peer, b, now);
    OpenedCounts(reg.messages, t.messages, customer, b.phone, other, sender);
    BadgeIs(reg, other, sender);
    BadgeIs(t, other, sender);
  }

  lemma ReadLength(reg: Reg, customer: string, peer: string, now: int)
    ensures |ReadCall(reg, customer, peer, now).reg.messages| == |reg.messages|
  {}

  lemma ReadKeepsOk(reg: Reg, customer: string, peer: string, b: Business, now: int)
    requires RegOk(reg) && GetBusiness(reg.businesses, peer) == Some(b)
    ensures RegOk(ReadCall(reg, customer, peer, now).reg)
  {
    UnreadDeliveredIs(reg, customer, b.phone);
    MarkedOk(reg, UnreadDelivered(reg, customer, b.phone), JobKind.Read, now);
  }

  lemma {:induction false} AllElsewhere(ms: seq<Message>, customer: string, phone: string, sender: string)
    requires forall m | m in ms && m.dir.ToCustomer? && m.customer == customer :: m.sender == sender ==> m.phone != phone
    ensures CountElsewhere(ms, customer, phone, sender) == CountNamed(ms, customer, sender)
  {
    if ms != [] {
      assert ms[|ms| - 1] in ms;
      AllElsewhere(ms[..|ms| - 1], customer, phone, sender);
    }
  }

  /** Where names and ids pair up, opening a chat clears that business's badge and no other. */
  lemma PairedRead(reg: Reg, customer: string, peer: string, b: Business, now: int, x: Message)
    requires RegOk(reg) && GetBusiness(reg.businesses, peer) == Some(b)
    requires WellNumbered(reg.messages, customer) && x in reg.messages && x.dir.ToCustomer?
    ensures Badge(ReadCall(reg, customer, peer, now).reg, x.customer, x.sender) ==
            if x.customer == customer && x.phone == b.phone then 0 else Badge(reg, x.customer, x.sender)
  {
    ReadClearsOneBadge(reg, customer, peer, b, now, x.customer, x.sender);
    if x.customer == customer {
      if x.phone == b.phone {
        NoneAstray(reg.messages, customer, b.phone, x.sender);
      } else {
        AllElsewhere(reg.messages, customer, b.phone, x.sender);
        BadgeIs(reg, customer, x.sender);
      }
    }
  }

  // ---- delivering ----

  /** The messages that differ, in store order. */
  function PickedOf(ms: seq<Message>, ns: seq<Message>): seq<Message>
    requires |ms| == |ns|
  {
    if ms == [] then [] else
      var n := |ms| - 1;
      PickedOf(ms[..n], ns[..n]) + if ms[n] != ns[n] then [ms[n]] else []
  }

  function CountPicked(picked: seq<Message>, customer: string, sender: string): nat {
    if picked == [] then 0 else
      var m := picked[|picked| - 1];
      CountPicked(picked[..|picked| - 1], customer, sender) + if m.customer == customer && m.sender == sender then 1 else 0
  }

  lemma CountPickedAppend(picked: seq<Message>, m: Message, customer: string, sender: string)
    ensures CountPicked(picked + [m], customer, sender) == CountPicked(picked, customer, sender) + if m.customer == customer && m.sender == sender then 1 else 0
  {
    assert (picked + [m])[..|picked|] == picked;
  }

  /** A message that `delivered` marks. */
  predicate Arrives(m: Message, n: Message, now: int) {
    m.dir.ToCustomer? && m.deliveredAt.None? && m.readAt.None? && n == m.(deliveredAt := Some(now))
  }

  /** The store after `delivered`, message by message. */
  ghost predicate NewlyDelivered(ms: seq<Message>, ns: seq<Message>, todo: seq<Message>, now: int) {
    |ns| == |ms| && forall i | 0 <= i < |ms| :: if ms[i] in todo then Arrives(ms[i], ns[i], now) else ns[i] == ms[i]
  }

  lemma ArrivalCounts(m: Message, n: Message, todo: seq<Message>, now: int, customer: string, sender: string)
    requires if m in todo then Arrives(m, n, now) else n == m
    ensures (if UnreadTo(n, customer) && n.sender == sender then 1 else 0) ==
            (if UnreadTo(m, customer) && m.sender == sender then 1 else 0) + (if m != n && m.customer == customer && m.sender == sender then 1 else 0)
  {}

  lemma PickedStep(ms: seq<Message>, ns: seq<Message>, customer: string, sender: string)
    requires |ms| == |ns| && ms != []
    ensures var n := |ms| - 1;
            CountPicked(PickedOf(ms, ns), customer, sender) ==
            CountPicked(PickedOf(ms[..n], ns[..n]), customer, sender) + if ms[n] != ns[n] && ms[n].customer == customer && ms[n].sender == sender then 1 else 0
  {
    var n := |ms| - 1;
    var p := PickedOf(ms[..n], ns[..n]);
    CountPickedAppend(p, ms[n], customer, sender);
    assert p + [] == p;
  }

  lemma {:induction false} DeliveredAfter(ms: seq<Message>, ns: seq<Message>, todo: seq<Message>, now: int, customer: string, sender: string)
    requires NewlyDelivered(ms, ns, todo, now)
    ensures CountNamed(ns, customer, sender) == CountNamed(ms, customer, sender) + CountPicked(PickedOf(ms, ns), customer, sender)
  {
    if ms != [] {
      var n := |ms| - 1;
      DeliveredAfter(ms[..n], ns[..n], todo, now, customer, sender);
      PickedStep(ms, ns, customer, sender);
      ArrivalCounts(ms[n], ns[n], todo, now, customer, sender);
    }
  }

  /** What `delivered` does to one stored message. */
  lemma DeliveredOne(reg: Reg, msgs: seq<Message>, now: int, i: nat)
    requires RegOk(reg) && Copies(reg, msgs) && i < |reg.messages|
    ensures var t, m := DeliveredCall(reg, msgs, now).reg, reg.messages[i];
            && |t.messages| == |reg.messages|
            && if m in DeliveredTodo(reg, msgs) then Arrives(m, t.messages[i], now) else t.messages[i] == m
  {
    TodoReady(reg, msgs);
    assert reg.messages[i] in reg.messages;
    InTodo(reg, DeliveredTodo(reg, msgs), reg.messages[i]);
  }

  lemma DeliveredEach(reg: Reg, msgs: seq<Message>, now: int)
    requires RegOk(reg) && Copies(reg, msgs)
    ensures NewlyDelivered(reg.messages, DeliveredCall(reg, msgs, now).reg.messages, DeliveredTodo(reg, msgs), now)
  {
    var ms, ns, todo := reg.messages, DeliveredCall(reg, msgs, now).reg.messages, DeliveredTodo(reg, msgs);
    assert |ns| == |ms|;
    forall i | 0 <= i < |ms| ensures if ms[i] in todo then Arrives(ms[i], ns[i], now) else ns[i] == ms[i] { DeliveredOne(reg, msgs, now, i); }
  }

  /** At this place stands `m`, and it changed. */
  predicate ChangedAt(ms: seq<Message>, ns: seq<Message>, m: Message, i: nat) {
    i < |ms| && i < |ns| && ms[i] == m && ms[i] != ns[i]
  }

  lemma {:induction false} PickedIn(ms: seq<Message>, ns: seq<Message>, m: Message)
    requires |ms| == |ns|
    ensures m in PickedOf(ms, ns) <==> exists i: nat :: ChangedAt(ms, ns, m, i)
  {
    if ms != [] {
      var n := |ms| - 1;
      PickedIn(ms[..n], ns[..n], m);
      ChangedInit(ms, ns, m);
    }
  }

  lemma ChangedInit(ms: seq<Message>, ns: seq<Message>, m: Message)
    requires |ms| == |ns| && ms != []
    ensures var n := |ms| - 1;
            (exists i: nat :: ChangedAt(ms, ns, m, i)) <==> (exists i: nat :: ChangedAt(ms[..n], ns[..n], m, i)) || (ms[n] == m && ms[n] != ns[n])
  {
    var n := |ms| - 1;
    if i: nat :| ChangedAt(ms, ns, m, i) {
      if i < n { assert ChangedAt(ms[..n], ns[..n], m, i); }
    }
    if i: nat :| ChangedAt(ms[..n], ns[..n], m, i) { assert ChangedAt(ms, ns, m, i); }
    if ms[n] == m && ms[n] != ns[n] { assert ChangedAt(ms, ns, m, n); }
  }

  lemma PickedTodo(ms: seq<Message>, ns: seq<Message>, todo: seq<Message>, now: int, m: Message)
    requires NewlyDelivered(ms, ns, todo, now) && forall x | x in todo :: x in ms
    ensures m in PickedOf(ms, ns) <==> m in todo
  {
    PickedIn(ms, ns, m);
    if m in todo {
      var i: nat :| i < |ms| && ms[i] == m;
      assert ChangedAt(ms, ns, m, i);
    }
  }

  lemma DeliveredKeepsOk(reg: Reg, msgs: seq<Message>, now: int)
    requires RegOk(reg) && Copies(reg, msgs)
    ensures RegOk(DeliveredCall(reg, msgs, now).reg)
  {
    TodoReady(reg, msgs);
    MarkedOk(reg, DeliveredTodo(reg, msgs), Delivered, now);
  }

  /** Newly delivered messages raise each badge of each tile by the number of them that go there under that name. */
  lemma DeliveredRaisesBadges(reg: Reg, msgs: seq<Message>, now: int, customer: string, sender: string)
    requires RegOk(reg) && Copies(reg, msgs)
    ensures var t := DeliveredCall(reg, msgs, now).reg;
            && |t.messages| == |reg.messages|
            && Badge(t, customer, sender) == Badge(reg, customer, sender) + CountPicked(PickedOf(reg.messages, t.messages), customer, sender)
            && (forall m :: m in PickedOf(reg.messages, t.messages) <==> m in DeliveredTodo(reg, msgs))
  {
    var todo := DeliveredTodo(reg, msgs);
    var t := DeliveredCall(reg, msgs, now).reg;
    DeliveredEach(reg, msgs, now);
    DeliveredKeepsOk(reg, msgs, now);
    DeliveredAfter(reg.messages, t.messages, todo, now, customer, sender);
    BadgeIs(reg, customer, sender);
    BadgeIs(t, customer, sender);
    TodoReady(reg, msgs);
    forall m ensures m in PickedOf(reg.messages, t.messages) <==> m in todo { PickedTodo(reg.messages, t.messages, todo, now, m); }
  }
}
