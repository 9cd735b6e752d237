/** Badges over whole runs: right as long as no number changes its pairing, and a run in which one does. */
module BadgeRuns {
  import opened Prelude
  import opened JobStore
  import opened Registry
  import opened Lifecycle
  import opened Conservation
  import opened StoreGroups
  import opened Badges
  import opened EndToEnd
  import D = Dispatcher

  // ---- runs that keep the pairing ----

  /** Each phone number id has its own display number, and no id is a display number. */
  ghost predicate Pairing(book: map<string, string>) {
    && (forall p, q | p in book && q in book && book[p] == book[q] :: p == q)
    && (forall p | p in book :: book[p] !in book)
  }

  predicate Follows(bs: seq<Business>, book: map<string, string>) {
    forall b | b in bs :: b.phone in book && b.display == book[b.phone]
  }

  /** Businesses are registered as paired in `book`, and messages are sent by their ids. */
  predicate Keeps(c: Call, book: map<string, string>) {
    (c.Numbers? ==> Follows(c.businesses, book)) && (c.Accept? ==> c.phone in book)
  }

  ghost predicate AllKeep(cs: seq<Call>, book: map<string, string>) {
    forall i | 0 <= i < |cs| :: Keeps(cs[i], book)
  }

  ghost predicate NamedBy(m: Message, book: map<string, string>) {
    m.dir.ToCustomer? ==> m.phone in book && m.sender == book[m.phone]
  }

  ghost predicate ByBook(reg: Reg, book: map<string, string>) {
    Follows(reg.businesses, book) && forall m | m in reg.messages :: NamedBy(m, book)
  }

  lemma SentByBook(reg: Reg, d: Draft, book: map<string, string>)
    requires Pairing(book) && Follows(reg.businesses, book) && d.phone in book && Registered(reg, d.phone)
    ensures NamedBy(MessageOf(reg, d), book)
  {
    var b := GetBusiness(reg.businesses, d.phone).value;
    assert b.display != d.phone;
  }

  /** What a call other than a reset adds to the store is one message at most. */
  lemma Added(s: System, c: Call, book: map<string, string>)
    requires Pairing(book) && ByBook(s.reg, book) && Allowed(s, c) && Keeps(c, book) && !c.Wipe?
    ensures var ms := Done(s, c).reg.messages;
            forall i | |s.reg.messages| <= i < |ms| :: NamedBy(ms[i], book)
    ensures Follows(Done(s, c).reg.businesses, book)
  {
    match c
    case Accept(phone, customer, text, wamid, now) => SentByBook(s.reg, Draft(wamid, ToCustomer, phone, customer, text, now), book);
    case _ =>
  }

  lemma CallByBook(s: System, c: Call, book: map<string, string>)
    requires Pairing(book) && ByBook(s.reg, book) && Allowed(s, c) && Keeps(c, book)
    ensures ByBook(Done(s, c).reg, book)
  {
    if !c.Wipe? {
      var ms := Done(s, c).reg.messages;
      Added(s, c, book);
      forall m | m in ms ensures NamedBy(m, book) {
        var i :| 0 <= i < |ms| && ms[i] == m;
        if i < |s.reg.messages| {
          WrittenOnce(s, c, i);
          assert s.reg.messages[i] in s.reg.messages;
        }
      }
    }
  }

  lemma CallKeepsBook(s: System, c: Call, book: map<string, string>)
    requires SysInv(s) && Pairing(book) && ByBook(s.reg, book) && Allowed(s, c) && Keeps(c, book)
    ensures SysInv(Done(s, c)) && ByBook(Done(s, c).reg, book)
  {
    CallInv(s, c);
    CallByBook(s, c, book);
  }

  lemma KeepRest(cs: seq<Call>, book: map<string, string>)
    requires cs != [] && AllKeep(cs, book)
    ensures Keeps(cs[0], book) && AllKeep(cs[1..], book)
  {}

  lemma {:induction false} RunByBook(s: System, cs: seq<Call>, book: map<string, string>)
    requires SysInv(s) && Pairing(book) && ByBook(s.reg, book) && CanDo(s, cs) && AllKeep(cs, book)
    ensures SysInv(DoAll(s, cs)) && ByBook(DoAll(s, cs).reg, book)
    decreases |cs|
  {
    if cs != [] {
      KeepRest(cs, book);
      CallKeepsBook(s, cs[0], book);
      RunByBook(Done(s, cs[0]), cs[1..], book);
    }
  }

  /** In every run that keeps the pairing of numbers, every badge shows the unread messages of its business. */
  lemma BadgesInRuns(cfg: D.Config, delay: nat, clock: int, cs: seq<Call>, book: map<string, string>, x: Message)
    requires cfg.Ok() && CanDo(Boot(cfg, delay, clock), cs) && Pairing(book) && AllKeep(cs, book)
    requires x in DoAll(Boot(cfg, delay, clock), cs).reg.messages && x.dir.ToCustomer?
    ensures var reg := DoAll(Boot(cfg, delay, clock), cs).reg;
            WellNumbered(reg.messages, x.customer) && Badge(reg, x.customer, x.sender) == |UnreadDelivered(reg, x.customer, x.phone)|
  {
    BootInv(cfg, delay, clock);
    RunByBook(Boot(cfg, delay, clock), cs, book);
    var reg := DoAll(Boot(cfg, delay, clock), cs).reg;
    BookIsWellNumbered(reg, book, x.customer);
    PairedBadges(reg, x);
  }

  lemma BookIsWellNumbered(reg: Reg, book: map<string, string>, customer: string)
    requires Pairing(book) && ByBook(reg, book)
    ensures WellNumbered(reg.messages, customer)
  {
    forall a, b | a in reg.messages && b in reg.messages && a.dir.ToCustomer? && b.dir.ToCustomer?
      ensures a.phone == b.phone <==> a.sender == b.sender
    {
      assert NamedBy(a, book) && NamedBy(b, book);
    }
  }

  // ---- a run that does not ----

  const GUEST := Customer("C", "g", true, Manual)

  lemma Next(s: System, c: Call)
    requires Reachable(s) && Allowed(s, c)
    ensures Reachable(Done(s, c))
  {
    DoOne(s, c);
    ReachableOn(s, [c]);
  }

  predicate Chat(m: Message, wamid: string, sender: string) {
    m.wamid == wamid && m.dir.ToCustomer? && m.phone == "B" && m.customer == "C" && m.sender == sender && m.readAt.None?
  }

  /** The number is re-registered under another display number between two sends. */
  ghost predicate Renamed(s: System) {
    && s.reg.businesses == [Business("B", "Y")] && s.dsp.clock <= 2
    && |s.reg.messages| == 2 && Chat(s.reg.messages[0], "w1", "X") && Chat(s.reg.messages[1], "w2", "Y")
    && s.reg.messages[0].deliveredAt.None? && s.reg.messages[1].deliveredAt.None?
  }

  lemma SendAs(s: System, display: string, wamid: string, now: int) returns (t: System)
    requires Reachable(s) && s.dsp.clock <= now && Fresh(s.reg, wamid)
    ensures Reachable(t) && t.reg.businesses == [Business("B", display)] && t.dsp.clock <= now
    ensures |t.reg.messages| == |s.reg.messages| + 1 && t.reg.messages[..|s.reg.messages|] == s.reg.messages
    ensures var m := t.reg.messages[|s.reg.messages|]; Chat(m, wamid, display) && m.deliveredAt.None?
  {
    var named := Done(s, Numbers([Business("B", display)], [GUEST]));
    Next(s, Numbers([Business("B", display)], [GUEST]));
    assert GetBusiness([Business("B", display)], "B") == Some(Business("B", display));
    Next(named, Accept("B", "C", "hi", wamid, now));
    t := Done(named, Accept("B", "C", "hi", wamid, now));
    EnqueueAllHooks(named.dsp, EffectOf(named, Accept("B", "C", "hi", wamid, now)).requests, now);
  }

  lemma Rename() returns (s: System)
    ensures Reachable(s) && Renamed(s)
  {
    var cfg := D.Config([], 1);
    var s0 := Boot(cfg, 0, 0);
    assert CanDo(s0, []) && DoAll(s0, []) == s0;
    var s1 := SendAs(s0, "X", "w1", 1);
    s := SendAs(s1, "Y", "w2", 2);
    assert s.reg.messages[0] == s.reg.messages[..1][0] == s1.reg.messages[0];
  }

  lemma DeliverBoth(s: System) returns (t: System)
    requires Reachable(s) && Renamed(s)
    ensures Reachable(t) && |t.reg.messages| == 2
    ensures Chat(t.reg.messages[0], "w1", "X") && Chat(t.reg.messages[1], "w2", "Y")
    ensures t.reg.messages[0].deliveredAt.Some? && t.reg.messages[1].deliveredAt.Some?
  {
    ReachableInv(s);
    var ms := s.reg.messages;
    var c := Deliver(ms, 3);
    BothAllowed(s);
    Next(s, c);
    t := Done(s, c);
    BothTodo(s.reg);
    forall i | 0 <= i < 2 ensures t.reg.messages[i] == ms[i].(deliveredAt := Some(3)) {
      DeliveredOne(s.reg, ms, 3, i);
      assert ms[i] in DeliveredTodo(s.reg, ms);
    }
  }

  lemma OwnCopies(reg: Reg)
    requires Unique(reg.messages)
    ensures Copies(reg, reg.messages)
  {
    forall m, x | m in reg.messages && x in reg.messages && m.wamid == x.wamid ensures m.dir == x.dir { SameWamid(reg, m, x); }
  }

  lemma {:induction false} AllWaiting(reg: Reg, ms: seq<Message>)
    requires Unique(reg.messages) && forall m | m in ms :: m in reg.messages && m.dir.ToCustomer? && m.deliveredAt.None?
    ensures Undelivered(reg, ms) == ms
  {
    if ms != [] {
      var n := |ms| - 1;
      AllWaiting(reg, ms[..n]);
      assert ms[n] in ms;
      SameWamid(reg, ms[n], GetMessage(reg.messages, ms[n].wamid).value);
      assert ms == ms[..n] + [ms[n]];
    }
  }

  lemma BothTodo(reg: Reg)
    requires Unique(reg.messages) && |reg.messages| == 2
    requires forall m | m in reg.messages :: m.dir.ToCustomer? && m.deliveredAt.None?
    ensures Unique(DeliveredTodo(reg, reg.messages)) && forall m :: m in DeliveredTodo(reg, reg.messages) <==> m in reg.messages
  {
    AllWaiting(reg, reg.messages);
    SortSame(reg.messages);
    SortUnique(reg.messages);
  }

  lemma BothAllowed(s: System)
    requires Renamed(s) && RegOk(s.reg)
    ensures Allowed(s, Deliver(s.reg.messages, 3)) && Copies(s.reg, s.reg.messages)
    ensures forall m | m in s.reg.messages :: m.dir.ToCustomer? && m.deliveredAt.None?
  {
    var ms := s.reg.messages;
    forall m | m in ms ensures m.dir.ToCustomer? && m.deliveredAt.None? && m.phone == "B" {
      var i :| 0 <= i < |ms| && ms[i] == m;
      assert i == 0 || i == 1;
    }
    OwnCopies(s.reg);
    BothTodo(s.reg);
    assert GetBusiness(s.reg.businesses, "B").Some?;
  }

  lemma TwoUnread(ms: seq<Message>)
    requires |ms| == 2 && Chat(ms[0], "w1", "X") && Chat(ms[1], "w2", "Y") && ms[0].deliveredAt.Some? && ms[1].deliveredAt.Some?
    ensures |UnreadOf(ms, "C", "B")| == 2 && CountNamed(ms, "C", "X") == 1 && CountElsewhere(ms, "C", "B", "X") == 0 && CountRenamed(ms, "C", "B", "X") == 1
  {
    assert ms[..1][..0] == [] && ms[..1][0] == ms[0];
    assert |UnreadOf(ms[..1], "C", "B")| == 1 && CountNamed(ms[..1], "C", "X") == 1;
    assert CountElsewhere(ms[..1], "C", "B", "X") == 0 && CountRenamed(ms[..1], "C", "B", "X") == 0;
  }

  /** Such a run exists: two messages of one business are unread, and the badge under its old name shows one. */
  lemma SplitBadge() returns (s: System)
    ensures Reachable(s) && |UnreadDelivered(s.reg, "C", "B")| == 2 && Badge(s.reg, "C", "X") == 1
  {
    var r := Rename();
    s := DeliverBoth(r);
    ReachableInv(s);
    TwoUnread(s.reg.messages);
    BadgeIs(s.reg, "C", "X");
    SortSame(UnreadOf(s.reg.messages, "C", "B"));
  }
}
