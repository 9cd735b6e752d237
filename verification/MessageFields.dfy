/** What a stored message says, field by field, and exactly which calls write which of its times. */
module MessageFields {
  import opened Prelude
  import opened JobStore
  import opened Registry
  import opened Lifecycle
  import opened Conservation
  import opened EndToEnd
  import D = Dispatcher

  predicate Under(b: Business, key: string) { b.phone == key || b.display == key }

  /** `b` is the first business registered under this id or display number. */
  ghost predicate FoundUnder(bs: seq<Business>, key: string, b: Business) {
    exists i :: 0 <= i < |bs| && bs[i] == b && Under(b, key) && forall j | 0 <= j < i :: !Under(bs[j], key)
  }

  lemma {:induction false} BusinessFound(bs: seq<Business>, key: string, b: Business)
    ensures GetBusiness(bs, key) == Some(b) <==> FoundUnder(bs, key, b)
  {
    if bs != [] {
      BusinessFound(bs[1..], key, b);
      if FoundUnder(bs[1..], key, b) && !Under(bs[0], key) {
        var i :| 0 <= i < |bs[1..]| && bs[1..][i] == b && Under(b, key) && forall j | 0 <= j < i :: !Under(bs[1..][j], key);
        assert bs[i + 1] == b && forall j | 0 <= j < i + 1 :: !Under(bs[j], key) by {
          forall j | 0 <= j < i + 1 ensures !Under(bs[j], key) { if j > 0 { assert bs[j] == bs[1..][j - 1]; } }
        }
      }
      if FoundUnder(bs, key, b) && !Under(bs[0], key) {
        var i :| 0 <= i < |bs| && bs[i] == b && Under(b, key) && forall j | 0 <= j < i :: !Under(bs[j], key);
        assert bs[1..][i - 1] == b && forall j | 0 <= j < i - 1 :: !Under(bs[1..][j], key);
      }
    }
  }

  /** The name under which a chat with this phone number id goes. */
  ghost predicate Named(bs: seq<Business>, phone: string, name: string) {
    || (exists b :: FoundUnder(bs, phone, b) && name == b.display)
    || ((forall b | b in bs :: !Under(b, phone)) && name == phone)
  }

  lemma DisplayIsName(reg: Reg, phone: string)
    ensures Named(reg.businesses, phone, DisplayOf(reg, phone))
  {
    match GetBusiness(reg.businesses, phone)
    case Some(b) => BusinessFound(reg.businesses, phone, b);
    case None =>
  }

  /** Exactly what was said, by whom and to whom, and no time but the one at which it was said. */
  ghost predicate Says(m: Message, bs: seq<Business>, d: Draft) {
    && m.wamid == d.wamid && m.dir == d.dir && m.phone == d.phone && m.customer == d.customer && m.body == d.body
    && m.createdAt == d.at && m.deliveredAt.None? && m.readAt.None?
    && if d.dir.ToCustomer? then Named(bs, d.phone, m.sender) && m.recipient == d.customer && m.sentAt == Some(d.at)
       else m.sender == d.customer && Named(bs, d.phone, m.recipient) && m.sentAt.None?
  }

  /** The store grew by one message that says this, and nothing else about numbers or messages changed. */
  ghost predicate Grew(s: Reg, t: Reg, d: Draft) {
    exists m :: Says(m, s.businesses, d) && t.messages == s.messages + [m] && t.businesses == s.businesses && t.customers == s.customers
  }

  lemma StoredGrows(reg: Reg, d: Draft)
    ensures Grew(reg, Stored(reg, d), d)
  {
    DisplayIsName(reg, d.phone);
    assert Says(MessageOf(reg, d), reg.businesses, d);
  }

  /** A send is stored as it was made. */
  lemma AcceptStores(s: System, phone: string, customer: string, text: string, wamid: string, now: int)
    requires Allowed(s, Accept(phone, customer, text, wamid, now))
    ensures Grew(s.reg, Done(s, Accept(phone, customer, text, wamid, now)).reg, Draft(wamid, ToCustomer, phone, customer, text, now))
  {
    StoredGrows(s.reg, Draft(wamid, ToCustomer, phone, customer, text, now));
  }

  /** An inbound message needs a known sender, a known business and a body of 1 to 4096 characters. */
  ghost predicate Unfit(reg: Reg, sender: string, to: string, body: string) {
    || (forall c | c in reg.customers :: c.number != sender)
    || (forall b | b in reg.businesses :: !Under(b, to))
    || |body| == 0 || |body| > 4096
  }

  /** An unfit message leaves the store as it is; any other is stored as it was sent, to the business found. */
  ghost predicate TakenIn(s: Reg, t: Reg, sender: string, to: string, body: string, wamid: string, now: int) {
    if Unfit(s, sender, to, body) then t == s
    else exists b :: FoundUnder(s.businesses, to, b) && Grew(s, t, Draft(wamid, FromCustomer, b.phone, sender, body, now))
  }

  /** An inbound message is stored as it was sent, to the business found; a refused one changes nothing at all. */
  lemma ReceiveStores(s: System, sender: string, to: string, body: string, wamid: string, now: int)
    requires Allowed(s, Receive(sender, to, body, wamid, now))
    ensures var t := Done(s, Receive(sender, to, body, wamid, now));
            TakenIn(s.reg, t.reg, sender, to, body, wamid, now) && (Unfit(s.reg, sender, to, body) ==> t == s)
  {
    InboundStores(s.reg, sender, to, body, wamid, now);
  }

  lemma InboundStores(reg: Reg, sender: string, to: string, body: string, wamid: string, now: int)
    ensures var e := InboundCall(reg, sender, to, body, wamid, now);
            TakenIn(reg, e.reg, sender, to, body, wamid, now) && (Unfit(reg, sender, to, body) ==> e.requests == [] && e.events == [])
  {
    if !Unfit(reg, sender, to, body) {
      var b := GetBusiness(reg.businesses, to).value;
      BusinessFound(reg.businesses, to, b);
      StoredGrows(reg, Draft(wamid, FromCustomer, b.phone, sender, body, now));
    }
  }

  /** A reset deletes messages, conversations, webhooks and attempts; numbers stay exactly if asked. */
  lemma WipeStores(s: System, keep: bool)
    ensures var t := Done(s, Wipe(keep));
            && t.reg.messages == [] && t.reg.convs == map[] && t.reg.nextConv == s.reg.nextConv
            && (keep ==> t.reg.businesses == s.reg.businesses && t.reg.customers == s.reg.customers)
            && (!keep ==> t.reg.businesses == [] && t.reg.customers == [])
            && t.dsp.rows.jobs == [] && t.dsp.rows.attempts == [] && t.dsp.rows.nextId == s.dsp.rows.nextId
  {}

  // ---- in every run ----

  /** Who a message is from and to, when it was sent, and how long a customer's may be. */
  predicate PartiesOk(m: Message) {
    if m.dir.ToCustomer? then m.recipient == m.customer && m.sentAt == Some(m.createdAt)
    else m.sender == m.customer && m.sentAt.None? && 1 <= |m.body| <= 4096
  }

  ghost predicate AllParties(ms: seq<Message>) {
    forall i | 0 <= i < |ms| :: PartiesOk(ms[i])
  }

  lemma GrewParties(s: Reg, t: Reg, d: Draft)
    requires AllParties(s.messages) && Grew(s, t, d) && (d.dir.FromCustomer? ==> 1 <= |d.body| <= 4096)
    ensures AllParties(t.messages)
  {
    var m :| Says(m, s.businesses, d) && t.messages == s.messages + [m] && t.businesses == s.businesses && t.customers == s.customers;
  }

  /** No call but a send and an inbound message stores one. */
  lemma OthersKeepLength(s: System, c: Call)
    requires Allowed(s, c) && !c.Accept? && !c.Receive? && !c.Wipe?
    ensures |Done(s, c).reg.messages| == |s.reg.messages|
  {}

  lemma CallParties(s: System, c: Call)
    requires Allowed(s, c) && AllParties(s.reg.messages)
    ensures AllParties(Done(s, c).reg.messages)
  {
    match c
    case Accept(phone, customer, text, wamid, now) =>
      AcceptStores(s, phone, customer, text, wamid, now);
      GrewParties(s.reg, Done(s, c).reg, Draft(wamid, ToCustomer, phone, customer, text, now));
    case Receive(sender, to, body, wamid, now) =>
      ReceiveStores(s, sender, to, body, wamid, now);
      if !Unfit(s.reg, sender, to, body) {
        var b :| FoundUnder(s.reg.businesses, to, b) && Grew(s.reg, Done(s, c).reg, Draft(wamid, FromCustomer, b.phone, sender, body, now));
        GrewParties(s.reg, Done(s, c).reg, Draft(wamid, FromCustomer, b.phone, sender, body, now));
      }
    case Wipe(keep) => WipeStores(s, keep);
    case _ =>
      OthersKeepLength(s, c);
      forall i | 0 <= i < |s.reg.messages| ensures PartiesOk(Done(s, c).reg.messages[i]) { WrittenOnce(s, c, i); }
  }

  lemma {:induction false} RunParties(s: System, cs: seq<Call>)
    requires CanDo(s, cs) && AllParties(s.reg.messages)
    ensures AllParties(DoAll(s, cs).reg.messages)
    decreases |cs|
  {
    if cs != [] {
      CallParties(s, cs[0]);
      RunParties(Done(s, cs[0]), cs[1..]);
    }
  }

  /** In every run: each stored message is from or to its customer, sent when it was made, and no customer's is empty or too long. */
  lemma PartiesInRuns(s: System, m: Message)
    requires Reachable(s) && m in s.reg.messages
    ensures m.dir.ToCustomer? ==> m.recipient == m.customer && m.sentAt == Some(m.createdAt)
    ensures m.dir.FromCustomer? ==> m.sender == m.customer && m.sentAt.None? && 1 <= |m.body| <= 4096
  {
    var cfg: D.Config, delay: nat, clock: int, cs: seq<Call> :|
      cfg.Ok() && CanDo(Boot(cfg, delay, clock), cs) && s == DoAll(Boot(cfg, delay, clock), cs);
    RunParties(Boot(cfg, delay, clock), cs);
    var i :| 0 <= i < |s.reg.messages| && s.reg.messages[i] == m;
  }

  // ---- exactly which times ----

  /** `delivered` marks what is outbound, among those given, and not delivered yet. */
  ghost predicate Arrives(m: Message, c: Call) {
    c.Deliver? && m.dir.ToCustomer? && m.deliveredAt.None? && exists x :: x in c.msgs && x.wamid == m.wamid
  }

  /** `read` marks what was delivered and not read in the chat of that customer with the business found. */
  ghost predicate IsRead(bs: seq<Business>, m: Message, c: Call) {
    || (&& c.MarkRead? && m.dir.ToCustomer? && m.customer == c.customer && m.deliveredAt.Some? && m.readAt.None?
        && exists b :: FoundUnder(bs, c.peer, b) && b.phone == m.phone)
    || (c.MarkInbound? && m.dir.FromCustomer? && m.wamid == c.wamid && m.phone == c.phone && m.readAt.None?)
  }

  /** Exactly these messages get exactly these times. */
  ghost predicate Timed(bs: seq<Business>, m: Message, n: Message, c: Call) {
    n == m.(deliveredAt := if Arrives(m, c) then Some(c.now) else m.deliveredAt, readAt := if IsRead(bs, m, c) then Some(c.now) else m.readAt)
  }

  lemma DeliverTimes(reg: Reg, msgs: seq<Message>, now: int, i: nat)
    requires RegOk(reg) && Copies(reg, msgs) && i < |reg.messages|
    ensures var t := DeliveredCall(reg, msgs, now).reg;
            |t.messages| == |reg.messages| && Timed(reg.businesses, reg.messages[i], t.messages[i], Deliver(msgs, now))
  {
    var m := reg.messages[i];
    assert m in reg.messages;
    TodoReady(reg, msgs);
    InTodo(reg, DeliveredTodo(reg, msgs), m);
    SortSame(Undelivered(reg, msgs));
    UndeliveredIs(reg, msgs, m);
  }

  lemma ReadTimes(reg: Reg, customer: string, peer: string, now: int, i: nat)
    requires RegOk(reg) && i < |reg.messages|
    ensures var t := ReadCall(reg, customer, peer, now).reg;
            |t.messages| == |reg.messages| && Timed(reg.businesses, reg.messages[i], t.messages[i], Call.MarkRead(customer, peer, now))
  {
    var m := reg.messages[i];
    assert m in reg.messages;
    forall b ensures GetBusiness(reg.businesses, peer) == Some(b) <==> FoundUnder(reg.businesses, peer, b) { BusinessFound(reg.businesses, peer, b); }
    if GetBusiness(reg.businesses, peer).Some? {
      var phone := GetBusiness(reg.businesses, peer).value.phone;
      UnreadDeliveredIs(reg, customer, phone);
      InTodo(reg, UnreadDelivered(reg, customer, phone), m);
      assert m in UnreadDelivered(reg, customer, phone) <==> Unread(m, customer, phone);
    }
  }

  lemma MarkInboundTimes(reg: Reg, phone: string, wamid: string, now: int, i: nat)
    requires RegOk(reg) && i < |reg.messages|
    ensures var t := MarkInboundRead(reg, phone, wamid, now).reg;
            |t.messages| == |reg.messages| && Timed(reg.businesses, reg.messages[i], t.messages[i], MarkInbound(phone, wamid, now))
  {
    var m := reg.messages[i];
    assert m in reg.messages;
    if m.wamid == wamid { SameWamid(reg, m, GetMessage(reg.messages, wamid).value); }
  }

  /** Which stored messages a call marks, and with which time: exactly these, and nothing else about any message changes. */
  lemma MarksExactly(s: System, c: Call, i: nat)
    requires RegOk(s.reg) && Allowed(s, c) && !c.Wipe? && i < |s.reg.messages|
    ensures i < |Done(s, c).reg.messages| && Timed(s.reg.businesses, s.reg.messages[i], Done(s, c).reg.messages[i], c)
  {
    match c
    case Numbers(_, _) =>
    case Dispatch(_) =>
    case Accept(_, _, _, _, _) =>
    case Receive(_, _, _, _, _) =>
    case Deliver(msgs, now) => DeliverTimes(s.reg, msgs, now, i);
    case MarkRead(customer, peer, now) => ReadTimes(s.reg, customer, peer, now, i);
    case MarkInbound(phone, wamid, now) => MarkInboundTimes(s.reg, phone, wamid, now, i);
  }
}
