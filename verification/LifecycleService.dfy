/** The lifecycle as an object over a registry and a dispatcher, proved to have the effects described. */
module LifecycleService {
  import opened Prelude
  import opened JobStore
  import opened Registry
  import opened Lifecycle
  import opened EndToEnd
  import D = Dispatcher
  import W = WebhookDispatcher

  class MemoryRegistry {
    var businesses: seq<Business>
    var customers: seq<Customer>
    var messages: seq<Message>
    var conversations: map<(string, string), Conv>

    ghost function View(): Reg
      reads this
    {
      Reg(businesses, customers, messages, conversations, |conversations| + 1)
    }

    constructor ()
      ensures View() == EmptyReg && RegOk(View())
    {
      businesses, customers, messages, conversations := [], [], [], map[];
    }

    method StoreMessage(d: Draft) returns (m: Message)
      modifies this
      ensures View() == Stored(old(View()), d) && m == MessageOf(old(View()), d)
    {
      ghost var before := View();
      var key := (d.phone, d.customer);
      var conv := if key in conversations then conversations[key] else Conv(|conversations| + 1, 1);
      var business := GetBusiness(businesses, d.phone);
      var shown := if business.Some? then business.value.display else d.phone;
      m := Message(d.wamid, conv.id, conv.next, d.dir, d.phone, d.customer,
                   if d.dir.ToCustomer? then shown else d.customer, if d.dir.ToCustomer? then d.customer else shown,
                   d.body, d.at, if d.dir.ToCustomer? then Some(d.at) else None, None, None);
      conversations := conversations[key := conv.(next := conv.next + 1)];
      messages := messages + [m];
      assert key in before.convs ==> conversations.Keys == before.convs.Keys;
      assert key !in before.convs ==> conversations.Keys == before.convs.Keys + {key};
      assert |conversations| == |conversations.Keys| && |before.convs| == |before.convs.Keys|;
    }

    method SetDelivered(wamids: seq<string>, at: int)
      modifies this
      ensures View() == Registry.SetDelivered(old(View()), wamids, at)
    {
      var marked: seq<Message> := [];
      for i := 0 to |messages|
        invariant View() == old(View())
        invariant |marked| == i && forall j | 0 <= j < i :: marked[j] == MarkDelivered(messages[j], wamids, at)
      {
        var m := messages[i];
        if m.wamid in wamids && m.deliveredAt.None? { m := m.(deliveredAt := Some(at)); }
        marked := marked + [m];
      }
      messages := marked;
    }

    method SetRead(wamids: seq<string>, at: int)
      modifies this
      ensures View() == Registry.SetRead(old(View()), wamids, at)
    {
      var marked: seq<Message> := [];
      for i := 0 to |messages|
        invariant View() == old(View())
        invariant |marked| == i && forall j | 0 <= j < i :: marked[j] == Registry.MarkRead(messages[j], wamids, at)
      {
        var m := messages[i];
        if m.wamid in wamids && m.readAt.None? { m := m.(readAt := Some(at)); }
        marked := marked + [m];
      }
      messages := marked;
    }

    /** Delivered but unread in one chat: exactly those, once each, in order. */
    method UnreadDelivered(customer: string, phone: string) returns (r: seq<Message>)
      ensures r == Registry.UnreadDelivered(View(), customer, phone)
      ensures Unique(messages) ==> SortedByNo(r) && forall m :: m in r <==> m in messages && Unread(m, customer, phone)
    {
      r := SortByNo(UnreadOf(messages, customer, phone));
      if Unique(messages) { UnreadDeliveredIs(View(), customer, phone); }
    }
  }

  class LifecycleService {
    const registry: MemoryRegistry
    const dispatcher: W.WebhookDispatcher
    const statusDelay: nat
    var emitted: seq<BusEvent>

    constructor (registry: MemoryRegistry, dispatcher: W.WebhookDispatcher, statusDelay: nat)
      ensures this.registry == registry && this.dispatcher == dispatcher && this.statusDelay == statusDelay && emitted == []
    {
      this.registry, this.dispatcher, this.statusDelay, emitted := registry, dispatcher, statusDelay, [];
    }

    /** What a call leaves behind, given the dispatcher and the announcements before it and its effect. */
    ghost predicate Did(before: D.State, announced: seq<BusEvent>, e: Effect, now: int, error: Option<Error>)
      reads this, registry, dispatcher, dispatcher.store
    {
      && registry.View() == e.reg
      && dispatcher.Valid() && dispatcher.View() == EnqueueAll(before, e.requests, now)
      && emitted == announced + e.events
      && error == e.error
    }

    method QueueStatus(m: Message, kind: JobKind, status: Status, at: int)
      requires dispatcher.Valid() && at >= dispatcher.clock && GetBusiness(registry.businesses, m.phone).Some?
      modifies this, dispatcher, dispatcher.store
      ensures dispatcher.Valid() && dispatcher.clock == at
      ensures dispatcher.View() == D.Enqueued(old(dispatcher.View()), StatusRequest(registry.businesses, m, kind, at, 0), at)
      ensures emitted == old(emitted) + [StatusChanged(m.wamid, m.customer, status, at), LogChanged(m.wamid)]
    {
      var business := GetBusiness(registry.businesses, m.phone).value;
      var _ := dispatcher.Enqueue(Request(m.conv, m.wamid, kind, Payload(business.phone, m.customer, "", at), 0), at);
      EnqueuedRows(old(dispatcher.View()), StatusRequest(registry.businesses, m, kind, at, 0), at);
      emitted := emitted + [StatusChanged(m.wamid, m.customer, status, at), LogChanged(m.wamid)];
    }

    /** The effects of a status loop after its first `i` turns. */
    ghost predicate Turns(before: D.State, announced: seq<BusEvent>, todo: seq<Message>, i: nat, kind: JobKind, status: Status, at: int)
      requires i <= |todo|
      reads this, registry, dispatcher, dispatcher.store
    {
      && dispatcher.Valid()
      && dispatcher.View() == EnqueueAll(before, StatusRequests(registry.businesses, todo[..i], kind, at), at)
      && emitted == announced + Announcements(todo[..i], status, at)
    }

    method QueueNext(ghost before: D.State, ghost announced: seq<BusEvent>, todo: seq<Message>, i: nat, kind: JobKind, status: Status, at: int)
      requires i < |todo| && GetBusiness(registry.businesses, todo[i].phone).Some?
      requires at >= dispatcher.clock && Turns(before, announced, todo, i, kind, status, at)
      modifies this, dispatcher, dispatcher.store
      ensures at >= dispatcher.clock && Turns(before, announced, todo, i + 1, kind, status, at)
    {
      QueueStatus(todo[i], kind, status, at);
      OneMore(registry.businesses, before, announced, todo, i, kind, status, at);
    }

    /** Queue and announce a status for each message; throws at the first whose business is gone. */
    method QueueStatuses(todo: seq<Message>, kind: JobKind, status: Status, at: int) returns (error: Option<Error>)
      requires dispatcher.Valid() && at >= dispatcher.clock
      modifies this, dispatcher, dispatcher.store
      ensures Did(old(dispatcher.View()), old(emitted), StatusEffect(old(registry.View()), todo, kind, status, at), at, error)
    {
      ghost var reg, before, announced := registry.View(), dispatcher.View(), emitted;
      for i := 0 to |todo|
        invariant at >= dispatcher.clock && registry.View() == reg
        invariant i <= Leading(reg, todo)
        invariant Turns(before, announced, todo, i, kind, status, at)
      {
        LeadingNext(reg, todo, i);
        StoppedAt(reg, todo, i, kind, status, at);
        if GetBusiness(registry.businesses, todo[i].phone).None? {
          return Some(UnknownBusiness);
        }
        QueueNext(before, announced, todo, i, kind, status, at);
      }
      StoppedAt(reg, todo, |todo|, kind, status, at);
      error := None;
    }

    method Accept(phone: string, customer: string, text: string, wamid: string, now: int) returns (error: Option<Error>)
      requires dispatcher.Valid() && now >= dispatcher.clock
      modifies this, registry, dispatcher, dispatcher.store
      ensures Did(old(dispatcher.View()), old(emitted), Accepted(old(registry.View()), phone, customer, text, wamid, statusDelay, now), now, error)
    {
      var m := registry.StoreMessage(Draft(wamid, ToCustomer, phone, customer, text, now));
      var business := GetBusiness(registry.businesses, m.phone);
      if business.None? { return Some(UnknownBusiness); }
      var r := Request(m.conv, wamid, Sent, Payload(business.value.phone, m.customer, "", now), now + statusDelay);
      var _ := dispatcher.Enqueue(r, now);
      assert [r][..0] == [];
      emitted := emitted + [LogChanged(wamid)];
      error := None;
    }

    method Delivered(msgs: seq<Message>, now: int) returns (error: Option<Error>)
      requires dispatcher.Valid() && now >= dispatcher.clock
      modifies this, registry, dispatcher, dispatcher.store
      ensures Did(old(dispatcher.View()), old(emitted), DeliveredCall(old(registry.View()), msgs, now), now, error)
    {
      var todo: seq<Message> := [];
      for i := 0 to |msgs|
        invariant registry.View() == old(registry.View()) && dispatcher.View() == old(dispatcher.View()) && emitted == old(emitted)
        invariant dispatcher.Valid()
        invariant todo == Undelivered(registry.View(), msgs[..i])
      {
        assert msgs[..i + 1][..i] == msgs[..i];
        if msgs[i].dir.ToCustomer? {
          var stored := GetMessage(registry.messages, msgs[i].wamid);
          if stored.Some? && stored.value.deliveredAt.None? { todo := todo + [stored.value]; }
        }
      }
      assert msgs[..|msgs|] == msgs;
      todo := SortByNo(todo);
      if todo == [] { return None; }
      registry.SetDelivered(Wamids(todo), now);
      error := QueueStatuses(todo, JobKind.Delivered, WasDelivered, now);
    }

    method Read(customer: string, peer: string, now: int) returns (error: Option<Error>)
      requires dispatcher.Valid() && now >= dispatcher.clock
      modifies this, registry, dispatcher, dispatcher.store
      ensures Did(old(dispatcher.View()), old(emitted), ReadCall(old(registry.View()), customer, peer, now), now, error)
    {
      var business := GetBusiness(registry.businesses, peer);
      if business.None? { return Some(UnknownBusiness); }
      var todo := registry.UnreadDelivered(customer, business.value.phone);
      if todo == [] { return None; }
      registry.SetRead(Wamids(todo), now);
      error := QueueStatuses(todo, JobKind.Read, WasRead, now);
    }

    method Inbound(sender: string, to: string, body: string, wamid: string, now: int) returns (error: Option<Error>)
      requires dispatcher.Valid() && now >= dispatcher.clock
      modifies this, registry, dispatcher, dispatcher.store
      ensures Did(old(dispatcher.View()), old(emitted), InboundCall(old(registry.View()), sender, to, body, wamid, now), now, error)
    {
      var customer := GetCustomer(registry.customers, sender);
      if customer.None? { return Some(UnknownCustomer); }
      var business := GetBusiness(registry.businesses, to);
      if business.None? { return Some(UnknownBusiness); }
      if |body| == 0 || |body| > MAX_TEXT_LENGTH { return Some(InvalidBody); }
      var m := registry.StoreMessage(Draft(wamid, FromCustomer, business.value.phone, customer.value.number, body, now));
      var r := Request(m.conv, wamid, JobKind.Inbound, Payload(business.value.phone, customer.value.number, body, now), 0);
      var _ := dispatcher.Enqueue(r, now);
      assert [r][..0] == [];
      emitted := emitted + [MessageNew(m), LogChanged(wamid)];
      error := None;
    }

    method MarkInboundRead(phone: string, wamid: string, now: int) returns (error: Option<Error>)
      requires dispatcher.Valid()
      modifies this, registry
      ensures Did(old(dispatcher.View()), old(emitted), Lifecycle.MarkInboundRead(old(registry.View()), phone, wamid, now), now, error)
    {
      error := None;
      var m := GetMessage(registry.messages, wamid);
      if m.None? || !m.value.dir.FromCustomer? || m.value.phone != phone || m.value.readAt.Some? { return; }
      registry.SetRead([wamid], now);
      emitted := emitted + [StatusChanged(wamid, m.value.customer, WasRead, now), LogChanged(wamid)];
    }
  }

  lemma OneMore(bs: seq<Business>, d: D.State, announced: seq<BusEvent>, todo: seq<Message>, i: nat, kind: JobKind, status: Status, at: int)
    requires i < |todo|
    ensures EnqueueAll(d, StatusRequests(bs, todo[..i + 1], kind, at), at)
         == D.Enqueued(EnqueueAll(d, StatusRequests(bs, todo[..i], kind, at), at), StatusRequest(bs, todo[i], kind, at, 0), at)
    ensures announced + Announcements(todo[..i + 1], status, at)
         == announced + Announcements(todo[..i], status, at) + [StatusChanged(todo[i].wamid, todo[i].customer, status, at), LogChanged(todo[i].wamid)]
  {
    assert todo[..i + 1][..i] == todo[..i];
    assert StatusRequests(bs, todo[..i + 1], kind, at)[..i] == StatusRequests(bs, todo[..i], kind, at);
  }

  /** The loop ends at the first message whose business is gone, or behind the last. */
  lemma StoppedAt(reg: Reg, todo: seq<Message>, i: nat, kind: JobKind, status: Status, at: int)
    requires i <= |todo|
    ensures i == Leading(reg, todo) ==>
              StatusEffect(reg, todo, kind, status, at)
              == Effect(reg, StatusRequests(reg.businesses, todo[..i], kind, at), Announcements(todo[..i], status, at), if i < |todo| then Some(UnknownBusiness) else None)
  {}

  lemma {:induction false} LeadingNext(reg: Reg, todo: seq<Message>, i: nat)
    requires i < |todo| && i <= Leading(reg, todo)
    ensures Registered(reg, todo[i].phone) <==> i < Leading(reg, todo)
  {}
}
