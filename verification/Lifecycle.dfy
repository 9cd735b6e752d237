/**
 The message lifecycle: the only place that turns state changes into webhooks. Each call is described by its effect:
 the new store, the webhooks it asks for, the events it announces, and the error it throws, if any. An error thrown
 half way leaves the effects made before it.
 */
module Lifecycle {
  import opened Prelude
  import opened JobStore
  import opened Registry

  datatype Error = UnknownCustomer | UnknownBusiness | InvalidBody

  datatype BusEvent =
    | MessageNew(m: Message)
    | StatusChanged(wamid: string, number: string, status: Status, at: int)
    | LogChanged(wamid: string)

  datatype Effect = Effect(reg: Reg, requests: seq<Request>, events: seq<BusEvent>, error: Option<Error>)

  const MAX_TEXT_LENGTH := 4096

  /** The phone number id a status webhook names: that of the business found under the message's. */
  function IdOf(bs: seq<Business>, phone: string): string {
    match GetBusiness(bs, phone) case Some(b) => b.phone case None => phone
  }

  function StatusRequest(bs: seq<Business>, m: Message, kind: JobKind, at: int, notBefore: int): Request {
    Request(m.conv, m.wamid, kind, Payload(IdOf(bs, m.phone), m.customer, "", at), notBefore)
  }

  predicate Registered(reg: Reg, phone: string) { GetBusiness(reg.businesses, phone).Some? }

  /** How many messages come before the first whose business is gone: there the loop throws. */
  function Leading(reg: Reg, todo: seq<Message>): (n: nat)
    ensures n <= |todo|
    ensures forall i | 0 <= i < n :: Registered(reg, todo[i].phone)
    ensures n < |todo| ==> !Registered(reg, todo[n].phone)
  {
    if todo == [] || !Registered(reg, todo[0].phone) then 0 else 1 + Leading(reg, todo[1..])
  }

  function StatusRequests(bs: seq<Business>, todo: seq<Message>, kind: JobKind, at: int): (r: seq<Request>)
    ensures |r| == |todo| && forall i | 0 <= i < |todo| :: r[i] == StatusRequest(bs, todo[i], kind, at, 0)
  {
    seq(|todo|, i requires 0 <= i < |todo| => StatusRequest(bs, todo[i], kind, at, 0))
  }

  function Announcements(todo: seq<Message>, status: Status, at: int): seq<BusEvent> {
    if todo == [] then [] else
      var m := todo[|todo| - 1];
      Announcements(todo[..|todo| - 1], status, at) + [StatusChanged(m.wamid, m.customer, status, at), LogChanged(m.wamid)]
  }

  /** Queue and announce a status for each message, up to the first whose business is not registered. */
  function StatusEffect(reg: Reg, todo: seq<Message>, kind: JobKind, status: Status, at: int): Effect {
    var n := Leading(reg, todo);
    Effect(reg, StatusRequests(reg.businesses, todo[..n], kind, at), Announcements(todo[..n], status, at),
           if n < |todo| then Some(UnknownBusiness) else None)
  }

  /** A validated send of a business: stored, and its `sent` webhook held back for the configured delay. */
  function Accepted(reg: Reg, phone: string, customer: string, text: string, wamid: string, delay: nat, now: int): Effect {
    var d := Draft(wamid, ToCustomer, phone, customer, text, now);
    var m, t := MessageOf(reg, d), Stored(reg, d);
    if !Registered(reg, phone) then Effect(t, [], [], Some(UnknownBusiness))
    else Effect(t, [StatusRequest(reg.businesses, m, Sent, now, now + delay)], [LogChanged(wamid)], None)
  }

  /** The outbound, not yet delivered messages among `msgs`, as stored now. */
  function Undelivered(reg: Reg, msgs: seq<Message>): seq<Message> {
    if msgs == [] then [] else
      var rest := Undelivered(reg, msgs[..|msgs| - 1]);
      var m := msgs[|msgs| - 1];
      if !m.dir.ToCustomer? then rest else
        match GetMessage(reg.messages, m.wamid)
        case None => rest
        case Some(x) => if x.deliveredAt.None? then rest + [x] else rest
  }

  function DeliveredTodo(reg: Reg, msgs: seq<Message>): seq<Message> { SortByNo(Undelivered(reg, msgs)) }

  function DeliveredCall(reg: Reg, msgs: seq<Message>, now: int): Effect {
    var todo := DeliveredTodo(reg, msgs);
    if todo == [] then Effect(reg, [], [], None)
    else StatusEffect(SetDelivered(reg, Wamids(todo), now), todo, Delivered, WasDelivered, now)
  }

  function ReadCall(reg: Reg, customer: string, peer: string, now: int): Effect {
    match GetBusiness(reg.businesses, peer)
    case None => Effect(reg, [], [], Some(UnknownBusiness))
    case Some(b) =>
      var todo := UnreadDelivered(reg, customer, b.phone);
      if todo == [] then Effect(reg, [], [], None)
      else StatusEffect(SetRead(reg, Wamids(todo), now), todo, JobKind.Read, WasRead, now)
  }

  function InboundCall(reg: Reg, sender: string, to: string, body: string, wamid: string, now: int): Effect {
    match GetCustomer(reg.customers, sender)
    case None => Effect(reg, [], [], Some(UnknownCustomer))
    case Some(c) =>
      match GetBusiness(reg.businesses, to)
      case None => Effect(reg, [], [], Some(UnknownBusiness))
      case Some(b) =>
        if body == "" || |body| > MAX_TEXT_LENGTH then Effect(reg, [], [], Some(InvalidBody))
        else
          var d := Draft(wamid, FromCustomer, b.phone, c.number, body, now);
          var m := MessageOf(reg, d);
          Effect(Stored(reg, d), [Request(m.conv, wamid, JobKind.Inbound, Payload(b.phone, c.number, body, now), 0)],
                 [MessageNew(m), LogChanged(wamid)], None)
  }

  /** The business marked a customer's message read: no webhook. */
  function MarkInboundRead(reg: Reg, phone: string, wamid: string, now: int): Effect {
    match GetMessage(reg.messages, wamid)
    case None => Effect(reg, [], [], None)
    case Some(m) =>
      if !m.dir.FromCustomer? || m.phone != phone || m.readAt.Some? then Effect(reg, [], [], None)
      else Effect(SetRead(reg, [wamid], now), [], [StatusChanged(wamid, m.customer, WasRead, now), LogChanged(wamid)], None)
  }
}
