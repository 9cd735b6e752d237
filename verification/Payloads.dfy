/** What a webhook says: its payload is that of the stored message it is about, and stays so whatever happens later. */
module Payloads {
  import opened Prelude
  import opened JobStore
  import opened Registry
  import opened Lifecycle
  import opened Conservation
  import opened EndToEnd
  import opened MessageFields
  import B = BadgeRuns
  import D = Dispatcher
  import DR = DispatcherRuns
  import DSt = DispatcherStore

  /**
   The payload of a webhook of this kind tells what `m` tells; `own`: also the phone number id. A status has no text,
   and its time is the one the message has for it.
   */
  predicate Tells(p: Payload, kind: JobKind, m: Message, own: bool) {
    && p.customer == m.customer && (kind.Inbound? || own ==> p.phone == m.phone)
    && p.body == (if kind.Inbound? then m.body else "")
    && match kind
       case Inbound => m.dir.FromCustomer? && p.at == m.createdAt
       case Sent => m.sentAt == Some(p.at)
       case Delivered => m.deliveredAt == Some(p.at)
       case Read => m.readAt == Some(p.at)
  }

  /** The webhook is of a stored message, was asked for at the time it tells, and tells what the message tells. */
  ghost predicate RowTells(ms: seq<Message>, j: Job, own: bool) {
    j.createdAt == j.payload.at && exists i :: 0 <= i < |ms| && ms[i].wamid == j.wamid && ms[i].conv == j.conv && Tells(j.payload, j.kind, ms[i], own)
  }

  ghost predicate PayloadsOk(ms: seq<Message>, jobs: seq<Job>, own: bool) {
    forall k | 0 <= k < |jobs| :: RowTells(ms, jobs[k], own)
  }

  // ---- what is asked for ----

  ghost predicate RequestTells(ms: seq<Message>, r: Request, at: int, own: bool) {
    r.payload.at == at && exists i :: 0 <= i < |ms| && ms[i].wamid == r.wamid && ms[i].conv == r.conv && Tells(r.payload, r.kind, ms[i], own)
  }

  ghost predicate AllTell(ms: seq<Message>, rs: seq<Request>, at: int, own: bool) {
    forall k | 0 <= k < |rs| :: RequestTells(ms, rs[k], at, own)
  }

  /** The business found under the number of an outbound message has that number as its id. */
  ghost predicate OwnIds(reg: Reg, c: Call) {
    && (forall m | m in reg.messages && m.dir.ToCustomer? :: IdOf(reg.businesses, m.phone) == m.phone)
    && (c.Accept? ==> IdOf(reg.businesses, c.phone) == c.phone)
  }

  lemma StoredTells(reg: Reg, d: Draft, r: Request, own: bool)
    requires r.wamid == d.wamid && r.conv == MessageOf(reg, d).conv && r.payload.at == d.at
    requires Tells(r.payload, r.kind, MessageOf(reg, d), own)
    ensures AllTell(Stored(reg, d).messages, [r], d.at, own)
  {
    assert Stored(reg, d).messages[|reg.messages|] == MessageOf(reg, d);
  }

  lemma AcceptTells(s: System, phone: string, customer: string, text: string, wamid: string, now: int, own: bool)
    requires own ==> IdOf(s.reg.businesses, phone) == phone
    ensures var e := Accepted(s.reg, phone, customer, text, wamid, s.delay, now); AllTell(e.reg.messages, e.requests, now, own)
  {
    var d := Draft(wamid, ToCustomer, phone, customer, text, now);
    StoredTells(s.reg, d, StatusRequest(s.reg.businesses, MessageOf(s.reg, d), Sent, now, now + s.delay), own);
  }

  lemma ReceiveTells(reg: Reg, sender: string, to: string, body: string, wamid: string, now: int, own: bool)
    ensures var e := InboundCall(reg, sender, to, body, wamid, now); AllTell(e.reg.messages, e.requests, now, own)
  {
    var e := InboundCall(reg, sender, to, body, wamid, now);
    if e.requests != [] {
      StoredTells(reg, Draft(wamid, FromCustomer, GetBusiness(reg.businesses, to).value.phone, sender, body, now), e.requests[0], own);
    }
  }

  /** A stored message that is ready for a status gets the time its webhook tells. */
  lemma StatusTells(reg: Reg, todo: seq<Message>, kind: JobKind, at: int, m: Message, own: bool)
    requires RegOk(reg) && ReadyFor(reg, todo, kind) && m in todo && (own ==> IdOf(reg.businesses, m.phone) == m.phone)
    ensures RequestTells(Marked(reg, todo, kind, at).messages, StatusRequest(reg.businesses, m, kind, at, 0), at, own)
  {
    var i :| 0 <= i < |reg.messages| && reg.messages[i] == m;
    InTodo(reg, todo, m);
    var n := Marked(reg, todo, kind, at).messages[i];
    assert n.wamid == m.wamid && n.conv == m.conv;
  }

  lemma StatusesTell(reg: Reg, todo: seq<Message>, kind: JobKind, status: Status, at: int, own: bool)
    requires RegOk(reg) && ReadyFor(reg, todo, kind) && (own ==> forall m | m in todo :: IdOf(reg.businesses, m.phone) == m.phone)
    ensures var e := StatusEffect(Marked(reg, todo, kind, at), todo, kind, status, at); AllTell(e.reg.messages, e.requests, at, own)
  {
    var e := StatusEffect(Marked(reg, todo, kind, at), todo, kind, status, at);
    forall k | 0 <= k < |e.requests| ensures RequestTells(e.reg.messages, e.requests[k], at, own) {
      assert todo[k] in todo;
      StatusTells(reg, todo, kind, at, todo[k], own);
    }
  }

  lemma DeliverTells(reg: Reg, msgs: seq<Message>, now: int, own: bool)
    requires RegOk(reg) && Copies(reg, msgs)
    requires own ==> forall m | m in reg.messages && m.dir.ToCustomer? :: IdOf(reg.businesses, m.phone) == m.phone
    ensures var e := DeliveredCall(reg, msgs, now); AllTell(e.reg.messages, e.requests, now, own)
  {
    TodoReady(reg, msgs);
    StatusesTell(reg, DeliveredTodo(reg, msgs), Delivered, WasDelivered, now, own);
  }

  lemma ReadTells(reg: Reg, customer: string, peer: string, now: int, own: bool)
    requires RegOk(reg)
    requires own ==> forall m | m in reg.messages && m.dir.ToCustomer? :: IdOf(reg.businesses, m.phone) == m.phone
    ensures var e := ReadCall(reg, customer, peer, now); AllTell(e.reg.messages, e.requests, now, own)
  {
    if GetBusiness(reg.businesses, peer).Some? {
      var phone := GetBusiness(reg.businesses, peer).value.phone;
      UnreadDeliveredIs(reg, customer, phone);
      StatusesTell(reg, UnreadDelivered(reg, customer, phone), JobKind.Read, WasRead, now, own);
    }
  }

  lemma EffectTells(s: System, c: Call, own: bool)
    requires RegOk(s.reg) && Allowed(s, c) && (c.Accept? || c.Deliver? || c.MarkRead? || c.Receive? || c.MarkInbound?)
    requires own ==> OwnIds(s.reg, c)
    ensures AllTell(EffectOf(s, c).reg.messages, EffectOf(s, c).requests, c.now, own)
  {
    match c
    case Accept(phone, customer, text, wamid, now) => AcceptTells(s, phone, customer, text, wamid, now, own);
    case Deliver(msgs, now) => DeliverTells(s.reg, msgs, now, own);
    case MarkRead(customer, peer, now) => ReadTells(s.reg, customer, peer, now, own);
    case Receive(sender, to, body, wamid, now) => ReceiveTells(s.reg, sender, to, body, wamid, now, own);
    case MarkInbound(_, _, _) =>
  }

  // ---- rows ----

  function NewJobs(rs: seq<Request>, id: nat, now: int): (r: seq<Job>)
    ensures |r| == |rs| && forall k | 0 <= k < |rs| :: r[k] == NewJob(rs[k], id + k, now)
  {
    seq(|rs|, k requires 0 <= k < |rs| => NewJob(rs[k], id + k, now))
  }

  lemma NewJobsAppend(rs: seq<Request>, id: nat, now: int)
    requires rs != []
    ensures var n := |rs| - 1; NewJobs(rs, id, now) == NewJobs(rs[..n], id, now) + [NewJob(rs[n], id + n, now)]
  {}

  /** Rows come from the requests, in order. */
  lemma {:induction false} EnqueueAllRows(d: D.State, rs: seq<Request>, now: int)
    ensures EnqueueAll(d, rs, now).rows.jobs == d.rows.jobs + NewJobs(rs, d.rows.nextId, now)
    ensures EnqueueAll(d, rs, now).rows.nextId == d.rows.nextId + |rs|
  {
    if rs == [] {
      assert d.rows.jobs + NewJobs([], d.rows.nextId, now) == d.rows.jobs;
    } else {
      var n := |rs| - 1;
      EnqueueAllRows(d, rs[..n], now);
      EnqueuedRows(EnqueueAll(d, rs[..n], now), rs[n], now);
      NewJobsAppend(rs, d.rows.nextId, now);
    }
  }

  /** Progress changes nothing about a webhook but how far it is. */
  ghost predicate SameWebhooks(js: seq<Job>, ks: seq<Job>) {
    |ks| == |js| && forall i | 0 <= i < |js| :: ks[i] == js[i].(state := ks[i].state, finishedAt := ks[i].finishedAt)
  }

  lemma RespondRows(d: D.State, k: D.Key, reply: D.Reply, now: int)
    requires D.CanRespond(d, k, now)
    ensures SameWebhooks(d.rows.jobs, D.Responded(d, k, reply, now).rows.jobs)
  {}

  lemma DispatchRows(d: D.State, step: D.Step)
    requires DR.Inv(d) && D.Enabled(d, step) && !step.Enqueue? && !step.Reset? && !step.Cancel?
    ensures SameWebhooks(d.rows.jobs, D.Apply(d, step).rows.jobs)
  {
    match step
    case Fire(k, now) =>
    case Respond(k, reply, now) => RespondRows(d, k, reply, now);
    case Finally(k) => FinallyRows(d, k);
    case Restart => DSt.ResumeQueues(d, 0);
    case AwaitIdle(w) =>
  }

  lemma SameWebhooksTell(ms: seq<Message>, js: seq<Job>, ks: seq<Job>, own: bool)
    requires PayloadsOk(ms, js, own) && SameWebhooks(js, ks)
    ensures PayloadsOk(ms, ks, own)
  {
    forall k | 0 <= k < |ks| ensures RowTells(ms, ks[k], own) { assert RowTells(ms, js[k], own); }
  }

  /** A row goes on telling what its message tells: what it tells is never overwritten. */
  lemma RowStays(ms: seq<Message>, ns: seq<Message>, j: Job, own: bool)
    requires RowTells(ms, j, own) && |ns| >= |ms| && forall i | 0 <= i < |ms| :: KeepsTimes(ms[i], ns[i])
    ensures RowTells(ns, j, own)
  {
    var i :| 0 <= i < |ms| && ms[i].wamid == j.wamid && ms[i].conv == j.conv && Tells(j.payload, j.kind, ms[i], own);
    assert KeepsTimes(ms[i], ns[i]);
    assert ns[i].wamid == j.wamid && Tells(j.payload, j.kind, ns[i], own);
  }

  lemma AddedTell(ms: seq<Message>, ns: seq<Message>, d: D.State, rs: seq<Request>, now: int, own: bool)
    requires PayloadsOk(ms, d.rows.jobs, own) && |ns| >= |ms| && (forall i | 0 <= i < |ms| :: KeepsTimes(ms[i], ns[i]))
    requires AllTell(ns, rs, now, own)
    ensures PayloadsOk(ns, EnqueueAll(d, rs, now).rows.jobs, own)
  {
    EnqueueAllRows(d, rs, now);
    var js, ks := d.rows.jobs, EnqueueAll(d, rs, now).rows.jobs;
    forall k | 0 <= k < |ks| ensures RowTells(ns, ks[k], own) {
      if k < |js| {
        RowStays(ms, ns, js[k], own);
      } else {
        assert RequestTells(ns, rs[k - |js|], now, own);
      }
    }
  }

  lemma CallTells(s: System, c: Call, own: bool)
    requires SysInv(s) && Allowed(s, c) && PayloadsOk(s.reg.messages, s.dsp.rows.jobs, own) && (own ==> OwnIds(s.reg, c))
    ensures PayloadsOk(Done(s, c).reg.messages, Done(s, c).dsp.rows.jobs, own)
  {
    match c
    case Numbers(_, _) =>
    case Wipe(_) =>
    case Dispatch(step) =>
      DispatchRows(s.dsp, step);
      SameWebhooksTell(s.reg.messages, s.dsp.rows.jobs, Done(s, c).dsp.rows.jobs, own);
    case _ =>
      var e := EffectOf(s, c);
      EffectTells(s, c, own);
      forall i | 0 <= i < |s.reg.messages| ensures i < |e.reg.messages| && KeepsTimes(s.reg.messages[i], e.reg.messages[i]) { WrittenOnce(s, c, i); }
      EffectLonger(s, c);
      AddedTell(s.reg.messages, e.reg.messages, s.dsp, e.requests, c.now, own);
  }

  lemma EffectLonger(s: System, c: Call)
    requires c.Accept? || c.Deliver? || c.MarkRead? || c.Receive? || c.MarkInbound?
    ensures |EffectOf(s, c).reg.messages| >= |s.reg.messages|
  {}

  lemma CallKeepsTelling(s: System, c: Call, own: bool)
    requires SysInv(s) && Allowed(s, c) && PayloadsOk(s.reg.messages, s.dsp.rows.jobs, own) && (own ==> OwnIds(s.reg, c))
    ensures SysInv(Done(s, c)) && PayloadsOk(Done(s, c).reg.messages, Done(s, c).dsp.rows.jobs, own)
  {
    CallInv(s, c);
    CallTells(s, c, own);
  }

  lemma {:induction false} RunTells(s: System, cs: seq<Call>)
    requires SysInv(s) && CanDo(s, cs) && PayloadsOk(s.reg.messages, s.dsp.rows.jobs, false)
    ensures SysInv(DoAll(s, cs)) && PayloadsOk(DoAll(s, cs).reg.messages, DoAll(s, cs).dsp.rows.jobs, false)
    decreases |cs|
  {
    if cs != [] {
      CallKeepsTelling(s, cs[0], false);
      RunTells(Done(s, cs[0]), cs[1..]);
    }
  }

  // ---- main results ----

  /**
   In every run each webhook tells what the stored message with its wamid tells: the customer, the text and time of an
   inbound message together with its business, or the time the message has for that status.
   */
  lemma PayloadsMatchMessages(s: System, k: nat)
    requires Reachable(s) && k < |s.dsp.rows.jobs|
    ensures var j := s.dsp.rows.jobs[k];
            && GetMessage(s.reg.messages, j.wamid).Some? && j.createdAt == j.payload.at
            && var m := GetMessage(s.reg.messages, j.wamid).value; Tells(j.payload, j.kind, m, false)
  {
    var cfg: D.Config, delay: nat, clock: int, cs: seq<Call> :|
      cfg.Ok() && CanDo(Boot(cfg, delay, clock), cs) && s == DoAll(Boot(cfg, delay, clock), cs);
    BootInv(cfg, delay, clock);
    RunTells(Boot(cfg, delay, clock), cs);
    RowMessage(s, k, false);
  }

  lemma RowMessage(s: System, k: nat, own: bool)
    requires SysInv(s) && PayloadsOk(s.reg.messages, s.dsp.rows.jobs, own) && k < |s.dsp.rows.jobs|
    ensures var j := s.dsp.rows.jobs[k];
            && GetMessage(s.reg.messages, j.wamid).Some? && j.createdAt == j.payload.at
            && Tells(j.payload, j.kind, GetMessage(s.reg.messages, j.wamid).value, own)
  {
    var j, ms := s.dsp.rows.jobs[k], s.reg.messages;
    assert RowTells(ms, j, own);
    var i :| 0 <= i < |ms| && ms[i].wamid == j.wamid && ms[i].conv == j.conv && Tells(j.payload, j.kind, ms[i], own);
    SameWamid(s.reg, ms[i], GetMessage(ms, j.wamid).value);
  }

  // ---- the phone number id of a status ----

  /** The first business found under the number of a message has that number as its id. */
  ghost predicate FindsItself(bs: seq<Business>, phone: string) {
    exists b :: FoundUnder(bs, phone, b) && b.phone == phone
  }

  /** The request is of message `m` and names the business found under its number: its own exactly if that finds itself. */
  ghost predicate NamesFound(bs: seq<Business>, r: Request, m: Message) {
    && r.wamid == m.wamid && r.payload.customer == m.customer
    && (r.payload.phone == m.phone <==> r.kind.Inbound? || FindsItself(bs, m.phone))
    && (!r.kind.Inbound? ==> exists b :: FoundUnder(bs, m.phone, b) && r.payload.phone == b.phone)
  }

  lemma StatusNames(bs: seq<Business>, m: Message, kind: JobKind, at: int, notBefore: int)
    requires GetBusiness(bs, m.phone).Some? && !kind.Inbound?
    ensures NamesFound(bs, StatusRequest(bs, m, kind, at, notBefore), m)
  {
    forall b ensures GetBusiness(bs, m.phone) == Some(b) <==> FoundUnder(bs, m.phone, b) { BusinessFound(bs, m.phone, b); }
    var b := GetBusiness(bs, m.phone).value;
    assert FoundUnder(bs, m.phone, b);
  }

  lemma StatusNamesMarked(reg: Reg, todo: seq<Message>, kind: JobKind, at: int, k: nat)
    requires RegOk(reg) && ReadyFor(reg, todo, kind) && k < |todo| && Registered(reg, todo[k].phone)
    ensures exists m :: m in Marked(reg, todo, kind, at).messages && NamesFound(reg.businesses, StatusRequest(reg.businesses, todo[k], kind, at, 0), m)
  {
    assert todo[k] in todo;
    var i :| 0 <= i < |reg.messages| && reg.messages[i] == todo[k];
    var n := Marked(reg, todo, kind, at).messages[i];
    assert n.wamid == todo[k].wamid && n.phone == todo[k].phone && n.customer == todo[k].customer;
    StatusNames(reg.businesses, n, kind, at, 0);
    assert StatusRequest(reg.businesses, todo[k], kind, at, 0).payload == StatusRequest(reg.businesses, n, kind, at, 0).payload;
  }

  ghost predicate NamesOne(bs: seq<Business>, r: Request, ms: seq<Message>) {
    exists m :: m in ms && NamesFound(bs, r, m)
  }

  lemma StatusesName(reg: Reg, todo: seq<Message>, kind: JobKind, status: Status, at: int)
    requires RegOk(reg) && ReadyFor(reg, todo, kind)
    ensures AllName(reg.businesses, StatusEffect(Marked(reg, todo, kind, at), todo, kind, status, at))
  {
    var e := StatusEffect(Marked(reg, todo, kind, at), todo, kind, status, at);
    LeadingSame(reg, Marked(reg, todo, kind, at), todo);
    forall k | 0 <= k < |e.requests| ensures NamesOne(reg.businesses, e.requests[k], e.reg.messages) { StatusNamesMarked(reg, todo, kind, at, k); }
  }

  lemma StoredNames(reg: Reg, d: Draft, r: Request)
    requires NamesFound(reg.businesses, r, MessageOf(reg, d))
    ensures NamesOne(reg.businesses, r, Stored(reg, d).messages)
  {
    assert MessageOf(reg, d) in Stored(reg, d).messages;
  }

  /** Everything the call asks for names the business found. */
  ghost predicate AllName(bs: seq<Business>, e: Effect) {
    forall k | 0 <= k < |e.requests| :: NamesOne(bs, e.requests[k], e.reg.messages)
  }

  lemma AcceptNames(reg: Reg, phone: string, customer: string, text: string, wamid: string, delay: nat, now: int)
    requires Registered(reg, phone)
    ensures AllName(reg.businesses, Accepted(reg, phone, customer, text, wamid, delay, now))
  {
    var d := Draft(wamid, ToCustomer, phone, customer, text, now);
    StatusNames(reg.businesses, MessageOf(reg, d), Sent, now, now + delay);
    StoredNames(reg, d, StatusRequest(reg.businesses, MessageOf(reg, d), Sent, now, now + delay));
  }

  lemma DeliverNames(reg: Reg, msgs: seq<Message>, now: int)
    requires RegOk(reg) && Copies(reg, msgs)
    ensures AllName(reg.businesses, DeliveredCall(reg, msgs, now))
  {
    TodoReady(reg, msgs);
    StatusesName(reg, DeliveredTodo(reg, msgs), Delivered, WasDelivered, now);
  }

  lemma ReadNames(reg: Reg, customer: string, peer: string, now: int)
    requires RegOk(reg)
    ensures AllName(reg.businesses, ReadCall(reg, customer, peer, now))
  {
    if GetBusiness(reg.businesses, peer).Some? {
      var phone := GetBusiness(reg.businesses, peer).value.phone;
      UnreadDeliveredIs(reg, customer, phone);
      StatusesName(reg, UnreadDelivered(reg, customer, phone), JobKind.Read, WasRead, now);
    }
  }

  lemma ReceiveNames(reg: Reg, sender: string, to: string, body: string, wamid: string, now: int)
    ensures AllName(reg.businesses, InboundCall(reg, sender, to, body, wamid, now))
  {
    var e := InboundCall(reg, sender, to, body, wamid, now);
    if e.requests != [] {
      StoredNames(reg, Draft(wamid, FromCustomer, GetBusiness(reg.businesses, to).value.phone, sender, body, now), e.requests[0]);
    }
  }

  /**
   Which phone number id a webhook names: an inbound one that of its message, a status that of the first business
   registered under the message's number as id or display number. So a status names its own message's id exactly if
   that business has it.
   */
  lemma NamesItsBusiness(s: System, c: Call)
    requires SysInv(s) && Allowed(s, c) && (c.Accept? || c.Deliver? || c.MarkRead? || c.Receive? || c.MarkInbound?)
    ensures AllName(s.reg.businesses, EffectOf(s, c))
  {
    match c
    case Accept(phone, customer, text, wamid, now) => AcceptNames(s.reg, phone, customer, text, wamid, s.delay, now);
    case Deliver(msgs, now) => DeliverNames(s.reg, msgs, now);
    case MarkRead(customer, peer, now) => ReadNames(s.reg, customer, peer, now);
    case Receive(sender, to, body, wamid, now) => ReceiveNames(s.reg, sender, to, body, wamid, now);
    case MarkInbound(_, _, _) =>
  }

  /** No business has a display number that is one of the ids messages are sent by. */
  predicate Distinguishes(c: Call, ids: set<string>) {
    && (c.Numbers? ==> forall b | b in c.businesses :: b.display !in ids)
    && (c.Accept? ==> c.phone in ids)
  }

  ghost predicate AllDistinguish(cs: seq<Call>, ids: set<string>) {
    forall i | 0 <= i < |cs| :: Distinguishes(cs[i], ids)
  }

  ghost predicate ByIds(reg: Reg, ids: set<string>) {
    && (forall b | b in reg.businesses :: b.display !in ids)
    && (forall m | m in reg.messages && m.dir.ToCustomer? :: m.phone in ids)
  }

  lemma ByIdsAreOwn(reg: Reg, c: Call, ids: set<string>)
    requires ByIds(reg, ids) && Distinguishes(c, ids)
    ensures OwnIds(reg, c)
  {}

  lemma CallByIds(s: System, c: Call, ids: set<string>)
    requires Allowed(s, c) && ByIds(s.reg, ids) && Distinguishes(c, ids)
    ensures ByIds(Done(s, c).reg, ids)
  {
    if !c.Wipe? {
      var ms, ns := s.reg.messages, Done(s, c).reg.messages;
      AddedById(s, c, ids);
      forall m | m in ns && m.dir.ToCustomer? ensures m.phone in ids {
        var i :| 0 <= i < |ns| && ns[i] == m;
        if i < |ms| {
          WrittenOnce(s, c, i);
          assert ms[i] in ms;
        }
      }
    }
  }

  lemma AddedById(s: System, c: Call, ids: set<string>)
    requires Allowed(s, c) && ByIds(s.reg, ids) && Distinguishes(c, ids) && !c.Wipe?
    ensures var ns := Done(s, c).reg.messages; forall i | |s.reg.messages| <= i < |ns| && ns[i].dir.ToCustomer? :: ns[i].phone in ids
    ensures forall b | b in Done(s, c).reg.businesses :: b.display !in ids
  {}

  lemma DistinguishRest(cs: seq<Call>, ids: set<string>)
    requires cs != [] && AllDistinguish(cs, ids)
    ensures Distinguishes(cs[0], ids) && AllDistinguish(cs[1..], ids)
  {}

  lemma {:induction false} RunTellsOwn(s: System, cs: seq<Call>, ids: set<string>)
    requires SysInv(s) && CanDo(s, cs) && PayloadsOk(s.reg.messages, s.dsp.rows.jobs, true)
    requires ByIds(s.reg, ids) && AllDistinguish(cs, ids)
    ensures SysInv(DoAll(s, cs)) && PayloadsOk(DoAll(s, cs).reg.messages, DoAll(s, cs).dsp.rows.jobs, true)
    decreases |cs|
  {
    if cs != [] {
      DistinguishRest(cs, ids);
      ByIdsAreOwn(s.reg, cs[0], ids);
      CallByIds(s, cs[0], ids);
      CallKeepsTelling(s, cs[0], true);
      RunTellsOwn(Done(s, cs[0]), cs[1..], ids);
    }
  }

  /** In every run in which no display number is an id that messages are sent by, a webhook also names its message's id. */
  lemma PayloadsNamePhone(cfg: D.Config, delay: nat, clock: int, cs: seq<Call>, ids: set<string>, k: nat)
    requires cfg.Ok() && CanDo(Boot(cfg, delay, clock), cs) && AllDistinguish(cs, ids)
    requires k < |DoAll(Boot(cfg, delay, clock), cs).dsp.rows.jobs|
    ensures var s := DoAll(Boot(cfg, delay, clock), cs);
            var j := s.dsp.rows.jobs[k];
            GetMessage(s.reg.messages, j.wamid).Some? && Tells(j.payload, j.kind, GetMessage(s.reg.messages, j.wamid).value, true)
  {
    BootInv(cfg, delay, clock);
    RunTellsOwn(Boot(cfg, delay, clock), cs, ids);
    RowMessage(DoAll(Boot(cfg, delay, clock), cs), k, true);
  }

  /** A run in which the display number of one business is the id of another: the webhook names the wrong one. */
  lemma StatusNamesOther() returns (s: System)
    ensures Reachable(s) && |s.dsp.rows.jobs| == 1
    ensures var j := s.dsp.rows.jobs[0];
            j.kind.Sent? && GetMessage(s.reg.messages, j.wamid).Some? && GetMessage(s.reg.messages, j.wamid).value.phone == "P" && j.payload.phone == "X"
  {
    var s0, c := Boot(D.Config([], 1), 0, 0), Accept("P", "C", "hi", "w", 1);
    assert CanDo(s0, []) && DoAll(s0, []) == s0;
    B.Next(s0, Numbers([Business("X", "P"), Business("P", "Y")], []));
    var s1 := Done(s0, Numbers([Business("X", "P"), Business("P", "Y")], []));
    assert GetBusiness(s1.reg.businesses, "P") == Some(Business("X", "P"));
    B.Next(s1, c);
    s := Done(s1, c);
    EnqueueAllRows(s1.dsp, EffectOf(s1, c).requests, 1);
  }
}
