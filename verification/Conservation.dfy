/**
 Messages and webhooks match, one to one: each lifecycle call keeps it, or, when it throws half way, breaks it for
 exactly the messages whose business is gone.
 */
module Conservation {
  import opened Prelude
  import opened JobStore
  import opened Registry
  import opened Lifecycle

  /** The identity of a webhook row. */
  datatype Hook = Hook(id: nat, conv: nat, wamid: string, kind: JobKind)

  function HookOf(j: Job): Hook { Hook(j.id, j.conv, j.wamid, j.kind) }

  function Hooks(jobs: seq<Job>): (r: seq<Hook>)
    ensures |r| == |jobs| && forall i | 0 <= i < |jobs| :: r[i] == HookOf(jobs[i])
  {
    seq(|jobs|, i requires 0 <= i < |jobs| => HookOf(jobs[i]))
  }

  function Count(hs: seq<Hook>, wamid: string, kind: JobKind): nat {
    if hs == [] then 0 else
      var h := hs[|hs| - 1];
      Count(hs[..|hs| - 1], wamid, kind) + if h.wamid == wamid && h.kind == kind then 1 else 0
  }

  /** How many webhooks of each kind a message must have. */
  function Due(m: Message, kind: JobKind): nat {
    match kind
    case Sent => if m.dir.ToCustomer? then 1 else 0
    case Delivered => if m.dir.ToCustomer? && m.deliveredAt.Some? then 1 else 0
    case Read => if m.dir.ToCustomer? && m.readAt.Some? then 1 else 0
    case Inbound => if m.dir.FromCustomer? then 1 else 0
  }

  /** The webhook is of one of these messages, in its conversation. */
  ghost predicate HasMessage(ms: seq<Message>, h: Hook) {
    exists m :: m in ms && m.wamid == h.wamid && m.conv == h.conv
  }

  /** Exactly the due webhooks exist, and none for anything but a message, in its conversation. */
  ghost predicate Balanced(ms: seq<Message>, hs: seq<Hook>) {
    && (forall m, k | m in ms :: Count(hs, m.wamid, k) == Due(m, k))
    && (forall h | h in hs :: HasMessage(ms, h))
  }

  function Stage(kind: JobKind): nat {
    match kind case Inbound => 0 case Sent => 0 case Delivered => 1 case Read => 2
  }

  ghost predicate IdsAscend(hs: seq<Hook>) {
    forall i, j | 0 <= i < j < |hs| :: hs[i].id < hs[j].id
  }

  /** Webhooks of a message are asked for in the order of the lifecycle. */
  ghost predicate StagesAscend(hs: seq<Hook>) {
    forall i, j | 0 <= i < j < |hs| && hs[i].wamid == hs[j].wamid :: Stage(hs[i].kind) < Stage(hs[j].kind)
  }

  /** The sequence number of a message. */
  function NoOf(ms: seq<Message>, wamid: string): nat {
    match GetMessage(ms, wamid) case Some(m) => m.no case None => 0
  }

  predicate IsFirst(h: Hook) { Stage(h.kind) == 0 }

  /** The first webhooks of a conversation are asked for in the order of its messages. */
  ghost predicate FirstsInOrder(ms: seq<Message>, hs: seq<Hook>) {
    forall i, j | 0 <= i < j < |hs| && IsFirst(hs[i]) && IsFirst(hs[j]) && hs[i].conv == hs[j].conv ::
      NoOf(ms, hs[i].wamid) < NoOf(ms, hs[j].wamid)
  }

  ghost predicate Ordered(ms: seq<Message>, hs: seq<Hook>) {
    IdsAscend(hs) && StagesAscend(hs) && FirstsInOrder(ms, hs)
  }

  ghost predicate Conserved(reg: Reg, hs: seq<Hook>) {
    RegOk(reg) && Balanced(reg.messages, hs) && Ordered(reg.messages, hs)
  }

  /** The rows a call adds when it asks for `rs`, from id `next` on. */
  function Asked(rs: seq<Request>, next: nat): (r: seq<Hook>)
    ensures |r| == |rs| && forall i | 0 <= i < |rs| :: r[i] == Hook(next + i, rs[i].conv, rs[i].wamid, rs[i].kind)
  {
    seq(|rs|, i requires 0 <= i < |rs| => Hook(next + i, rs[i].conv, rs[i].wamid, rs[i].kind))
  }

  lemma {:induction false} CountSplit(hs: seq<Hook>, gs: seq<Hook>, wamid: string, kind: JobKind)
    ensures Count(hs + gs, wamid, kind) == Count(hs, wamid, kind) + Count(gs, wamid, kind)
  {
    if gs == [] {
      assert hs + gs == hs;
    } else {
      CountSplit(hs, gs[..|gs| - 1], wamid, kind);
      assert (hs + gs)[..|hs + gs| - 1] == hs + gs[..|gs| - 1];
    }
  }

  lemma {:induction false} CountNone(hs: seq<Hook>, wamid: string, kind: JobKind)
    requires forall h | h in hs :: h.wamid != wamid || h.kind != kind
    ensures Count(hs, wamid, kind) == 0
  {
    if hs != [] { CountNone(hs[..|hs| - 1], wamid, kind); }
  }

  lemma {:induction false} CountPositive(hs: seq<Hook>, i: nat)
    requires i < |hs|
    ensures Count(hs, hs[i].wamid, hs[i].kind) >= 1
  {
    if i < |hs| - 1 { CountPositive(hs[..|hs| - 1], i); }
  }

  lemma LastWamid(todo: seq<Message>, wamid: string)
    requires todo != [] && Unique(todo)
    ensures var n := |todo| - 1;
            && (wamid in Wamids(todo) <==> wamid in Wamids(todo[..n]) || wamid == todo[n].wamid)
            && todo[n].wamid !in Wamids(todo[..n])
  {
    var n := |todo| - 1;
    assert Wamids(todo) == Wamids(todo[..n]) + [todo[n].wamid];
    assert forall i | 0 <= i < n :: Wamids(todo[..n])[i] != todo[n].wamid;
  }

  /** One request per message of `todo`, all different: each of these messages is counted once. */
  lemma {:induction false} CountStatuses(bs: seq<Business>, todo: seq<Message>, kind: JobKind, at: int, next: nat, wamid: string, k: JobKind)
    requires Unique(todo)
    ensures Count(Asked(StatusRequests(bs, todo, kind, at), next), wamid, k)
         == if k == kind && wamid in Wamids(todo) then 1 else 0
  {
    if todo != [] {
      var n := |todo| - 1;
      var hs := Asked(StatusRequests(bs, todo, kind, at), next);
      CountStatuses(bs, todo[..n], kind, at, next, wamid, k);
      assert hs[..n] == Asked(StatusRequests(bs, todo[..n], kind, at), next);
      assert hs[n] == Hook(next + n, todo[n].conv, todo[n].wamid, kind);
      LastWamid(todo, wamid);
    }
  }

  // ---- storing a message with its first webhook ----

  lemma FirstWebhookBalanced(reg: Reg, hs: seq<Hook>, d: Draft, h: Hook)
    requires Conserved(reg, hs) && Fresh(reg, d.wamid)
    requires h.wamid == d.wamid && h.conv == MessageOf(reg, d).conv && h.kind == if d.dir.ToCustomer? then Sent else Inbound
    ensures Balanced(Stored(reg, d).messages, hs + [h])
  {
    var t, m := Stored(reg, d), MessageOf(reg, d);
    forall x, k | x in t.messages ensures Count(hs + [h], x.wamid, k) == Due(x, k) {
      CountSplit(hs, [h], x.wamid, k);
      if x in reg.messages {
      } else {
        assert x == m;
        forall g | g in hs ensures g.wamid != x.wamid {}
        CountNone(hs, x.wamid, k);
      }
      assert [h][..0] == [];
    }
    forall g | g in hs + [h] ensures exists x :: x in t.messages && x.wamid == g.wamid && x.conv == g.conv {
      if g in hs {
        var x :| x in reg.messages && x.wamid == g.wamid && x.conv == g.conv;
        assert x in t.messages;
      } else {
        assert m in t.messages;
      }
    }
  }

  lemma {:induction false} GetMessageAppend(ms: seq<Message>, m: Message, wamid: string)
    requires m.wamid != wamid
    ensures GetMessage(ms + [m], wamid) == GetMessage(ms, wamid)
  {
    if ms != [] {
      assert (ms + [m])[1..] == ms[1..] + [m];
      GetMessageAppend(ms[1..], m, wamid);
    }
  }

  lemma {:induction false} GetMessageNew(ms: seq<Message>, m: Message)
    requires forall x | x in ms :: x.wamid != m.wamid
    ensures GetMessage(ms + [m], m.wamid) == Some(m)
  {
    if ms != [] {
      assert (ms + [m])[1..] == ms[1..] + [m];
      GetMessageNew(ms[1..], m);
    }
  }

  /** Every webhook belongs to a stored message of its conversation, and no other message has that wamid. */
  lemma HookMessage(reg: Reg, hs: seq<Hook>, h: Hook)
    requires RegOk(reg) && Balanced(reg.messages, hs) && h in hs
    ensures GetMessage(reg.messages, h.wamid).Some? && GetMessage(reg.messages, h.wamid).value.conv == h.conv
  {
    var m :| m in reg.messages && m.wamid == h.wamid && m.conv == h.conv;
    SameWamid(reg, m, GetMessage(reg.messages, h.wamid).value);
  }

  lemma SameWamid(reg: Reg, x: Message, y: Message)
    requires Unique(reg.messages) && x in reg.messages && y in reg.messages && x.wamid == y.wamid
    ensures x == y
  {
    var i :| 0 <= i < |reg.messages| && reg.messages[i] == x;
    var j :| 0 <= j < |reg.messages| && reg.messages[j] == y;
  }

  /** A new message has the highest number of its conversation. */
  lemma NewestNo(reg: Reg, d: Draft, m: Message)
    requires RegOk(reg) && Fresh(reg, d.wamid) && m in reg.messages && m.conv == MessageOf(reg, d).conv
    ensures m.no < MessageOf(reg, d).no
  {
    StoredOk(reg, d);
    var t := Stored(reg, d);
    var p :| 0 <= p < |reg.messages| && reg.messages[p] == m;
    assert t.messages[p] == m && t.messages[|reg.messages|] == MessageOf(reg, d);
    ConvOrder(t, p, |reg.messages|);
  }

  lemma FirstWebhookInOrder(reg: Reg, hs: seq<Hook>, d: Draft, h: Hook)
    requires Conserved(reg, hs) && Fresh(reg, d.wamid) && h.wamid == d.wamid && h.conv == MessageOf(reg, d).conv
    ensures FirstsInOrder(Stored(reg, d).messages, hs + [h])
  {
    var t, m, gs := Stored(reg, d), MessageOf(reg, d), hs + [h];
    GetMessageNew(reg.messages, m);
    forall i | 0 <= i < |hs|
      ensures NoOf(t.messages, hs[i].wamid) == NoOf(reg.messages, hs[i].wamid)
      ensures hs[i].conv == h.conv ==> NoOf(t.messages, hs[i].wamid) < m.no
    {
      EarlierNo(reg, hs, d, i);
    }
  }

  /** The message of an earlier webhook keeps its number, below the new one of its conversation. */
  lemma EarlierNo(reg: Reg, hs: seq<Hook>, d: Draft, i: nat)
    requires Conserved(reg, hs) && Fresh(reg, d.wamid) && i < |hs|
    ensures NoOf(Stored(reg, d).messages, hs[i].wamid) == NoOf(reg.messages, hs[i].wamid)
    ensures hs[i].conv == MessageOf(reg, d).conv ==> NoOf(reg.messages, hs[i].wamid) < MessageOf(reg, d).no
  {
    assert hs[i] in hs;
    HookMessage(reg, hs, hs[i]);
    GetMessageAppend(reg.messages, MessageOf(reg, d), hs[i].wamid);
    if hs[i].conv == MessageOf(reg, d).conv { NewestNo(reg, d, GetMessage(reg.messages, hs[i].wamid).value); }
  }

  lemma HooksKnown(reg: Reg, hs: seq<Hook>, wamid: string)
    requires Balanced(reg.messages, hs) && Fresh(reg, wamid)
    ensures forall g | g in hs :: g.wamid != wamid
  {}

  lemma AppendOrdered(hs: seq<Hook>, h: Hook)
    requires IdsAscend(hs) && StagesAscend(hs)
    requires forall g | g in hs :: g.wamid != h.wamid && g.id < h.id
    ensures IdsAscend(hs + [h]) && StagesAscend(hs + [h])
  {
    forall i | 0 <= i < |hs| ensures hs[i].wamid != h.wamid && hs[i].id < h.id { assert hs[i] in hs; }
  }

  /** A message stored together with its first webhook keeps the balance and the order. */
  lemma FirstWebhook(reg: Reg, hs: seq<Hook>, d: Draft, h: Hook)
    requires Conserved(reg, hs) && Fresh(reg, d.wamid)
    requires h.wamid == d.wamid && h.conv == MessageOf(reg, d).conv && h.kind == if d.dir.ToCustomer? then Sent else Inbound
    requires forall g | g in hs :: g.id < h.id
    ensures Conserved(Stored(reg, d), hs + [h])
  {
    StoredOk(reg, d);
    FirstWebhookBalanced(reg, hs, d, h);
    HooksKnown(reg, hs, d.wamid);
    FirstWebhookInOrder(reg, hs, d, h);
    AppendOrdered(hs, h);
  }

  // ---- a status for each of several messages ----

  function Marked(reg: Reg, todo: seq<Message>, kind: JobKind, at: int): Reg {
    if kind.Delivered? then SetDelivered(reg, Wamids(todo), at) else SetRead(reg, Wamids(todo), at)
  }

  /** Stored messages that are ready for this status and do not have it yet. */
  ghost predicate ReadyFor(reg: Reg, todo: seq<Message>, kind: JobKind) {
    && (kind.Delivered? || kind.Read?)
    && (forall m | m in todo :: m in reg.messages && m.dir.ToCustomer?
          && if kind.Delivered? then m.deliveredAt.None? else m.deliveredAt.Some? && m.readAt.None?)
  }

  lemma InTodo(reg: Reg, todo: seq<Message>, x: Message)
    requires Unique(reg.messages) && x in reg.messages && forall m | m in todo :: m in reg.messages
    ensures x.wamid in Wamids(todo) <==> x in todo
  {
    if x.wamid in Wamids(todo) {
      var i :| 0 <= i < |todo| && Wamids(todo)[i] == x.wamid;
      SameWamid(reg, todo[i], x);
    }
    if x in todo {
      var i :| 0 <= i < |todo| && todo[i] == x;
      assert Wamids(todo)[i] == x.wamid;
    }
  }

  /** What marking does to one message. */
  lemma MarkedMessage(reg: Reg, todo: seq<Message>, kind: JobKind, at: int, i: nat, k: JobKind)
    requires RegOk(reg) && ReadyFor(reg, todo, kind) && i < |reg.messages|
    ensures var x, m := reg.messages[i], Marked(reg, todo, kind, at).messages[i];
            && Timeline(m) && m == x.(deliveredAt := m.deliveredAt, readAt := m.readAt)
            && Due(m, k) == Due(x, k) + (if k == kind && x.wamid in Wamids(todo) then 1 else 0)
            && (x.wamid in Wamids(todo) ==> Due(m, kind) == 1)
  {
    assert reg.messages[i] in reg.messages;
    InTodo(reg, todo, reg.messages[i]);
  }

  lemma MarkedOk(reg: Reg, todo: seq<Message>, kind: JobKind, at: int)
    requires RegOk(reg) && ReadyFor(reg, todo, kind)
    ensures RegOk(Marked(reg, todo, kind, at)) && SameButTimes(reg, Marked(reg, todo, kind, at))
  {
    var t := Marked(reg, todo, kind, at);
    forall i | 0 <= i < |reg.messages|
      ensures Timeline(t.messages[i]) && t.messages[i] == reg.messages[i].(deliveredAt := t.messages[i].deliveredAt, readAt := t.messages[i].readAt)
    {
      MarkedMessage(reg, todo, kind, at, i, kind);
    }
    TimesOk(reg, t);
  }

  lemma MarkedCount(reg: Reg, hs: seq<Hook>, todo: seq<Message>, kind: JobKind, at: int, next: nat, i: nat, k: JobKind)
    requires RegOk(reg) && Balanced(reg.messages, hs) && ReadyFor(reg, todo, kind) && Unique(todo) && i < |reg.messages|
    ensures var m := Marked(reg, todo, kind, at).messages[i];
            Count(hs + Asked(StatusRequests(reg.businesses, todo, kind, at), next), m.wamid, k) == Due(m, k)
  {
    var x := reg.messages[i];
    assert x in reg.messages;
    MarkedMessage(reg, todo, kind, at, i, k);
    CountSplit(hs, Asked(StatusRequests(reg.businesses, todo, kind, at), next), x.wamid, k);
    CountStatuses(reg.businesses, todo, kind, at, next, x.wamid, k);
  }

  lemma AskedKnown(reg: Reg, todo: seq<Message>, kind: JobKind, at: int, next: nat, h: Hook)
    requires h in Asked(StatusRequests(reg.businesses, todo, kind, at), next) && ReadyFor(reg, todo, kind)
    ensures exists x :: x in reg.messages && x.wamid == h.wamid && x.conv == h.conv
  {
    var gs := Asked(StatusRequests(reg.businesses, todo, kind, at), next);
    var i :| 0 <= i < |gs| && gs[i] == h;
    assert todo[i] in todo;
  }

  lemma StatusesBalanced(reg: Reg, hs: seq<Hook>, todo: seq<Message>, kind: JobKind, at: int, next: nat)
    requires RegOk(reg) && Balanced(reg.messages, hs) && ReadyFor(reg, todo, kind) && Unique(todo)
    ensures Balanced(Marked(reg, todo, kind, at).messages, hs + Asked(StatusRequests(reg.businesses, todo, kind, at), next))
  {
    var t, gs := Marked(reg, todo, kind, at), Asked(StatusRequests(reg.businesses, todo, kind, at), next);
    MarkedOk(reg, todo, kind, at);
    forall m, k | m in t.messages ensures Count(hs + gs, m.wamid, k) == Due(m, k) {
      var i :| 0 <= i < |t.messages| && t.messages[i] == m;
      MarkedCount(reg, hs, todo, kind, at, next, i, k);
    }
    forall h | h in hs + gs ensures HasMessage(t.messages, h) {
      if h in gs { AskedKnown(reg, todo, kind, at, next, h); }
      StillKnown(reg, t, h);
    }
  }

  /** The message of a webhook does not go away when only times change. */
  lemma StillKnown(reg: Reg, t: Reg, h: Hook)
    requires HasMessage(reg.messages, h) && SameButTimes(reg, t)
    ensures HasMessage(t.messages, h)
  {
    var x :| x in reg.messages && x.wamid == h.wamid && x.conv == h.conv;
    var i :| 0 <= i < |reg.messages| && reg.messages[i] == x;
    assert t.messages[i] in t.messages;
  }

  /** A webhook that exists for a message ready for a status is of an earlier stage. */
  lemma EarlierStage(reg: Reg, hs: seq<Hook>, todo: seq<Message>, kind: JobKind, i: nat, m: Message)
    requires RegOk(reg) && Balanced(reg.messages, hs) && ReadyFor(reg, todo, kind) && i < |hs| && m in todo && hs[i].wamid == m.wamid
    ensures Stage(hs[i].kind) < Stage(kind)
  {
    CountPositive(hs, i);
    assert Count(hs, m.wamid, hs[i].kind) == Due(m, hs[i].kind);
  }

  lemma StatusesStages(reg: Reg, hs: seq<Hook>, todo: seq<Message>, kind: JobKind, at: int, next: nat)
    requires Conserved(reg, hs) && ReadyFor(reg, todo, kind) && Unique(todo)
    ensures StagesAscend(hs + Asked(StatusRequests(reg.businesses, todo, kind, at), next))
  {
    var all := hs + Asked(StatusRequests(reg.businesses, todo, kind, at), next);
    forall i, j | 0 <= i < j < |all| && all[i].wamid == all[j].wamid ensures Stage(all[i].kind) < Stage(all[j].kind) {
      if j >= |hs| {
        var m := todo[j - |hs|];
        assert m in todo;
        assert i < |hs| by { assert i >= |hs| ==> todo[i - |hs|].wamid != m.wamid; }
        EarlierStage(reg, hs, todo, kind, i, m);
      }
    }
  }

  lemma AskedIds(hs: seq<Hook>, rs: seq<Request>, next: nat)
    requires IdsAscend(hs) && forall h | h in hs :: h.id < next
    ensures IdsAscend(hs + Asked(rs, next))
  {
    forall i | 0 <= i < |hs| ensures hs[i].id < next { assert hs[i] in hs; }
  }

  lemma {:induction false} GetMessageSame(ms: seq<Message>, ns: seq<Message>, wamid: string)
    requires |ms| == |ns| && forall i | 0 <= i < |ms| :: ns[i].wamid == ms[i].wamid && ns[i].no == ms[i].no
    ensures NoOf(ns, wamid) == NoOf(ms, wamid)
  {
    if ms != [] { GetMessageSame(ms[1..], ns[1..], wamid); }
  }

  lemma StatusesFirsts(reg: Reg, t: Reg, hs: seq<Hook>, gs: seq<Hook>)
    requires FirstsInOrder(reg.messages, hs) && SameButTimes(reg, t)
    requires forall g | g in gs :: !IsFirst(g)
    ensures FirstsInOrder(t.messages, hs + gs)
  {
    var all := hs + gs;
    forall a | 0 <= a < |gs| ensures !IsFirst(gs[a]) { assert gs[a] in gs; }
    forall i, j | 0 <= i < j < |all| && IsFirst(all[i]) && IsFirst(all[j]) && all[i].conv == all[j].conv
      ensures NoOf(t.messages, all[i].wamid) < NoOf(t.messages, all[j].wamid)
    {
      assert j < |hs|;
      GetMessageSame(reg.messages, t.messages, hs[i].wamid);
      GetMessageSame(reg.messages, t.messages, hs[j].wamid);
    }
  }

  lemma NoFirsts(bs: seq<Business>, todo: seq<Message>, kind: JobKind, at: int, next: nat)
    requires kind.Delivered? || kind.Read?
    ensures forall g | g in Asked(StatusRequests(bs, todo, kind, at), next) :: !IsFirst(g)
  {
    var gs := Asked(StatusRequests(bs, todo, kind, at), next);
    forall i | 0 <= i < |gs| ensures !IsFirst(gs[i]) {}
  }

  lemma Statuses(reg: Reg, hs: seq<Hook>, todo: seq<Message>, kind: JobKind, at: int, next: nat)
    requires Conserved(reg, hs) && ReadyFor(reg, todo, kind) && Unique(todo)
    requires forall h | h in hs :: h.id < next
    ensures Conserved(Marked(reg, todo, kind, at), hs + Asked(StatusRequests(reg.businesses, todo, kind, at), next))
  {
    MarkedOk(reg, todo, kind, at);
    var gs := Asked(StatusRequests(reg.businesses, todo, kind, at), next);
    StatusesBalanced(reg, hs, todo, kind, at, next);
    StatusesStages(reg, hs, todo, kind, at, next);
    AskedIds(hs, StatusRequests(reg.businesses, todo, kind, at), next);
    NoFirsts(reg.businesses, todo, kind, at, next);
    StatusesFirsts(reg, Marked(reg, todo, kind, at), hs, gs);
  }

  // ---- the calls ----

  /** `msgs` are earlier copies of stored messages: what never changes agrees. */
  ghost predicate Copies(reg: Reg, msgs: seq<Message>) {
    forall m, x | m in msgs && x in reg.messages && m.wamid == x.wamid :: m.dir == x.dir
  }

  lemma {:induction false} UndeliveredReady(reg: Reg, msgs: seq<Message>)
    requires Copies(reg, msgs)
    ensures ReadyFor(reg, Undelivered(reg, msgs), Delivered)
  {
    if msgs != [] { UndeliveredReady(reg, msgs[..|msgs| - 1]); }
  }

  /** A stored message is to be delivered exactly if it is outbound, not delivered yet, and among those given. */
  lemma {:induction false} UndeliveredIs(reg: Reg, msgs: seq<Message>, x: Message)
    requires RegOk(reg) && Copies(reg, msgs) && x in reg.messages
    ensures x in Undelivered(reg, msgs) <==> x.dir.ToCustomer? && x.deliveredAt.None? && exists m :: m in msgs && m.wamid == x.wamid
  {
    if msgs != [] {
      var n := |msgs| - 1;
      UndeliveredIs(reg, msgs[..n], x);
      assert msgs == msgs[..n] + [msgs[n]];
      if msgs[n].wamid == x.wamid {
        assert msgs[n] in msgs;
        SameWamid(reg, x, GetMessage(reg.messages, x.wamid).value);
      }
    }
  }

  lemma TodoReady(reg: Reg, msgs: seq<Message>)
    requires Copies(reg, msgs)
    ensures ReadyFor(reg, DeliveredTodo(reg, msgs), Delivered)
  {
    UndeliveredReady(reg, msgs);
    SortSame(Undelivered(reg, msgs));
  }

  lemma {:induction false} CountTwice(hs: seq<Hook>, i: nat, j: nat)
    requires i < j < |hs| && hs[i].wamid == hs[j].wamid && hs[i].kind == hs[j].kind
    ensures Count(hs, hs[i].wamid, hs[i].kind) >= 2
  {
    if j < |hs| - 1 { CountTwice(hs[..|hs| - 1], i, j); } else { CountPositive(hs[..|hs| - 1], i); }
  }

  /** Asking twice for the same message, or stopping before one, miscounts its webhooks. */
  lemma Miscounted(reg: Reg, todo: seq<Message>, at: int, next: nat) returns (w: nat)
    requires RegOk(reg) && ReadyFor(reg, todo, Delivered)
    requires Leading(reg, todo) < |todo| || !Unique(todo)
    ensures w < |todo| && Count(Asked(StatusRequests(reg.businesses, todo[..Leading(reg, todo)], Delivered, at), next), todo[w].wamid, Delivered) != 1
  {
    var n := Leading(reg, todo);
    var gs := Asked(StatusRequests(reg.businesses, todo[..n], Delivered, at), next);
    if n < |todo| {
      w := n;
      forall g | g in gs ensures g.wamid != todo[n].wamid {
        var i :| 0 <= i < |gs| && gs[i] == g;
        assert todo[i] in todo && todo[n] in todo;
        assert todo[i].phone != todo[n].phone;
        if todo[i].wamid == todo[n].wamid { SameWamid(reg, todo[i], todo[n]); }
      }
      CountNone(gs, todo[n].wamid, Delivered);
    } else {
      var i: nat, j: nat :| i < j < |todo| && todo[i].wamid == todo[j].wamid;
      w := i;
      assert gs[i].wamid == todo[i].wamid && gs[j].wamid == todo[i].wamid;
      CountTwice(gs, i, j);
    }
  }

  lemma Unbalanced(reg: Reg, hs: seq<Hook>, todo: seq<Message>, at: int, next: nat)
    requires RegOk(reg) && Balanced(reg.messages, hs) && ReadyFor(reg, todo, Delivered)
    requires Leading(reg, todo) < |todo| || !Unique(todo)
    ensures !Balanced(Marked(reg, todo, Delivered, at).messages, hs + Asked(StatusRequests(reg.businesses, todo[..Leading(reg, todo)], Delivered, at), next))
  {
    var t, gs := Marked(reg, todo, Delivered, at), Asked(StatusRequests(reg.businesses, todo[..Leading(reg, todo)], Delivered, at), next);
    var w := Miscounted(reg, todo, at, next);
    var x := todo[w];
    assert x in todo;
    var p :| 0 <= p < |reg.messages| && reg.messages[p] == x;
    MarkedMessage(reg, todo, Delivered, at, p, Delivered);
    InTodo(reg, todo, x);
    CountSplit(hs, gs, x.wamid, Delivered);
    assert Count(hs, x.wamid, Delivered) == Due(x, Delivered) == 0;
    assert t.messages[p] in t.messages;
  }

  lemma LeadingSame(r: Reg, t: Reg, todo: seq<Message>)
    requires t.businesses == r.businesses
    ensures Leading(t, todo) == Leading(r, todo)
  {}

  /**
   `delivered` keeps messages and webhooks matched exactly when no message is handed to it twice and every business
   concerned is still registered. Otherwise the timestamps are written before the loop throws, and some message is
   marked delivered without its webhook.
   */
  lemma DeliveredConserves(reg: Reg, hs: seq<Hook>, msgs: seq<Message>, now: int, next: nat)
    requires Conserved(reg, hs) && Copies(reg, msgs)
    requires forall h | h in hs :: h.id < next
    ensures var e := DeliveredCall(reg, msgs, now);
            var todo := DeliveredTodo(reg, msgs);
            Conserved(e.reg, hs + Asked(e.requests, next)) <==> Unique(todo) && (forall m | m in todo :: Registered(reg, m.phone))
  {
    var e, todo := DeliveredCall(reg, msgs, now), DeliveredTodo(reg, msgs);
    var n := Leading(reg, todo);
    TodoReady(reg, msgs);
    if todo == [] {
      assert hs + Asked([], next) == hs;
    } else {
      LeadingSame(reg, SetDelivered(reg, Wamids(todo), now), todo);
      if n == |todo| && Unique(todo) {
        assert todo[..n] == todo;
        Statuses(reg, hs, todo, Delivered, now, next);
      } else {
        Unbalanced(reg, hs, todo, now, next);
        assert n < |todo| ==> todo[n] in todo;
      }
    }
  }

  /** `read` never throws half way: all its messages belong to the one business it looked up. */
  lemma ReadConserves(reg: Reg, hs: seq<Hook>, customer: string, peer: string, now: int, next: nat)
    requires Conserved(reg, hs)
    requires forall h | h in hs :: h.id < next
    ensures var e := ReadCall(reg, customer, peer, now);
            && Conserved(e.reg, hs + Asked(e.requests, next))
            && (e.error.Some? <==> GetBusiness(reg.businesses, peer).None?)
  {
    assert hs + Asked([], next) == hs;
    match GetBusiness(reg.businesses, peer)
    case None =>
    case Some(b) =>
      if UnreadDelivered(reg, customer, b.phone) != [] { ReadStatuses(reg, hs, customer, b, now, next); }
  }

  lemma ReadStatuses(reg: Reg, hs: seq<Hook>, customer: string, b: Business, now: int, next: nat)
    requires Conserved(reg, hs) && b in reg.businesses
    requires forall h | h in hs :: h.id < next
    ensures var todo := UnreadDelivered(reg, customer, b.phone);
            var e := StatusEffect(SetRead(reg, Wamids(todo), now), todo, JobKind.Read, WasRead, now);
            Conserved(e.reg, hs + Asked(e.requests, next)) && e.error.None?
  {
    var todo := UnreadDelivered(reg, customer, b.phone);
    var t := SetRead(reg, Wamids(todo), now);
    UnreadDeliveredIs(reg, customer, b.phone);
    forall i | 0 <= i < |todo| ensures Registered(t, todo[i].phone) { assert todo[i] in todo; }
    assert Leading(t, todo) == |todo| && todo[..|todo|] == todo;
    assert ReadyFor(reg, todo, JobKind.Read);
    Statuses(reg, hs, todo, JobKind.Read, now, next);
  }

  /** A send: one message, one `sent` webhook, if the business is registered. */
  lemma AcceptedConserves(reg: Reg, hs: seq<Hook>, phone: string, customer: string, text: string, wamid: string, delay: nat, now: int, next: nat)
    requires Conserved(reg, hs) && Fresh(reg, wamid)
    requires forall h | h in hs :: h.id < next
    ensures var e := Accepted(reg, phone, customer, text, wamid, delay, now);
            Conserved(e.reg, hs + Asked(e.requests, next)) <==> Registered(reg, phone)
  {
    var d := Draft(wamid, ToCustomer, phone, customer, text, now);
    var e, m := Accepted(reg, phone, customer, text, wamid, delay, now), MessageOf(reg, d);
    if Registered(reg, phone) {
      FirstWebhook(reg, hs, d, Hook(next, m.conv, wamid, Sent));
      assert Asked(e.requests, next) == [Hook(next, m.conv, wamid, Sent)];
    } else {
      assert hs + Asked([], next) == hs;
      HooksKnown(reg, hs, wamid);
      CountNone(hs, wamid, Sent);
      assert m in e.reg.messages && Due(m, Sent) == 1;
    }
  }

  lemma InboundConserves(reg: Reg, hs: seq<Hook>, sender: string, to: string, body: string, wamid: string, now: int, next: nat)
    requires Conserved(reg, hs) && Fresh(reg, wamid)
    requires forall h | h in hs :: h.id < next
    ensures var e := InboundCall(reg, sender, to, body, wamid, now);
            && Conserved(e.reg, hs + Asked(e.requests, next))
            && (e.error.Some? ==> e.reg == reg && e.requests == [])
  {
    var e := InboundCall(reg, sender, to, body, wamid, now);
    assert hs + Asked([], next) == hs;
    if e.error.None? {
      var c, b := GetCustomer(reg.customers, sender).value, GetBusiness(reg.businesses, to).value;
      var d := Draft(wamid, FromCustomer, b.phone, c.number, body, now);
      var m := MessageOf(reg, d);
      FirstWebhook(reg, hs, d, Hook(next, m.conv, wamid, JobKind.Inbound));
      assert Asked(e.requests, next) == [Hook(next, m.conv, wamid, JobKind.Inbound)];
    }
  }

  /** Marking a customer's message read asks for no webhook and owes none. */
  lemma MarkInboundReadConserves(reg: Reg, hs: seq<Hook>, phone: string, wamid: string, now: int)
    requires Conserved(reg, hs)
    ensures Conserved(MarkInboundRead(reg, phone, wamid, now).reg, hs) && MarkInboundRead(reg, phone, wamid, now).requests == []
  {
    var t := MarkInboundRead(reg, phone, wamid, now).reg;
    if t != reg {
      forall i | 0 <= i < |reg.messages|
        ensures Timeline(t.messages[i]) && t.messages[i] == reg.messages[i].(readAt := t.messages[i].readAt)
        ensures forall k :: Due(t.messages[i], k) == Due(reg.messages[i], k)
      {
        var x := reg.messages[i];
        assert x in reg.messages;
        if x.wamid == wamid { SameWamid(reg, x, GetMessage(reg.messages, wamid).value); }
      }
      TimesOk(reg, t);
      SameDuesConserve(reg, t, hs);
    }
  }

  lemma SameDuesConserve(reg: Reg, t: Reg, hs: seq<Hook>)
    requires Conserved(reg, hs) && SameButTimes(reg, t) && RegOk(t)
    requires forall i, k | 0 <= i < |reg.messages| :: Due(t.messages[i], k) == Due(reg.messages[i], k)
    ensures Conserved(t, hs)
  {
    forall m, k | m in t.messages ensures Count(hs, m.wamid, k) == Due(m, k) {
      var i :| 0 <= i < |t.messages| && t.messages[i] == m;
      assert reg.messages[i] in reg.messages;
    }
    forall h | h in hs ensures HasMessage(t.messages, h) { StillKnown(reg, t, h); }
    assert hs + [] == hs;
    StatusesFirsts(reg, t, hs, []);
  }

  lemma WipeConserves(reg: Reg, keepNumbers: bool)
    ensures Conserved(WipedReg(reg, keepNumbers), [])
  {}

  /** A message accepted before its business was deleted, with its `sent` webhook. */
  function Orphan(): (Reg, seq<Hook>) {
    (Reg([], [], [Message("w", 1, 1, ToCustomer, "B", "C", "B", "C", "hi", 1, Some(1), None, None)], map[("B", "C") := Conv(1, 2)], 2),
     [Hook(1, 1, "w", Sent)])
  }

  /** Delivering it throws after the time is written: delivered, and no `delivered` webhook will ever say so. */
  lemma DeletedBusinessLosesWebhook()
    ensures var (reg, hs) := Orphan();
            var e := DeliveredCall(reg, reg.messages, 5);
            && Conserved(reg, hs)
            && e.reg.messages[0].deliveredAt == Some(5) && e.error == Some(UnknownBusiness) && e.requests == []
            && !Conserved(e.reg, hs)
  {
    var (reg, hs) := Orphan();
    OrphanConserved();
    OrphanThrows();
    DeliveredConserves(reg, hs, reg.messages, 5, 2);
    assert reg.messages[0] in DeliveredTodo(reg, reg.messages) && !Registered(reg, reg.messages[0].phone);
    assert hs + Asked([], 2) == hs;
  }

  lemma ThrowsAtOnce(reg: Reg, todo: seq<Message>, kind: JobKind, status: Status, at: int)
    requires todo != [] && !Registered(reg, todo[0].phone)
    ensures StatusEffect(reg, todo, kind, status, at) == Effect(reg, [], [], Some(UnknownBusiness))
  {
    assert Leading(reg, todo) == 0 && todo[..0] == [];
    assert StatusRequests(reg.businesses, [], kind, at) == [] && Announcements([], status, at) == [];
  }

  lemma OneUndelivered(reg: Reg, m: Message)
    requires m.dir.ToCustomer? && m.deliveredAt.None? && GetMessage(reg.messages, m.wamid) == Some(m)
    ensures DeliveredTodo(reg, [m]) == [m]
  {
    assert [m][..0] == [] && Undelivered(reg, []) == [];
    SortOne(m);
  }

  lemma OrphanThrows()
    ensures var reg := Orphan().0;
            && DeliveredTodo(reg, reg.messages) == reg.messages
            && DeliveredCall(reg, reg.messages, 5) == Effect(SetDelivered(reg, Wamids(reg.messages), 5), [], [], Some(UnknownBusiness))
  {
    var reg := Orphan().0;
    var m := reg.messages[0];
    assert reg.messages == [m];
    OneUndelivered(reg, m);
    ThrowsAtOnce(SetDelivered(reg, Wamids([m]), 5), [m], Delivered, WasDelivered, 5);
  }

  lemma SortOne(m: Message)
    ensures SortByNo([m]) == [m]
  {
    assert [m][..0] == [];
    assert SortByNo([]) == [];
  }

  lemma OrphanConserved()
    ensures Conserved(Orphan().0, Orphan().1)
  {
    var (reg, hs) := Orphan();
    var m := reg.messages[0];
    assert reg.messages[..0] == [] && OfConv(reg.messages, 1) == [m];
    assert Numbered(reg, ("B", "C"));
    assert hs[..0] == [];
    forall x, k | x in reg.messages ensures Count(hs, x.wamid, k) == Due(x, k) { assert x == m; }
    assert m in reg.messages && m.wamid == hs[0].wamid;
  }
}
