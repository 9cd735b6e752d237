/**
 What a tab gets when it claims a group: for each tile the newest messages, the whole queue, and how many messages of
 each business are delivered but unread.
 */
module StoreGroups {
  import opened Prelude
  import opened Registry
  import opened Lifecycle
  import opened Conservation

  const SNAPSHOT_HISTORY_PER_TILE := 50

  datatype Bubble = Bubble(wamid: string, status: Status)
  datatype Tile = Tile(number: string, history: seq<Message>, queued: seq<Message>, unread: map<string, nat>)

  /** Times are positive, so a recorded time counts as true. */
  function StatusOf(m: Message): Status {
    if m.readAt.Some? then WasRead else if m.deliveredAt.Some? then WasDelivered else WasSent
  }

  function BubbleOf(m: Message): Bubble { Bubble(m.wamid, StatusOf(m)) }

  /** Older first; equal times by number. */
  predicate Older(a: Message, b: Message) {
    a.createdAt < b.createdAt || (a.createdAt == b.createdAt && a.no < b.no)
  }

  function InsertByAge(ms: seq<Message>, m: Message): (r: seq<Message>)
    ensures multiset(r) == multiset(ms) + multiset{m}
  {
    if ms == [] || !Older(m, ms[|ms| - 1]) then ms + [m]
    else
      assert ms == ms[..|ms| - 1] + [ms[|ms| - 1]];
      InsertByAge(ms[..|ms| - 1], m) + [ms[|ms| - 1]]
  }

  /** Everything said to or by a customer, oldest first. */
  function History(ms: seq<Message>, customer: string): seq<Message> {
    if ms == [] then [] else
      var m := ms[|ms| - 1];
      if m.customer == customer then InsertByAge(History(ms[..|ms| - 1], customer), m) else History(ms[..|ms| - 1], customer)
  }

  function NotIn(ms: seq<Message>, ids: seq<string>): seq<Message> {
    if ms == [] then [] else
      var m := ms[|ms| - 1];
      NotIn(ms[..|ms| - 1], ids) + if m.wamid in ids then [] else [m]
  }

  /** The history without the queue. */
  function Past(reg: Reg, customer: string): seq<Message> {
    NotIn(History(reg.messages, customer), Wamids(QueuedFor(reg, customer)))
  }

  function Newest(ms: seq<Message>, limit: nat): seq<Message> {
    if |ms| > limit then ms[|ms| - limit..] else ms
  }

  predicate IsUnread(m: Message) { m.dir.ToCustomer? && m.deliveredAt.Some? && m.readAt.None? }

  function CountUnread(ms: seq<Message>, sender: string): nat {
    if ms == [] then 0 else
      var m := ms[|ms| - 1];
      CountUnread(ms[..|ms| - 1], sender) + if IsUnread(m) && m.sender == sender then 1 else 0
  }

  function UnreadMap(ms: seq<Message>): map<string, nat> {
    map m | m in ms && IsUnread(m) :: m.sender := CountUnread(ms, m.sender)
  }

  function TileOf(reg: Reg, customer: string): Tile {
    var past := Past(reg, customer);
    Tile(customer, Newest(past, SNAPSHOT_HISTORY_PER_TILE), QueuedFor(reg, customer), UnreadMap(past))
  }

  /** The record holds the counts, and only positive ones. */
  ghost predicate Tallied(unread: map<string, nat>, ms: seq<Message>) {
    && (forall s | s in unread :: unread[s] == CountUnread(ms, s) > 0)
    && (forall s | s !in unread :: CountUnread(ms, s) == 0)
  }

  lemma TallyOne(unread: map<string, nat>, ms: seq<Message>, m: Message)
    requires Tallied(unread, ms)
    ensures Tallied(if IsUnread(m) then unread[m.sender := (if m.sender in unread then unread[m.sender] else 0) + 1] else unread, ms + [m])
  {
    assert (ms + [m])[..|ms|] == ms;
  }

  lemma {:induction false} CountsAreSenders(ms: seq<Message>, s: string)
    ensures CountUnread(ms, s) > 0 <==> exists m :: m in ms && IsUnread(m) && m.sender == s
  {
    if ms != [] {
      CountsAreSenders(ms[..|ms| - 1], s);
      assert ms == ms[..|ms| - 1] + [ms[|ms| - 1]];
    }
  }

  lemma TalliedIsMap(unread: map<string, nat>, ms: seq<Message>)
    requires Tallied(unread, ms)
    ensures unread == UnreadMap(ms)
  {
    forall s ensures s in unread <==> s in UnreadMap(ms) { CountsAreSenders(ms, s); }
  }

  /** The loop that fills the `unread` record of a tile. */
  method TallyUnread(past: seq<Message>) returns (unread: map<string, nat>)
    ensures unread == UnreadMap(past)
  {
    unread := map[];
    for i := 0 to |past|
      invariant Tallied(unread, past[..i])
    {
      var m := past[i];
      TallyOne(unread, past[..i], m);
      assert past[..i + 1] == past[..i] + [m];
      if IsUnread(m) {
        unread := unread[m.sender := (if m.sender in unread then unread[m.sender] else 0) + 1];
      }
    }
    assert past[..|past|] == past;
    TalliedIsMap(unread, past);
  }

  // ---- the history ----

  ghost predicate ByAge(ms: seq<Message>) {
    forall i, j | 0 <= i < j < |ms| :: !Older(ms[j], ms[i])
  }

  lemma {:induction false} InsertByAgeSorted(ms: seq<Message>, m: Message)
    requires ByAge(ms)
    ensures ByAge(InsertByAge(ms, m))
  {
    if !(ms == [] || !Older(m, ms[|ms| - 1])) {
      var init, last := ms[..|ms| - 1], ms[|ms| - 1];
      InsertByAgeSorted(init, m);
      var r := InsertByAge(init, m);
      assert ms == init + [last];
      forall i | 0 <= i < |r| ensures !Older(last, r[i]) {
        assert r[i] in multiset(r);
        if r[i] != m { assert r[i] in multiset(init); assert r[i] in init; }
      }
    }
  }

  function OfCustomer(ms: seq<Message>, customer: string): seq<Message> {
    if ms == [] then [] else
      var m := ms[|ms| - 1];
      OfCustomer(ms[..|ms| - 1], customer) + if m.customer == customer then [m] else []
  }

  lemma {:induction false} HistoryIs(ms: seq<Message>, customer: string)
    ensures ByAge(History(ms, customer)) && multiset(History(ms, customer)) == multiset(OfCustomer(ms, customer))
  {
    if ms != [] {
      HistoryIs(ms[..|ms| - 1], customer);
      InsertByAgeSorted(History(ms[..|ms| - 1], customer), ms[|ms| - 1]);
    }
  }

  lemma {:induction false} OfCustomerIn(ms: seq<Message>, customer: string)
    ensures forall m :: m in OfCustomer(ms, customer) <==> m in ms && m.customer == customer
  {
    if ms != [] {
      OfCustomerIn(ms[..|ms| - 1], customer);
      assert ms == ms[..|ms| - 1] + [ms[|ms| - 1]];
    }
  }

  lemma {:induction false} NotInIn(ms: seq<Message>, ids: seq<string>)
    ensures forall m :: m in NotIn(ms, ids) <==> m in ms && m.wamid !in ids
  {
    if ms != [] {
      NotInIn(ms[..|ms| - 1], ids);
      assert ms == ms[..|ms| - 1] + [ms[|ms| - 1]];
    }
  }

  lemma {:induction false} NotInByAge(ms: seq<Message>, ids: seq<string>)
    requires ByAge(ms)
    ensures ByAge(NotIn(ms, ids))
  {
    if ms != [] {
      var init, last := ms[..|ms| - 1], ms[|ms| - 1];
      NotInByAge(init, ids);
      NotInIn(init, ids);
      forall i | 0 <= i < |NotIn(init, ids)| ensures !Older(last, NotIn(init, ids)[i]) {
        var m := NotIn(init, ids)[i];
        assert m in init;
        var j :| 0 <= j < |init| && init[j] == m;
      }
    }
  }

  /** Reference: the customer's messages that are not in the queue, in store order. */
  function PastOf(ms: seq<Message>, customer: string): seq<Message> {
    if ms == [] then [] else
      var m := ms[|ms| - 1];
      PastOf(ms[..|ms| - 1], customer) + if m.customer == customer && !InQueue(m, customer) then [m] else []
  }

  /** Removing the ids of a sub-selection removes exactly that selection. */
  lemma {:induction false} NotInMultiset(ms: seq<Message>, ids: seq<string>, m: Message)
    ensures multiset(NotIn(ms, ids))[m] == if m.wamid in ids then 0 else multiset(ms)[m]
  {
    if ms != [] {
      NotInMultiset(ms[..|ms| - 1], ids, m);
      assert ms == ms[..|ms| - 1] + [ms[|ms| - 1]];
    }
  }

  lemma {:induction false} PastOfMultiset(ms: seq<Message>, customer: string, m: Message)
    ensures multiset(PastOf(ms, customer))[m] == if InQueue(m, customer) then 0 else multiset(OfCustomer(ms, customer))[m]
    ensures multiset(QueueOf(ms, customer))[m] == if InQueue(m, customer) then multiset(OfCustomer(ms, customer))[m] else 0
  {
    if ms != [] { PastOfMultiset(ms[..|ms| - 1], customer, m); }
  }

  lemma {:induction false} PastOfIn(ms: seq<Message>, customer: string)
    ensures forall m :: m in PastOf(ms, customer) <==> m in ms && m.customer == customer && !InQueue(m, customer)
  {
    if ms != [] {
      PastOfIn(ms[..|ms| - 1], customer);
      assert ms == ms[..|ms| - 1] + [ms[|ms| - 1]];
    }
  }

  lemma PastMultiset(reg: Reg, customer: string, m: Message)
    requires RegOk(reg)
    ensures multiset(Past(reg, customer))[m] == multiset(PastOf(reg.messages, customer))[m]
  {
    var all, q := OfCustomer(reg.messages, customer), QueuedFor(reg, customer);
    HistoryIs(reg.messages, customer);
    NotInMultiset(History(reg.messages, customer), Wamids(q), m);
    PastOfMultiset(reg.messages, customer, m);
    OfCustomerIn(reg.messages, customer);
    QueuedForIs(reg, customer);
    assert multiset(all)[m] > 0 <==> m in all;
    if m in all { InTodo(reg, q, m); }
  }

  /** Before truncation, the shown history and the queue partition the customer's messages. */
  lemma HistoryAndQueuePartition(reg: Reg, customer: string)
    requires RegOk(reg)
    ensures multiset(Past(reg, customer)) == multiset(PastOf(reg.messages, customer))
    ensures multiset(Past(reg, customer)) + multiset(QueuedFor(reg, customer)) == multiset(OfCustomer(reg.messages, customer))
    ensures ByAge(Past(reg, customer))
  {
    var past, ref, q, all := Past(reg, customer), PastOf(reg.messages, customer), QueueOf(reg.messages, customer), OfCustomer(reg.messages, customer);
    assert multiset(past) == multiset(ref) by {
      forall m ensures multiset(past)[m] == multiset(ref)[m] { PastMultiset(reg, customer, m); }
    }
    assert multiset(ref) + multiset(q) == multiset(all) by {
      forall m ensures multiset(ref)[m] + multiset(q)[m] == multiset(all)[m] { PastOfMultiset(reg.messages, customer, m); }
    }
    PastByAge(reg, customer);
  }

  lemma PastByAge(reg: Reg, customer: string)
    ensures ByAge(Past(reg, customer))
  {
    HistoryIs(reg.messages, customer);
    NotInByAge(History(reg.messages, customer), Wamids(QueuedFor(reg, customer)));
  }

  /** The snapshot shows the newest messages: at most 50, and nothing left out is newer than anything shown. */
  lemma SnapshotShowsNewest(reg: Reg, customer: string, i: nat, j: nat)
    requires RegOk(reg)
    ensures var past, t := Past(reg, customer), TileOf(reg, customer);
            && |t.history| == (if |past| <= 50 then |past| else 50)
            && t.history == past[|past| - |t.history|..]
            && (i < |past| - |t.history| && j < |t.history| ==> !Older(t.history[j], past[i]))
  {
    HistoryAndQueuePartition(reg, customer);
  }
}
