/** What requests from outside do to the tables: sends, reads and injected messages, and the control API. */
module LiveRequests {
  import opened Prelude
  import opened Registry
  import opened Lifecycle
  import opened Conservation
  import opened StoreGroups
  import opened Sessions
  import opened Live
  import opened LiveNet
  import opened LiveQueue
  import opened MessageFields
  import opened LiveGuards
  import LiveRuns

  // ---- Comdove ----

  /** A send is stored as it was made, and its copy waits for its response to finish. */
  lemma SendStores(l: Live, phone: string, customer: string, text: string, wamid: string, delay: nat, now: int)
    requires LiveEnabled(l, Talking(HttpSend(phone, customer, text, wamid, delay, now)))
    ensures var t, d := LiveApply(l, Talking(HttpSend(phone, customer, text, wamid, delay, now))), Draft(wamid, ToCustomer, phone, customer, text, now);
            && Grew(l.reg, t.reg, d)
            && wamid in t.pending && t.pending == l.pending[wamid := t.pending[wamid]] && Says(t.pending[wamid], l.reg.businesses, d)
  {
    var d := Draft(wamid, ToCustomer, phone, customer, text, now);
    StoredGrows(l.reg, d);
    AcceptReg(l, phone, customer, text, wamid, delay, now);
    StoredSays(l.reg, d);
    HappenedTalk(l.(pending := l.pending[wamid := MessageOf(l.reg, d)]), Accepted(l.reg, phone, customer, text, wamid, delay, now));
  }

  lemma StoredSays(reg: Reg, d: Draft)
    ensures Says(MessageOf(reg, d), reg.businesses, d)
  {
    DisplayIsName(reg, d.phone);
  }

  /** Comdove marks a customer's message read: exactly that one, of that business, and once. */
  lemma ReadMarksOne(l: Live, phone: string, wamid: string, now: int, i: nat)
    requires LiveRuns.LiveReachable(l) && i < |l.reg.messages|
    ensures ReadOne(l.reg, LiveApply(l, Talking(HttpRead(phone, wamid, now))).reg, phone, wamid, now, i)
  {
    InOrder(l);
    HttpReadReg(l, phone, wamid, now);
    MarkedReadOne(l.reg, phone, wamid, now, i);
  }

  lemma HttpReadReg(l: Live, phone: string, wamid: string, now: int)
    ensures LiveApply(l, Talking(HttpRead(phone, wamid, now))).reg == MarkInboundRead(l.reg, phone, wamid, now).reg
  {
    HappenedTalk(l, MarkInboundRead(l.reg, phone, wamid, now));
  }

  /** The message at this place is read now if it is that customer's message to that business, and was not read before. */
  ghost predicate ReadOne(reg: Reg, t: Reg, phone: string, wamid: string, now: int, i: nat)
    requires i < |reg.messages|
  {
    var m := reg.messages[i];
    && t == reg.(messages := t.messages) && |t.messages| == |reg.messages|
    && t.messages[i] == if m.wamid == wamid && m.phone == phone && m.dir.FromCustomer? && m.readAt.None? then m.(readAt := Some(now)) else m
  }

  lemma MarkedReadOne(reg: Reg, phone: string, wamid: string, now: int, i: nat)
    requires RegOk(reg) && i < |reg.messages|
    ensures ReadOne(reg, MarkInboundRead(reg, phone, wamid, now).reg, phone, wamid, now, i)
  {
    var m := reg.messages[i];
    assert m in reg.messages;
    if m.wamid == wamid { SameWamid(reg, m, GetMessage(reg.messages, wamid).value); }
  }

  /** An injected message is stored as it was given, whether or not its tile is shown; an unfit one changes nothing. */
  lemma InjectStores(l: Live, sender: string, to: string, body: string, wamid: string, now: int)
    ensures var t := LiveApply(l, Talking(Inject(sender, to, body, wamid, now)));
            TakenIn(l.reg, t.reg, sender, to, body, wamid, now)
  {
    InjectReg(l, sender, to, body, wamid, now);
    InboundGrows(l, sender, to, body, wamid, now);
  }

  lemma InjectReg(l: Live, sender: string, to: string, body: string, wamid: string, now: int)
    ensures LiveApply(l, Talking(Inject(sender, to, body, wamid, now))).reg == Happened(l, InboundCall(l.reg, sender, to, body, wamid, now)).reg
  {}

  /** The control API moves the switch of exactly this customer, whoever shows it, and delivers only to it. */
  lemma SwitchIsSet(l: Live, number: string, online: bool, now: int)
    requires LiveRuns.LiveReachable(l)
    ensures Switched(l.reg, LiveApply(l, Switching(ApiPresence(number, online, now))).reg, number, online)
  {
    InOrder(l);
    if GetCustomer(l.reg.customers, number).Some? { PresenceSwitches(l, number, online, now); }
  }

  /** The control API sets the reply mode of exactly this customer. */
  lemma ModeIsSet(l: Live, number: string, mode: ReplyMode)
    ensures Moded(l.reg, LiveApply(l, Switching(ApiAutoReply(number, mode))).reg, number, mode)
  {
    ApiModeReg(l, number, mode);
    ModeModes(l, number, mode);
    NobodyModed(l.reg, number, mode);
  }

  lemma ApiModeReg(l: Live, number: string, mode: ReplyMode)
    ensures LiveApply(l, Switching(ApiAutoReply(number, mode))).reg
         == if GetCustomer(l.reg.customers, number).Some? then SetAutoReply(l, number, mode).reg else l.reg
  {}

  lemma NobodyModed(reg: Reg, number: string, mode: ReplyMode)
    ensures GetCustomer(reg.customers, number).None? ==> Moded(reg, reg, number, mode)
  {}

  // ---- the tables ----

  /** Registering businesses changes nothing else. */
  lemma BusinessesAre(l: Live, bs: seq<Business>)
    ensures var t := LiveApply(l, Arranging(ApiBusinesses(bs))); t.reg == l.reg.(businesses := bs) && t.groups == l.groups && t.net == l.net
  {}

  /** A new group comes last, with one customer per number, switched on and answered by hand; nothing else changes. */
  lemma GroupIsCreated(l: Live, g: string, numbers: seq<string>)
    ensures var t, n := LiveApply(l, Arranging(ApiCreateGroup(g, numbers))), |l.reg.customers|;
            && t.groups == l.groups + [g] && t.net == l.net && t.reg == l.reg.(customers := t.reg.customers)
            && |t.reg.customers| == n + |numbers| && t.reg.customers[..n] == l.reg.customers
            && forall i | 0 <= i < |numbers| :: t.reg.customers[n + i] == Customer(numbers[i], g, true, Manual)
  {}

  ghost predicate GoneWithCustomers(l: Live, t: Live, g: string) {
    && t.net == l.net && t.reg == l.reg.(customers := t.reg.customers)
    && (forall h :: h in t.groups <==> h in l.groups && h != g)
    && (forall c :: c in t.reg.customers <==> c in l.reg.customers && c.group != g)
    && CustomersOnce(t.reg.customers)
  }

  /** A group nobody holds is deleted with exactly its customers; a held or unknown one stays as it is. */
  lemma GroupIsDeleted(l: Live, g: string)
    requires LiveRuns.LiveReachable(l)
    ensures var t := LiveApply(l, Arranging(ApiDeleteGroup(g)));
            if g in l.groups && forall sid: nat :: !Holds(l.net, sid, g) then GoneWithCustomers(l, t, g) else t == l
  {
    InOrder(l);
    FreeIsUnlocked(l.net, g);
    WithoutStringKeeps(l.groups, g);
    WithoutGroupIs(l.reg.customers, g);
  }

  lemma {:induction false} RefreshKeeps(l: Live, holders: seq<(string, nat)>)
    requires forall i | 0 <= i < |holders| :: holders[i].0 in l.groups
    ensures var t := RefreshAll(l, holders, true); t.net == l.net && t.groups == l.groups
  {
    if holders != [] {
      var n := |holders| - 1;
      RefreshKeeps(l, holders[..n]);
      SnapshotTalk(RefreshAll(l, holders[..n], true), holders[n].1, holders[n].0);
    }
  }

  lemma HoldersExist(l: Live, holders: seq<(string, nat)>)
    requires NetOk(l) && Enumerates(l, holders)
    ensures forall i | 0 <= i < |holders| :: holders[i].0 in l.groups
  {
    LockedIsIndexed(l.net);
    forall i | 0 <= i < |holders| ensures holders[i].0 in l.groups { assert holders[i].0 in l.net.index; }
  }

  lemma WipeSessions(l: Live, keep: bool, holders: seq<(string, nat)>)
    requires NetOk(l) && Enumerates(l, holders)
    ensures var t := WipeAll(l, keep, holders); keep ==> t.net == l.net && t.groups == l.groups
  {
    if keep {
      var l1 := l.(reg := WipedReg(l.reg, true));
      ResetFeedNet(l1);
      HoldersExist(l, holders);
      RefreshKeeps(ResetFeed(l1), holders);
    }
  }

  lemma NobodyHolds(n: Net, sid: nat, g: string)
    requires Agreement(n) && n.locks == map[]
    ensures !Holds(n, sid, g)
  {
    assert !Owns(n, sid, g);
  }

  lemma WipedTables(l: Live, holders: seq<(string, nat)>)
    requires NetOk(l) && Enumerates(l, holders)
    ensures WipeAll(l, false, holders).groups == []
    ensures forall sid: nat, g :: !Holds(WipeAll(l, false, holders).net, sid, g)
  {
    WipeFreesAll(l, holders);
    var l1 := l.(reg := WipedReg(l.reg, false), groups := []);
    ResetFeedNet(l1);
    HoldersKnown(l, holders);
    RefreshNet(ResetFeed(l1), holders, false);
    forall sid: nat, g ensures !Holds(WipeAll(l, false, holders).net, sid, g) { NobodyHolds(WipeAll(l, false, holders).net, sid, g); }
  }

  // ---- what a reset does to the tabs ----

  lemma TileEmpty(reg: Reg, number: string)
    requires reg.messages == []
    ensures TileBubbles(reg, number) == []
  {
    assert QueuedFor(reg, number) == [] && Past(reg, number) == [];
  }

  lemma {:induction false} SnapshotEmpty(reg: Reg, tiles: seq<string>)
    requires reg.messages == []
    ensures SnapshotOf(reg, tiles) == []
  {
    if tiles != [] {
      SnapshotEmpty(reg, tiles[..|tiles| - 1]);
      TileEmpty(reg, tiles[|tiles| - 1]);
    }
  }

  /** A holder's tab is empty or its socket shut, and nothing else is touched. */
  ghost predicate Refreshed(l: Live, t: Live, sid: nat) {
    (Open(t, sid) ==> Open(l, sid) && View(Tab(t, sid)) == map[])
  }

  ghost predicate OthersKept(l: Live, t: Live, sid: nat) {
    forall tid: nat | tid != sid :: Tab(t, tid) == Tab(l, tid) && Open(t, tid) == Open(l, tid)
  }

  lemma SnapshotClears(l: Live, sid: nat, g: string)
    requires l.reg.messages == []
    ensures var t := SendSnapshot(l, sid, g); Refreshed(l, t, sid) && OthersKept(l, t, sid) && Open(t, sid) == Open(l, sid)
  {
    SnapshotEmpty(l.reg, TilesOf(l.reg.customers, g));
    ViewAppend(Tab(l, sid), GroupClaimed([]));
  }

  lemma DisconnectShuts(l: Live, sid: nat)
    requires sid in l.net.sessions
    ensures var t := DisconnectSession(l, sid); !Open(t, sid) && OthersKept(l, t, sid) && t.tabs == l.tabs
  {
    DisconnectNet(l, sid);
  }

  lemma RefreshOneClears(l: Live, g: string, sid: nat, keep: bool)
    requires l.reg.messages == [] && sid in l.net.sessions
    ensures var t := RefreshOne(l, g, sid, keep);
            Refreshed(l, t, sid) && OthersKept(l, t, sid) && (Open(t, sid) <==> Open(l, sid) && keep && g in l.groups)
  {
    if keep && g in l.groups { SnapshotClears(l, sid, g); } else { DisconnectShuts(SendTab(l, sid, Other), sid); }
  }

  /** Every holder so far was refreshed or ended. */
  ghost predicate AllRefreshed(l: Live, t: Live, holders: seq<(string, nat)>, keep: bool) {
    forall i | 0 <= i < |holders| ::
      && (Open(t, holders[i].1) ==> View(Tab(t, holders[i].1)) == map[] && keep)
      && (keep && Open(l, holders[i].1) ==> Open(t, holders[i].1))
  }

  lemma {:induction false} RefreshClears(l: Live, holders: seq<(string, nat)>, keep: bool)
    requires NetOkBut(l) && l.reg.messages == []
    requires forall i | 0 <= i < |holders| :: holders[i].1 in l.net.sessions && (keep ==> holders[i].0 in l.groups)
    ensures AllRefreshed(l, RefreshAll(l, holders, keep), holders, keep)
    ensures keep ==> forall sid: nat :: Open(RefreshAll(l, holders, keep), sid) == Open(l, sid)
  {
    if holders != [] {
      var n := |holders| - 1;
      var t := RefreshAll(l, holders[..n], keep);
      RefreshClears(l, holders[..n], keep);
      RefreshNet(l, holders[..n], keep);
      RefreshReg(l, holders[..n], keep);
      RefreshOneClears(t, holders[n].0, holders[n].1, keep);
      LastRefreshed(l, t, RefreshAll(l, holders, keep), holders, keep);
    }
  }

  lemma LastRefreshed(l: Live, t: Live, u: Live, holders: seq<(string, nat)>, keep: bool)
    requires holders != [] && AllRefreshed(l, t, holders[..|holders| - 1], keep)
    requires var sid := holders[|holders| - 1].1; Refreshed(t, u, sid) && OthersKept(t, u, sid) && (Open(u, sid) <==> Open(t, sid) && keep)
    requires keep ==> forall sid: nat :: Open(t, sid) == Open(l, sid)
    ensures AllRefreshed(l, u, holders, keep)
  {
    forall i | 0 <= i < |holders|
      ensures (Open(u, holders[i].1) ==> View(Tab(u, holders[i].1)) == map[] && keep)
           && (keep && Open(l, holders[i].1) ==> Open(u, holders[i].1))
    {
      if i < |holders| - 1 { assert holders[..|holders| - 1][i] == holders[i]; }
    }
  }

  lemma WipeTabs(l: Live, keep: bool, holders: seq<(string, nat)>)
    requires NetOk(l) && Enumerates(l, holders)
    ensures AllRefreshed(l, WipeAll(l, keep, holders), holders, keep)
  {
    var l1 := l.(reg := WipedReg(l.reg, keep), groups := if keep then l.groups else []);
    ResetFeedNet(l1);
    HoldersKnown(l, holders);
    HoldersExist(l, holders);
    RefreshClears(ResetFeed(l1), holders, keep);
  }

  /** A reset empties the tab of every holder whose group stays, and shuts the socket of every other. */
  lemma ResetClearsTabs(l: Live, keep: bool, holders: seq<(string, nat)>, sid: nat, g: string)
    requires LiveRuns.LiveReachable(l) && LiveEnabled(l, Arranging(ApiReset(keep, holders))) && Holds(l.net, sid, g)
    ensures var t := LiveApply(l, Arranging(ApiReset(keep, holders)));
            if keep then Open(l, sid) ==> Open(t, sid) && View(Tab(t, sid)) == map[] else !Open(t, sid)
  {
    LiveRuns.ReachableInv(l);
    WipeTabs(l, keep, holders);
    OwnersHold(l, holders, sid, g);
    assert Owns(l.net, sid, g);
  }

  /**
   A reset deletes every message and conversation. With the numbers kept, businesses, customers, groups and their
   holders stay; otherwise nothing is left of them and nobody holds anything.
   */
  lemma ResetWipes(l: Live, keep: bool, holders: seq<(string, nat)>)
    requires LiveRuns.LiveReachable(l) && LiveEnabled(l, Arranging(ApiReset(keep, holders)))
    ensures var t := LiveApply(l, Arranging(ApiReset(keep, holders)));
            && t.reg.messages == [] && t.reg.convs == map[] && t.pending == l.pending
            && (keep ==> t.reg.businesses == l.reg.businesses && t.reg.customers == l.reg.customers && t.groups == l.groups && t.net == l.net)
            && (!keep ==> t.reg.businesses == [] && t.reg.customers == [] && t.groups == [] && forall sid: nat, g :: !Holds(t.net, sid, g))
  {
    LiveRuns.ReachableInv(l);
    WipeReg(l, keep, holders);
    WipeSessions(l, keep, holders);
    WipedTables(l, holders);
  }
}
