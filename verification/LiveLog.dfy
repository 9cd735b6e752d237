/** The log feed: since the last reset, each message is one entry followed only by updates; refusals stand alone. */
module LiveLog {
  import opened Prelude
  import opened Registry
  import opened Lifecycle
  import opened StoreGroups
  import opened Sessions
  import opened Live
  import opened LiveNet

  function Onto(known: set<string>, f: LogFrame): set<string> {
    if f.LogReset? then {} else if f.LogEntry? then known + {f.wamid} else known
  }

  /** The messages with an entry since the last reset. */
  function Since(log: seq<LogFrame>): set<string> {
    if log == [] then {} else Onto(Since(log[..|log| - 1]), log[|log| - 1])
  }

  /** An entry is the first word on its message, an update never is. */
  ghost predicate LogFits(log: seq<LogFrame>) {
    forall i | 0 <= i < |log| ::
      && (log[i].LogEntry? ==> log[i].wamid !in Since(log[..i]))
      && (log[i].LogUpdate? ==> log[i].wamid in Since(log[..i]))
  }

  ghost predicate LogOk(l: Live) {
    l.announced == Since(l.log) && LogFits(l.log)
  }

  lemma LogAppend(log: seq<LogFrame>, f: LogFrame)
    requires LogFits(log) && (f.LogEntry? ==> f.wamid !in Since(log)) && (f.LogUpdate? ==> f.wamid in Since(log))
    ensures LogFits(log + [f])
    ensures Since(log + [f]) == Onto(Since(log), f)
  {
    assert (log + [f])[..|log|] == log;
    forall i | 0 <= i < |log| ensures (log + [f])[..i] == log[..i] {}
  }

  lemma LogToOk(l: Live, wamid: string)
    requires LogOk(l)
    ensures LogOk(LogTo(l, wamid))
  {
    LogAppend(l.log, if wamid in l.announced then LogUpdate(wamid) else LogEntry(wamid));
    assert wamid in l.announced ==> l.announced + {wamid} == l.announced;
  }

  lemma EmitLog(l: Live, e: BusEvent)
    requires LogOk(l)
    ensures LogOk(Emit(l, e))
  {
    if e.LogChanged? { LogToOk(l, e.wamid); }
  }

  lemma {:induction false} EmitAllLog(l: Live, es: seq<BusEvent>)
    requires LogOk(l)
    ensures LogOk(EmitAll(l, es))
  {
    if es != [] {
      EmitAllLog(l, es[..|es| - 1]);
      EmitLog(EmitAll(l, es[..|es| - 1]), es[|es| - 1]);
    }
  }

  lemma HappenedLog(l: Live, e: Effect)
    requires LogOk(l)
    ensures LogOk(Happened(l, e))
  {
    EmitAllLog(l.(reg := e.reg), e.events);
  }

  lemma SameLog(l: Live, t: Live)
    requires LogOk(l) && t.log == l.log && t.announced == l.announced
    ensures LogOk(t)
  {}

  lemma DeliverTileLog(l: Live, number: string, now: int)
    requires LogOk(l)
    ensures LogOk(DeliverTile(l, number, now))
  {
    HappenedLog(l, DeliveredCall(l.reg, QueuedFor(l.reg, number), now));
  }

  lemma {:induction false} DeliverTilesLog(l: Live, tiles: seq<string>, now: int)
    requires LogOk(l)
    ensures LogOk(DeliverTiles(l, tiles, now))
  {
    if tiles != [] {
      DeliverTilesLog(l, tiles[..|tiles| - 1], now);
      DeliverTileLog(DeliverTiles(l, tiles[..|tiles| - 1], now), tiles[|tiles| - 1], now);
    }
  }

  lemma PushLog(l: Live, number: string, f: TabFrame, ms: seq<Message>, now: int)
    requires LogOk(l)
    ensures LogOk(PushAndMark(l, number, f, ms, now))
  {
    SameLog(l, SendTile(l, number, f));
    HappenedLog(SendTile(l, number, f), DeliveredCall(l.reg, ms, now));
  }

  lemma FlushLog(l: Live, number: string, now: int)
    requires LogOk(l)
    ensures LogOk(FlushTile(l, number, now))
  {
    PushLog(l, number, QueueFlush(Bubbles(QueuedFor(l.reg, number))), QueuedFor(l.reg, number), now);
  }

  lemma DeliverNowLog(l: Live, m: Message, now: int)
    requires LogOk(l)
    ensures LogOk(DeliverNow(l, m, now))
  {
    PushLog(l, m.customer, NewBubble(BubbleOf(m)), [m], now);
  }

  lemma ClaimLog(l: Live, sid: nat, g: string, now: int)
    requires LogOk(l) && sid in l.net.sessions
    ensures LogOk(ClaimGroup(l, sid, g, now))
  {
    if l.net.sessions[sid].role.NoRole? && g in l.groups && g !in l.net.locks {
      var l1 := SendSnapshot(l.(net := Claimed(l.net, sid, g, now)), sid, g);
      SameLog(l, l1);
      var l2 := DeliverTiles(l1, TilesOf(l1.reg.customers, g), now);
      DeliverTilesLog(l1, TilesOf(l1.reg.customers, g), now);
      LockChangedNet(l2);
      SameLog(l2, LockChanged(l2));
    } else {
      SameLog(l, SendTab(l, sid, Other));
    }
  }

  lemma PresenceLog(l: Live, number: string, online: bool, now: int)
    requires LogOk(l)
    ensures LogOk(SetPresence(l, number, online, now))
  {
    var l1 := NumbersChanged(l.(reg := l.reg.(customers := WithOnline(l.reg.customers, number, online))));
    SameLog(l, l1);
    var l2 := SendTile(l1, number, Other);
    SameLog(l1, l2);
    FlushLog(l2, number, now);
  }

  lemma GoneLog(l: Live, sid: nat, final: bool)
    requires LogOk(l) && sid in l.net.sessions
    ensures LogOk(GoneSession(l, sid, final)) && LogOk(DisconnectSession(l, sid))
  {
    GoneIs(l, sid, final);
    DisconnectNet(l, sid);
  }

  lemma RefreshOneLog(l: Live, g: string, sid: nat, keep: bool)
    requires LogOk(l)
    ensures LogOk(RefreshOne(l, g, sid, keep))
  {
    if sid in l.net.sessions {
      if keep && g in l.groups { SameLog(l, SendSnapshot(l, sid, g)); } else { GoneLog(SendTab(l, sid, Other), sid, true); }
    }
  }

  lemma {:induction false} RefreshLog(l: Live, holders: seq<(string, nat)>, keep: bool)
    requires LogOk(l)
    ensures LogOk(RefreshAll(l, holders, keep))
  {
    if holders != [] {
      var n := |holders| - 1;
      RefreshLog(l, holders[..n], keep);
      RefreshOneLog(RefreshAll(l, holders[..n], keep), holders[n].0, holders[n].1, keep);
    }
  }

  lemma WipeLog(l: Live, keep: bool, holders: seq<(string, nat)>)
    requires LogOk(l)
    ensures LogOk(WipeAll(l, keep, holders))
  {
    var l1 := l.(reg := WipedReg(l.reg, keep), groups := if keep then l.groups else []);
    LogAppend(l.log, LogReset);
    ResetFeedNet(l1);
    RefreshLog(ResetFeed(l1), holders, keep);
  }

  lemma SendLog(l: Live, sid: nat, number: string, to: string, body: string, wamid: string, now: int)
    requires LogOk(l) && sid in l.net.sessions
    ensures LogOk(SendMessage(l, sid, number, to, body, wamid, now))
  {
    SameLog(l, SendTab(l, sid, Other));
    if GetBusiness(l.reg.businesses, to).Some? {
      HappenedLog(l, InboundCall(l.reg, number, GetBusiness(l.reg.businesses, to).value.phone, body, wamid, now));
    }
  }

  lemma ReadLog(l: Live, sid: nat, number: string, peer: string, now: int)
    requires LogOk(l) && sid in l.net.sessions
    ensures LogOk(ReadChat(l, sid, number, peer, now))
  {
    SameLog(l, SendTab(l, sid, Other));
    if GetBusiness(l.reg.businesses, peer).Some? {
      HappenedLog(l, ReadCall(l.reg, number, GetBusiness(l.reg.businesses, peer).value.phone, now));
    }
  }

  lemma RejectedLog(l: Live, at: int)
    requires LogOk(l)
    ensures LogOk(RejectTo(l, at))
  {
    LogAppend(l.log, RejectedEntry(at));
  }

  lemma NoteLog(l: Live, st: NoteStep)
    requires LogOk(l)
    ensures LogOk(NoteApply(l, st))
  {
    match st
    case WebhookProgress(wamid) => LogToOk(l, wamid);
    case RequestRejected(at) => RejectedLog(l, at);
  }

  lemma ResponseLog(l: Live, wamid: string, now: int)
    requires LogOk(l) && wamid in l.pending
    ensures LogOk(ResponseFinished(l, wamid, now))
  {
    var m := l.pending[wamid];
    var l1 := NoteLate(l.(pending := l.pending - {wamid}), m);
    SameLog(l, l1);
    DeliverNowLog(l1, m, now);
  }

  lemma TalkingLog(l: Live, st: TalkStep)
    requires LogOk(l) && TalkEnabled(l, st)
    ensures LogOk(TalkApply(l, st))
  {
    match st
    case SendFrame(sid, number, to, body, wamid, now) => SendLog(l, sid, number, to, body, wamid, now);
    case ReadFrame(sid, number, peer, now) => ReadLog(l, sid, number, peer, now);
    case HttpSend(phone, customer, text, wamid, delay, now) =>
      var m := MessageOf(l.reg, Draft(wamid, ToCustomer, phone, customer, text, now));
      HappenedLog(l.(pending := l.pending[wamid := m]), Accepted(l.reg, phone, customer, text, wamid, delay, now));
    case HttpFinished(wamid, now) => ResponseLog(l, wamid, now);
    case HttpRead(phone, wamid, now) => HappenedLog(l, MarkInboundRead(l.reg, phone, wamid, now));
    case Inject(sender, to, body, wamid, now) => HappenedLog(l, InboundCall(l.reg, sender, to, body, wamid, now));
    case AutoReply(customer, to, body, wamid, now) => HappenedLog(l, InboundCall(l.reg, customer, to, body, wamid, now));
  }

  lemma LinkingLog(l: Live, st: LinkStep)
    requires LogOk(l) && LinkEnabled(l, st)
    ensures LogOk(LinkApply(l, st))
  {
    match st
    case ClaimFrame(sid, g, now) => ClaimLog(l, sid, g, now);
    case SocketEnds(sid, final) => GoneLog(l, sid, final);
    case _ => SameLog(l, LinkApply(l, st));
  }

  lemma ModeLog(l: Live, number: string, mode: ReplyMode)
    requires LogOk(l)
    ensures LogOk(SetAutoReply(l, number, mode)) && LogOk(NumbersChanged(SetAutoReply(l, number, mode)))
  {
    SameLog(l, SetAutoReply(l, number, mode));
    SameLog(l, NumbersChanged(SetAutoReply(l, number, mode)));
  }

  lemma SwitchLog(l: Live, st: SwitchStep)
    requires LogOk(l) && SwitchEnabled(l, st)
    ensures LogOk(SwitchApply(l, st))
  {
    match st
    case PresenceFrame(sid, number, online, now) => PresenceLog(l, number, online, now);
    case ApiPresence(number, online, now) => PresenceLog(l, number, online, now);
    case AutoReplyFrame(sid, number, mode) =>
      SameLog(l, SendTab(l, sid, Other));
      ModeLog(l, number, mode);
    case ApiAutoReply(number, mode) => ModeLog(l, number, mode);
  }

  lemma TableLog(l: Live, st: TableStep)
    requires LogOk(l)
    ensures LogOk(TableApply(l, st))
  {
    if st.ApiReset? { WipeLog(l, st.keep, st.holders); } else { SameLog(l, TableApply(l, st)); }
  }

  lemma StepLogOk(l: Live, st: LiveStep)
    requires LogOk(l) && LiveEnabled(l, st)
    ensures LogOk(LiveApply(l, st))
  {
    match st
    case Linking(s) => LinkingLog(l, s);
    case Talking(s) => TalkingLog(l, s);
    case Switching(s) => SwitchLog(l, s);
    case Arranging(s) => TableLog(l, s);
    case Logging(s) => NoteLog(l, s);
  }

  // ---- in positions ----

  predicate NoReset(log: seq<LogFrame>, from: nat, to: nat)
    requires from <= to <= |log|
  {
    forall k | from <= k < to :: !log[k].LogReset?
  }

  lemma {:induction false} SinceIs(log: seq<LogFrame>, n: nat, w: string)
    requires n <= |log|
    ensures w in Since(log[..n]) <==> exists i :: 0 <= i < n && log[i] == LogEntry(w) && NoReset(log, i, n)
  {
    if n > 0 {
      SinceIs(log, n - 1, w);
      assert log[..n][..n - 1] == log[..n - 1];
      if i :| 0 <= i < n - 1 && log[i] == LogEntry(w) && NoReset(log, i, n - 1) {
        assert !log[n - 1].LogReset? ==> NoReset(log, i, n);
      }
      if i :| 0 <= i < n && log[i] == LogEntry(w) && NoReset(log, i, n) {
        assert !log[n - 1].LogReset?;
        assert i < n - 1 ==> NoReset(log, i, n - 1);
      }
      if log[n - 1] == LogEntry(w) { assert NoReset(log, n - 1, n); }
    }
  }

  /** Between two resets: an update has its entry before it, and a message has no second entry. */
  lemma EntryThenUpdates(l: Live, j: nat)
    requires LogOk(l) && j < |l.log| && (l.log[j].LogEntry? || l.log[j].LogUpdate?)
    ensures l.log[j].LogUpdate? <==> exists i :: 0 <= i < j && l.log[i] == LogEntry(l.log[j].wamid) && NoReset(l.log, i, j)
  {
    SinceIs(l.log, j, l.log[j].wamid);
  }
}
