/** The admin page is a mirror: its last lists are the lists the store and the lock would give now. */
module LiveFeed {
  import opened Prelude
  import opened Registry
  import opened Lifecycle
  import opened StoreGroups
  import opened Sessions
  import opened Live
  import opened LiveNet

  function LastGroups(fs: seq<FeedFrame>): Option<FeedFrame> {
    if fs == [] then None
    else if fs[|fs| - 1].GroupsUpdate? then Some(fs[|fs| - 1]) else LastGroups(fs[..|fs| - 1])
  }

  function LastNumbers(fs: seq<FeedFrame>): Option<FeedFrame> {
    if fs == [] then None
    else if fs[|fs| - 1].NumbersUpdate? then Some(fs[|fs| - 1]) else LastNumbers(fs[..|fs| - 1])
  }

  lemma LastAppend(fs: seq<FeedFrame>, f: FeedFrame)
    ensures LastGroups(fs + [f]) == if f.GroupsUpdate? then Some(f) else LastGroups(fs)
    ensures LastNumbers(fs + [f]) == if f.NumbersUpdate? then Some(f) else LastNumbers(fs)
  {
    assert (fs + [f])[..|fs|] == fs;
  }

  ghost predicate GroupsShown(l: Live, lists: FeedFrame) {
    forall sid: nat | sid in l.admins && Open(l, sid) :: LastGroups(Feed(l, sid)) == Some(lists)
  }

  ghost predicate NumbersShown(l: Live, lists: FeedFrame) {
    forall sid: nat | sid in l.admins && Open(l, sid) :: LastNumbers(Feed(l, sid)) == Some(lists)
  }

  /** Every admin page shows the current lists. */
  ghost predicate FeedsOk(l: Live) {
    GroupsShown(l, GroupsFrame(l)) && NumbersShown(l, NumbersFrame(l))
  }

  // ---- what the lists depend on ----

  lemma {:induction false} CountSame(cs: seq<Customer>, ds: seq<Customer>, g: string)
    requires |cs| == |ds| && forall i | 0 <= i < |cs| :: cs[i].group == ds[i].group
    ensures CountIn(cs, g) == CountIn(ds, g)
  {
    if cs != [] { CountSame(cs[..|cs| - 1], ds[..|ds| - 1], g); }
  }

  lemma GroupsFrameSame(l: Live, t: Live)
    requires t.groups == l.groups && t.net.locks == l.net.locks && |t.reg.customers| == |l.reg.customers|
    requires forall i | 0 <= i < |l.reg.customers| :: t.reg.customers[i].group == l.reg.customers[i].group
    ensures GroupsFrame(t) == GroupsFrame(l)
  {
    forall i | 0 <= i < |l.groups| ensures ListGroups(t)[i] == ListGroups(l)[i] {
      CountSame(l.reg.customers, t.reg.customers, l.groups[i]);
    }
    assert ListGroups(t) == ListGroups(l);
  }

  lemma NumbersFrameSame(l: Live, t: Live)
    requires t.net.locks == l.net.locks && SameNumbers(l.reg, t.reg)
    ensures NumbersFrame(t) == NumbersFrame(l)
  {
    assert ListCustomers(t) == ListCustomers(l);
  }

  // ---- what keeps the mirror ----

  /** Nobody new listens and no feed changed. */
  ghost predicate SameFeeds(l: Live, t: Live) {
    t.feeds == l.feeds && t.admins <= l.admins && forall sid: nat | sid in t.admins && Open(t, sid) :: Open(l, sid)
  }

  lemma KeptFeeds(l: Live, t: Live)
    requires FeedsOk(l) && SameFeeds(l, t) && t.groups == l.groups && t.net.locks == l.net.locks && SameNumbers(l.reg, t.reg)
    ensures FeedsOk(t)
  {
    GroupsFrameSame(l, t);
    NumbersFrameSame(l, t);
  }

  lemma TalkFeeds(l: Live, t: Live)
    requires FeedsOk(l) && Talk(l, t)
    ensures FeedsOk(t)
  {
    KeptFeeds(l, t);
  }

  lemma BroadcastShows(l: Live, f: FeedFrame)
    ensures var t := Broadcast(l, f);
            && (f.GroupsUpdate? ==> GroupsShown(t, f)) && (f.NumbersUpdate? ==> NumbersShown(t, f))
            && forall lists :: (!f.GroupsUpdate? && GroupsShown(l, lists) ==> GroupsShown(t, lists))
                            && (!f.NumbersUpdate? && NumbersShown(l, lists) ==> NumbersShown(t, lists))
  {
    var t := Broadcast(l, f);
    forall sid: nat | sid in l.admins && Open(l, sid)
      ensures Feed(t, sid) == Feed(l, sid) + [f]
      ensures LastGroups(Feed(t, sid)) == if f.GroupsUpdate? then Some(f) else LastGroups(Feed(l, sid))
      ensures LastNumbers(Feed(t, sid)) == if f.NumbersUpdate? then Some(f) else LastNumbers(Feed(l, sid))
    {
      LastAppend(Feed(l, sid), f);
    }
  }

  /** The number lists are broadcast: enough if the groups shown are right. */
  lemma NumbersChangedFeeds(l: Live)
    requires GroupsShown(l, GroupsFrame(l))
    ensures FeedsOk(NumbersChanged(l))
  {
    BroadcastShows(l, NumbersFrame(l));
    GroupsFrameSame(l, NumbersChanged(l));
    NumbersFrameSame(l, NumbersChanged(l));
  }

  /** Both lists are broadcast: the mirror is right whatever it was before. */
  lemma LockChangedFeeds(l: Live)
    ensures FeedsOk(LockChanged(l))
  {
    BroadcastShows(l, GroupsFrame(l));
    GroupsFrameSame(l, GroupsChanged(l));
    NumbersChangedFeeds(GroupsChanged(l));
  }

  lemma CloseFeeds(l: Live, sid: nat)
    requires FeedsOk(l) && sid in l.net.sessions
    ensures FeedsOk(CloseSession(l, sid))
  {
    var s := l.net.sessions[sid];
    var l1 := l.(net := Closed(l.net, sid));
    if !s.closed && s.role.GroupRole? {
      LockChangedFeeds(l1);
    } else {
      KeptFeeds(l, l1);
      KeptFeeds(l, l1.(admins := l1.admins - {sid}));
    }
  }

  lemma ShutFeeds(l: Live, sid: nat, client: bool)
    requires FeedsOk(l) && sid in l.net.sessions
    ensures FeedsOk(l.(net := Shut(l.net, sid, client)))
  {
    KeptFeeds(l, l.(net := Shut(l.net, sid, client)));
  }

  lemma DisconnectFeeds(l: Live, sid: nat)
    requires FeedsOk(l) && sid in l.net.sessions
    ensures FeedsOk(DisconnectSession(l, sid))
  {
    CloseFeeds(l, sid);
    CloseNet(l, sid);
    var l1 := CloseSession(l, sid);
    ShutFeeds(l1, sid, l1.net.sessions[sid].client);
  }

  lemma GoneFeeds(l: Live, sid: nat, final: bool)
    requires FeedsOk(l) && sid in l.net.sessions
    ensures FeedsOk(GoneSession(l, sid, final))
  {
    var client := l.net.sessions[sid].client && !final;
    ShutFeeds(l, sid, client);
    CloseFeeds(l.(net := Shut(l.net, sid, client)), sid);
  }

  lemma ClaimFeeds(l: Live, sid: nat, g: string, now: int)
    requires FeedsOk(l) && sid in l.net.sessions
    ensures FeedsOk(ClaimGroup(l, sid, g, now))
  {
    if l.net.sessions[sid].role.NoRole? && g in l.groups && g !in l.net.locks {
      var l1 := SendSnapshot(l.(net := Claimed(l.net, sid, g, now)), sid, g);
      LockChangedFeeds(DeliverTiles(l1, TilesOf(l1.reg.customers, g), now));
    } else {
      TalkFeeds(l, SendTab(l, sid, Other));
    }
  }

  lemma SendFeedShows(l: Live, sid: nat, f: FeedFrame)
    ensures var t := SendFeed(l, sid, f);
            && (forall tid: nat :: Feed(t, tid) == Feed(l, tid) + (if tid == sid && Open(l, sid) then [f] else []))
            && t == l.(feeds := t.feeds)
  {}

  lemma TwoFrames(l: Live, sid: nat, g: FeedFrame, n: FeedFrame)
    requires g.GroupsUpdate? && n.NumbersUpdate?
    requires forall tid: nat | tid in l.admins && tid != sid && Open(l, tid) :: LastGroups(Feed(l, tid)) == Some(g) && LastNumbers(Feed(l, tid)) == Some(n)
    ensures var t := SendFeed(SendFeed(l, sid, g), sid, n); GroupsShown(t, g) && NumbersShown(t, n)
  {
    SendFeedShows(l, sid, g);
    SendFeedShows(SendFeed(l, sid, g), sid, n);
    LastAppend(Feed(l, sid), g);
    LastAppend(Feed(l, sid) + [g], n);
  }

  /** A new page gets both lists; the others keep theirs, which have not changed. */
  lemma SubscribeFeeds(l: Live, sid: nat)
    requires FeedsOk(l) && sid in l.net.sessions
    ensures FeedsOk(SubscribeAdmin(l, sid))
  {
    if l.net.sessions[sid].role.NoRole? {
      var l1 := l.(net := Subscribed(l.net, sid), admins := l.admins + {sid});
      var l2 := SendFeed(l1, sid, GroupsFrame(l1));
      SendFeedShows(l1, sid, GroupsFrame(l1));
      SendFeedShows(l2, sid, NumbersFrame(l2));
      ListsSame(l, l1);
      ListsSame(l, l2);
      ListsSame(l, SubscribeAdmin(l, sid));
      TwoFrames(l1, sid, GroupsFrame(l), NumbersFrame(l));
    } else {
      TalkFeeds(l, SendTab(l, sid, Other));
    }
  }

  lemma ListsSame(l: Live, t: Live)
    requires t.groups == l.groups && t.net.locks == l.net.locks && t.reg == l.reg
    ensures GroupsFrame(t) == GroupsFrame(l) && NumbersFrame(t) == NumbersFrame(l)
  {
    GroupsFrameSame(l, t);
    NumbersFrameSame(l, t);
  }

  /** A switch of one customer changes no group list. */
  lemma CustomersFeeds(l: Live, cs: seq<Customer>)
    requires FeedsOk(l) && |cs| == |l.reg.customers| && forall i | 0 <= i < |cs| :: cs[i].group == l.reg.customers[i].group
    ensures FeedsOk(NumbersChanged(l.(reg := l.reg.(customers := cs))))
  {
    var l0 := l.(reg := l.reg.(customers := cs));
    GroupsFrameSame(l, l0);
    NumbersChangedFeeds(l0);
  }

  lemma PresenceFeeds(l: Live, number: string, online: bool, now: int)
    requires FeedsOk(l)
    ensures FeedsOk(SetPresence(l, number, online, now))
  {
    var cs := WithOnline(l.reg.customers, number, online);
    CustomersFeeds(l, cs);
    var l1 := NumbersChanged(l.(reg := l.reg.(customers := cs)));
    var l2 := SendTile(l1, number, Other);
    TalkFeeds(l1, l2);
    FlushTalk(l2, number, now);
    TalkFeeds(l2, FlushTile(l2, number, now));
  }

  lemma ModeFeeds(l: Live, number: string, mode: ReplyMode)
    requires FeedsOk(l)
    ensures FeedsOk(SetAutoReply(l, number, mode))
  {
    var cs := WithMode(l.reg.customers, number, mode);
    CustomersFeeds(l, cs);
    var l1 := NumbersChanged(l.(reg := l.reg.(customers := cs)));
    TalkFeeds(l1, SendTile(l1, number, Other));
  }

  lemma BusinessesFeeds(l: Live, bs: seq<Business>)
    requires FeedsOk(l)
    ensures FeedsOk(NumbersChanged(l.(reg := l.reg.(businesses := bs))))
  {
    GroupsFrameSame(l, l.(reg := l.reg.(businesses := bs)));
    NumbersChangedFeeds(l.(reg := l.reg.(businesses := bs)));
  }

  lemma RefreshOneFeeds(l: Live, g: string, sid: nat, keep: bool)
    requires FeedsOk(l)
    ensures FeedsOk(RefreshOne(l, g, sid, keep))
  {
    if sid in l.net.sessions {
      if keep && g in l.groups {
        SnapshotTalk(l, sid, g);
        TalkFeeds(l, SendSnapshot(l, sid, g));
      } else {
        TalkFeeds(l, SendTab(l, sid, Other));
        DisconnectFeeds(SendTab(l, sid, Other), sid);
      }
    }
  }

  lemma {:induction false} RefreshFeeds(l: Live, holders: seq<(string, nat)>, keep: bool)
    requires FeedsOk(l)
    ensures FeedsOk(RefreshAll(l, holders, keep))
  {
    if holders != [] {
      var n := |holders| - 1;
      RefreshFeeds(l, holders[..n], keep);
      RefreshOneFeeds(RefreshAll(l, holders[..n], keep), holders[n].0, holders[n].1, keep);
    }
  }

  lemma WipeFeeds(l: Live, keep: bool, holders: seq<(string, nat)>)
    ensures FeedsOk(WipeAll(l, keep, holders))
  {
    var l1 := l.(reg := WipedReg(l.reg, keep), groups := if keep then l.groups else []);
    LockChangedFeeds(l1.(announced := {}, log := l1.log + [LogReset]));
    RefreshFeeds(ResetFeed(l1), holders, keep);
  }

  lemma LinkingFeeds(l: Live, st: LinkStep)
    requires FeedsOk(l) && NetOk(l) && LinkEnabled(l, st)
    ensures FeedsOk(LinkApply(l, st))
  {
    match st
    case Opened(sid) => KeptFeeds(l, l.(net := Connected(l.net, sid)));
    case ClaimFrame(sid, g, now) => ClaimFeeds(l, sid, g, now);
    case SubscribeFrame(sid) => SubscribeFeeds(l, sid);
    case SocketEnds(sid, final) => GoneFeeds(l, sid, final);
    case Heartbeat => KeptFeeds(l, l.(net := Ticked(l.net)));
    case PongFrame(sid) => KeptFeeds(l, l.(net := Ponged(l.net, sid)));
  }

  lemma SwitchFeeds(l: Live, st: SwitchStep)
    requires FeedsOk(l) && SwitchEnabled(l, st)
    ensures FeedsOk(SwitchApply(l, st))
  {
    match st
    case PresenceFrame(sid, number, online, now) =>
      TalkFeeds(l, SendTab(l, sid, Other));
      PresenceFeeds(l, number, online, now);
    case ApiPresence(number, online, now) => PresenceFeeds(l, number, online, now);
    case AutoReplyFrame(sid, number, mode) =>
      TalkFeeds(l, SendTab(l, sid, Other));
      ModeFeeds(l, number, mode);
    case ApiAutoReply(number, mode) =>
      ModeFeeds(l, number, mode);
      NumbersChangedFeeds(SetAutoReply(l, number, mode));
  }

  lemma TableFeeds(l: Live, st: TableStep)
    requires FeedsOk(l) && TableEnabled(l, st)
    ensures FeedsOk(TableApply(l, st))
  {
    match st
    case ApiBusinesses(bs) => BusinessesFeeds(l, bs);
    case ApiCreateGroup(g, numbers) =>
      var added := seq(|numbers|, i requires 0 <= i < |numbers| => Customer(numbers[i], g, true, Manual));
      LockChangedFeeds(l.(groups := l.groups + [g], reg := l.reg.(customers := l.reg.customers + added)));
    case ApiDeleteGroup(g) =>
      LockChangedFeeds(l.(groups := WithoutString(l.groups, g), reg := l.reg.(customers := WithoutGroup(l.reg.customers, g))));
    case ApiReset(keep, holders) => WipeFeeds(l, keep, holders);
  }

  /** After every callback each admin page shows the lists that store and lock give. */
  lemma StepFeedsOk(l: Live, st: LiveStep)
    requires FeedsOk(l) && NetOk(l) && LiveEnabled(l, st)
    ensures FeedsOk(LiveApply(l, st))
  {
    match st
    case Linking(s) => LinkingFeeds(l, s);
    case Talking(s) =>
      TalkingTalk(l, s);
      TalkFeeds(l, TalkApply(l, s));
    case Switching(s) => SwitchFeeds(l, s);
    case Arranging(s) => TableFeeds(l, s);
    case Logging(s) =>
      NoteTalk(l, s);
      TalkFeeds(l, NoteApply(l, s));
  }
}
