/** What the admin page tells, item by item: the stored customers and groups, who is held, and since which claim. */
module AdminPage {
  import opened Prelude
  import opened Registry
  import opened Sessions
  import opened Live
  import opened LiveNet
  import opened LiveFeed
  import opened LiveRuns

  /** Some session holds the group. */
  ghost predicate Held(l: Live, g: string) {
    exists sid: nat :: Holds(l.net, sid, g)
  }

  lemma HeldIsLocked(l: Live, g: string)
    requires Agreement(l.net)
    ensures Held(l, g) <==> g in l.net.locks
  {
    LockedIsIndexed(l.net);
    if Held(l, g) {
      var sid: nat :| Holds(l.net, sid, g);
      assert Owns(l.net, sid, g);
    }
  }

  // ---- the lists ----

  /** One item per customer: its number, group, switch and mode; locked if its group is held, effective if it is also on. */
  ghost predicate CustomersTrue(l: Live, items: seq<CustomerItem>) {
    && |items| == |l.reg.customers|
    && forall i | 0 <= i < |items| ::
         var c, item := l.reg.customers[i], items[i];
         && item.number == c.number && item.group == c.group && item.online == c.online && item.mode == c.mode
         && (item.locked <==> Held(l, c.group)) && (item.effective <==> c.online && Held(l, c.group))
  }

  ghost function Members(cs: seq<Customer>, g: string): set<nat> {
    set i: nat | i < |cs| && cs[i].group == g
  }

  /** One item per group: its id, how many customers it has, and a time exactly if it is held. */
  ghost predicate GroupsTrue(l: Live, items: seq<GroupItem>) {
    && |items| == |l.groups|
    && forall i | 0 <= i < |items| ::
         && items[i].id == l.groups[i] && items[i].count == |Members(l.reg.customers, l.groups[i])|
         && (items[i].lockedSince.Some? <==> Held(l, l.groups[i]))
  }

  lemma {:induction false} CountMembers(cs: seq<Customer>, g: string)
    ensures CountIn(cs, g) == |Members(cs, g)|
  {
    if cs == [] {
      assert Members(cs, g) == {};
    } else {
      var n := |cs| - 1;
      CountMembers(cs[..n], g);
      assert Members(cs, g) == Members(cs[..n], g) + if cs[n].group == g then {n} else {};
    }
  }

  lemma ListsAreTrue(l: Live)
    requires Agreement(l.net)
    ensures CustomersTrue(l, ListCustomers(l)) && GroupsTrue(l, ListGroups(l))
  {
    forall g ensures Held(l, g) <==> g in l.net.locks { HeldIsLocked(l, g); }
    forall i | 0 <= i < |l.groups| ensures CountIn(l.reg.customers, l.groups[i]) == |Members(l.reg.customers, l.groups[i])| {
      CountMembers(l.reg.customers, l.groups[i]);
    }
  }

  // ---- since when ----

  /** The state before step `j` of the run. */
  ghost function StateAt(l: Live, steps: seq<LiveStep>, j: nat): Live
    requires LiveCanRun(l, steps) && j <= |steps|
    decreases j
  {
    if j == 0 then l else StateAt(LiveApply(l, steps[0]), steps[1..], j - 1)
  }

  /** Session `sid` holds the group since step `k`, the claim at time `since`. */
  ghost predicate ClaimedAt(l: Live, steps: seq<LiveStep>, k: nat, sid: nat, g: string, since: int)
    requires LiveCanRun(l, steps)
  {
    && k < |steps| && steps[k] == Linking(ClaimFrame(sid, g, since)) && !Holds(StateAt(l, steps, k).net, sid, g)
    && HeldFrom(l, steps, k + 1, sid, g)
  }

  ghost predicate HeldFrom(l: Live, steps: seq<LiveStep>, k: nat, sid: nat, g: string)
    requires LiveCanRun(l, steps)
  {
    forall j | k <= j <= |steps| :: Holds(StateAt(l, steps, j).net, sid, g)
  }

  /** Nobody gets a group, or a new time for one, but by claiming it. */
  lemma NetStepHolds(n: Net, st: NetStep, sid: nat, g: string)
    requires Agreement(n) && NetEnabled(n, st) && Holds(NetApply(n, st), sid, g)
    ensures var t := NetApply(n, st);
            && Agreement(t) && g in t.locks
            && ((Holds(n, sid, g) && g in n.locks && t.locks[g] == n.locks[g])
                || (!Holds(n, sid, g) && st.Claim? && st.sid == sid && st.group == g && t.locks[g].since == st.now))
  {
    StepAgrees(n, st);
    assert Owns(NetApply(n, st), sid, g);
    assert Owns(n, sid, g) <==> Holds(n, sid, g);
  }

  ghost predicate NoClaims(steps: seq<NetStep>) {
    forall i | 0 <= i < |steps| :: !steps[i].Claim?
  }

  lemma {:induction false} NoClaimHolds(n: Net, steps: seq<NetStep>, sid: nat, g: string)
    requires Agreement(n) && NetCanRun(n, steps) && NoClaims(steps) && Holds(NetRun(n, steps), sid, g)
    ensures Holds(n, sid, g) && g in n.locks && g in NetRun(n, steps).locks && NetRun(n, steps).locks[g] == n.locks[g]
    decreases |steps|
  {
    if steps == [] {
      assert Owns(n, sid, g);
    } else {
      assert !steps[0].Claim?;
      StepAgrees(n, steps[0]);
      NoClaimHolds(NetApply(n, steps[0]), steps[1..], sid, g);
      NetStepHolds(n, steps[0], sid, g);
    }
  }

  lemma {:induction false} EndedNoClaims(groups: seq<string>, holders: seq<(string, nat)>, keep: bool)
    ensures NoClaims(Ended(groups, holders, keep))
  {
    if holders != [] { EndedNoClaims(groups, holders[..|holders| - 1], keep); }
  }

  lemma StepNoClaims(l: Live, st: LiveStep)
    requires !(st.Linking? && st.link.ClaimFrame?)
    ensures NoClaims(NetSteps(l, st))
  {
    if st.Arranging? && st.table.ApiReset? {
      EndedNoClaims(if st.table.keep then l.groups else [], st.table.holders, st.table.keep);
    }
  }

  /** A step after which a session holds a group: it held it before with the same time, or the step is its claim. */
  lemma StepHolds(l: Live, st: LiveStep, sid: nat, g: string)
    requires NetOk(l) && LiveEnabled(l, st) && Holds(LiveApply(l, st).net, sid, g)
    ensures var t := LiveApply(l, st);
            && g in t.net.locks
            && ((Holds(l.net, sid, g) && g in l.net.locks && t.net.locks[g] == l.net.locks[g])
                || (!Holds(l.net, sid, g) && st == Linking(ClaimFrame(sid, g, t.net.locks[g].since))))
  {
    StepIsNet(l, st);
    if st.Linking? && st.link.ClaimFrame? {
      ClaimFrameHolds(l.net, NetSteps(l, st), sid, g);
    } else {
      StepNoClaims(l, st);
      NoClaimHolds(l.net, NetSteps(l, st), sid, g);
    }
  }

  lemma ClaimFrameHolds(n: Net, steps: seq<NetStep>, sid: nat, g: string)
    requires Agreement(n) && NetCanRun(n, steps) && |steps| <= 1 && Holds(NetRun(n, steps), sid, g)
    ensures var t := NetRun(n, steps);
            && g in t.locks
            && ((Holds(n, sid, g) && g in n.locks && t.locks[g] == n.locks[g])
                || (!Holds(n, sid, g) && |steps| == 1 && steps[0].Claim? && steps[0].sid == sid && steps[0].group == g
                    && t.locks[g].since == steps[0].now))
  {
    if steps == [] {
      assert Owns(n, sid, g);
    } else {
      assert NetRun(NetApply(n, steps[0]), steps[1..]) == NetApply(n, steps[0]);
      NetStepHolds(n, steps[0], sid, g);
    }
  }

  /** Held since before the run with the time it had, or since a claim in the run at that time. */
  lemma {:induction false} RunHolds(l: Live, steps: seq<LiveStep>, sid: nat, g: string)
    requires LiveInv(l) && LiveCanRun(l, steps) && Holds(LiveRun(l, steps).net, sid, g)
    ensures var t := LiveRun(l, steps);
            && g in t.net.locks
            && ((HeldFrom(l, steps, 0, sid, g) && g in l.net.locks && t.net.locks[g] == l.net.locks[g])
                || exists k :: ClaimedAt(l, steps, k, sid, g, t.net.locks[g].since))
    decreases |steps|
  {
    if steps == [] {
      assert Owns(l.net, sid, g);
    } else {
      var l1, t := LiveApply(l, steps[0]), LiveRun(l, steps);
      StepInv(l, steps[0]);
      RunHolds(l1, steps[1..], sid, g);
      if k :| ClaimedAt(l1, steps[1..], k, sid, g, t.net.locks[g].since) {
        LaterClaim(l, l1, steps, k, sid, g, t.net.locks[g].since);
      } else {
        assert Holds(StateAt(l1, steps[1..], 0).net, sid, g);
        StepHolds(l, steps[0], sid, g);
        HeldLater(l, l1, steps, 0, sid, g);
        if Holds(l.net, sid, g) { HeldEarlier(l, steps, sid, g); } else { assert ClaimedAt(l, steps, 0, sid, g, t.net.locks[g].since); }
      }
    }
  }

  lemma HeldLater(l: Live, l1: Live, steps: seq<LiveStep>, k: nat, sid: nat, g: string)
    requires steps != [] && LiveCanRun(l, steps) && l1 == LiveApply(l, steps[0]) && HeldFrom(l1, steps[1..], k, sid, g)
    ensures HeldFrom(l, steps, k + 1, sid, g)
  {
    forall j | k + 1 <= j <= |steps| ensures Holds(StateAt(l, steps, j).net, sid, g) {
      assert StateAt(l, steps, j) == StateAt(l1, steps[1..], j - 1);
    }
  }

  lemma HeldEarlier(l: Live, steps: seq<LiveStep>, sid: nat, g: string)
    requires LiveCanRun(l, steps) && HeldFrom(l, steps, 1, sid, g) && Holds(l.net, sid, g)
    ensures HeldFrom(l, steps, 0, sid, g)
  {}

  lemma LaterClaim(l: Live, l1: Live, steps: seq<LiveStep>, k: nat, sid: nat, g: string, since: int)
    requires steps != [] && LiveCanRun(l, steps) && l1 == LiveApply(l, steps[0]) && ClaimedAt(l1, steps[1..], k, sid, g, since)
    ensures ClaimedAt(l, steps, k + 1, sid, g, since)
  {
    HeldLater(l, l1, steps, k + 1, sid, g);
    assert StateAt(l, steps, k + 1) == StateAt(l1, steps[1..], k);
  }

  // ---- main results ----

  /** In every run from boot: a held group's time is that of the claim since which its session holds it without a break. */
  lemma LockedSinceClaim(l0: Live, steps: seq<LiveStep>, sid: nat, g: string)
    requires Booted(l0) && LiveCanRun(l0, steps) && Holds(LiveRun(l0, steps).net, sid, g)
    ensures LockedSince(LiveRun(l0, steps), g).Some?
    ensures exists k :: ClaimedAt(l0, steps, k, sid, g, LockedSince(LiveRun(l0, steps), g).value)
  {
    BootedInv(l0);
    RunHolds(l0, steps, sid, g);
  }

  /** Every time in the list is that of the claim that holds the group. */
  ghost predicate TimesTrue(l0: Live, steps: seq<LiveStep>, items: seq<GroupItem>)
    requires LiveCanRun(l0, steps)
  {
    forall i | 0 <= i < |items| && items[i].lockedSince.Some? ::
      exists k, sid :: ClaimedAt(l0, steps, k, sid, items[i].id, items[i].lockedSince.value)
  }

  lemma ListedTimes(l0: Live, steps: seq<LiveStep>)
    requires Booted(l0) && LiveCanRun(l0, steps) && Agreement(LiveRun(l0, steps).net)
    ensures TimesTrue(l0, steps, ListGroups(LiveRun(l0, steps)))
  {
    var l := LiveRun(l0, steps);
    var items := ListGroups(l);
    forall i | 0 <= i < |items| && items[i].lockedSince.Some?
      ensures exists k, sid :: ClaimedAt(l0, steps, k, sid, items[i].id, items[i].lockedSince.value)
    {
      HeldIsLocked(l, items[i].id);
      var sid: nat :| Holds(l.net, sid, items[i].id);
      LockedSinceClaim(l0, steps, sid, items[i].id);
    }
  }

  /** What an admin page shows now: its last list of each kind. */
  ghost predicate PageTells(l0: Live, steps: seq<LiveStep>, sid: nat, groups: seq<GroupItem>, customers: seq<CustomerItem>)
    requires LiveCanRun(l0, steps)
  {
    var l := LiveRun(l0, steps);
    && LastGroups(Feed(l, sid)) == Some(GroupsUpdate(groups)) && GroupsTrue(l, groups) && TimesTrue(l0, steps, groups)
    && LastNumbers(Feed(l, sid)) == Some(NumbersUpdate(l.reg.businesses, customers)) && CustomersTrue(l, customers)
  }

  /**
   In every run an admin page shows the truth, item by item: each stored customer with its group, switch and mode,
   whether its group is held and whether it is effectively online; each group with its size and the time of the claim
   that holds it; and the stored businesses.
   */
  lemma AdminMirror(l0: Live, steps: seq<LiveStep>, sid: nat)
    requires Booted(l0) && LiveCanRun(l0, steps)
    requires var l := LiveRun(l0, steps);
             sid in l.net.sessions && l.net.sessions[sid].role.AdminRole? && !l.net.sessions[sid].closed && Open(l, sid)
    ensures exists groups, customers :: PageTells(l0, steps, sid, groups, customers)
  {
    BootedInv(l0);
    RunInv(l0, steps);
    var l := LiveRun(l0, steps);
    ListsAreTrue(l);
    ListedTimes(l0, steps);
    assert PageTells(l0, steps, sid, ListGroups(l), ListCustomers(l));
  }
}
