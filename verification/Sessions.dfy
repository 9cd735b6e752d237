/**
 Who holds a group: the lock table, the session index and each session's own role are three separate pieces of state,
 changed one after the other by claim, close and reset. And the heartbeat that ends silent connections.
 */
module Sessions {
  import opened Prelude

  datatype Role = NoRole | GroupRole(group: string) | AdminRole

  /**
   `closed`: the session has given up its role. `open`: its socket still takes frames. `client`: the server still
   tracks the socket. `alive`: a pong came since the last tick.
   */
  datatype Session = Session(role: Role, closed: bool, open: bool, client: bool, alive: bool)

  datatype Lock = Lock(owner: nat, since: int)

  datatype Net = Net(sessions: map<nat, Session>, locks: map<string, Lock>, index: map<string, nat>)

  const EmptyNet := Net(map[], map[], map[])

  function Connected(n: Net, sid: nat): Net {
    n.(sessions := n.sessions[sid := Session(NoRole, false, true, true, true)])
  }

  // ---- the lock table and the index ----

  datatype ClaimResult = Granted(since: int) | Refused(since: int)

  /** Free: take it. Held by anyone, even the caller: refused with the holder's time. */
  function LockClaim(locks: map<string, Lock>, g: string, owner: nat, now: int): (map<string, Lock>, ClaimResult) {
    if g in locks then (locks, Refused(locks[g].since)) else (locks[g := Lock(owner, now)], Granted(now))
  }

  /** Only the owner can release. */
  function LockRelease(locks: map<string, Lock>, g: string, owner: nat): map<string, Lock> {
    if g in locks && locks[g].owner == owner then locks - {g} else locks
  }

  function IndexRemove(index: map<string, nat>, g: string, sid: nat): map<string, nat> {
    if g in index && index[g] == sid then index - {g} else index
  }

  // ---- the session ----

  function Claimed(n: Net, sid: nat, g: string, now: int): Net
    requires sid in n.sessions
  {
    var (locks, result) := LockClaim(n.locks, g, sid, now);
    if result.Refused? then n
    else Net(n.sessions[sid := n.sessions[sid].(role := GroupRole(g))], locks, n.index[g := sid])
  }

  function Subscribed(n: Net, sid: nat): Net
    requires sid in n.sessions
  {
    n.(sessions := n.sessions[sid := n.sessions[sid].(role := AdminRole)])
  }

  /** Give up the role; safe to call twice. */
  function Closed(n: Net, sid: nat): Net
    requires sid in n.sessions
  {
    var s := n.sessions[sid];
    if s.closed then n
    else
      var n1 := n.(sessions := n.sessions[sid := s.(closed := true)]);
      match s.role
      case GroupRole(g) => n1.(locks := LockRelease(n1.locks, g, sid), index := IndexRemove(n1.index, g, sid))
      case _ => n1
  }

  function Shut(n: Net, sid: nat, client: bool): Net
    requires sid in n.sessions
  {
    n.(sessions := n.sessions[sid := n.sessions[sid].(open := false, client := client)])
  }

  /** The socket failed (`final` false) or is gone. */
  function SocketGone(n: Net, sid: nat, final: bool): Net
    requires sid in n.sessions
  {
    Closed(Shut(n, sid, n.sessions[sid].client && !final), sid)
  }

  function Disconnected(n: Net, sid: nat): Net
    requires sid in n.sessions
  {
    var n1 := Closed(n, sid);
    Shut(n1, sid, n1.sessions[sid].client)
  }

  /** A heartbeat: who was silent since the last one is terminated, the others are pinged. */
  function TickOne(s: Session): Session {
    if !s.client then s else if !s.alive then s.(open := false) else s.(alive := false)
  }

  function Ticked(n: Net): Net {
    n.(sessions := map sid | sid in n.sessions :: TickOne(n.sessions[sid]))
  }

  function Ponged(n: Net, sid: nat): Net
    requires sid in n.sessions
  {
    n.(sessions := n.sessions[sid := n.sessions[sid].(alive := true)])
  }

  // ---- agreement ----

  predicate Owns(n: Net, sid: nat, g: string) { g in n.locks && n.locks[g].owner == sid }

  predicate Indexed(n: Net, sid: nat, g: string) { g in n.index && n.index[g] == sid }

  predicate Holds(n: Net, sid: nat, g: string) {
    sid in n.sessions && !n.sessions[sid].closed && n.sessions[sid].role == GroupRole(g)
  }

  /** Lock, index and role tell the same story. */
  ghost predicate Agreement(n: Net) {
    forall sid: nat, g: string :: (Owns(n, sid, g) <==> Holds(n, sid, g)) && (Indexed(n, sid, g) <==> Holds(n, sid, g))
  }

  /** At most one open session holds a group, and a session holds at most one group. */
  lemma OneHolder(n: Net, sid: nat, tid: nat, g: string)
    requires Agreement(n) && Holds(n, sid, g) && Holds(n, tid, g)
    ensures sid == tid && n.locks.Keys == n.index.Keys
  {
    assert Owns(n, sid, g) && Owns(n, tid, g);
    LockedIsIndexed(n);
  }

  lemma LockedIsIndexed(n: Net)
    requires Agreement(n)
    ensures n.locks.Keys == n.index.Keys
    ensures forall g | g in n.locks :: n.index[g] == n.locks[g].owner && Holds(n, n.index[g], g)
  {
    forall g ensures g in n.locks.Keys <==> g in n.index.Keys {
      if g in n.locks { assert Owns(n, n.locks[g].owner, g); assert Indexed(n, n.locks[g].owner, g); }
      if g in n.index { assert Indexed(n, n.index[g], g); assert Owns(n, n.index[g], g); }
    }
    forall g | g in n.locks ensures n.index[g] == n.locks[g].owner && Holds(n, n.index[g], g) {
      assert Owns(n, n.locks[g].owner, g);
      assert Indexed(n, n.locks[g].owner, g);
    }
  }

  /**
   A claim keeps the agreement exactly unless a session that is already closed takes a free group: `handle` does not
   look at `closed`, and a closed session never gives the lock back. So frames must stop at close.
   */
  lemma ClaimAgrees(n: Net, sid: nat, g: string, now: int)
    requires Agreement(n) && sid in n.sessions && n.sessions[sid].role.NoRole?
    ensures Agreement(Claimed(n, sid, g, now)) <==> !(n.sessions[sid].closed && g !in n.locks)
  {
    var t := Claimed(n, sid, g, now);
    LockedIsIndexed(n);
    if g !in n.locks {
      assert Owns(t, sid, g);
      if n.sessions[sid].closed {
        assert !Holds(t, sid, g);
      } else {
        forall s: nat, h: string ensures (Owns(t, s, h) <==> Holds(t, s, h)) && (Indexed(t, s, h) <==> Holds(t, s, h)) {
          assert (Owns(n, s, h) <==> Holds(n, s, h)) && (Indexed(n, s, h) <==> Holds(n, s, h));
        }
      }
    }
  }

  /** The leak, concretely: the socket fails, a claim arrives late, and closing again does not free the group. */
  lemma LateClaimLeaksLock()
    ensures var n := SocketGone(Connected(EmptyNet, 1), 1, false);
            var t := SocketGone(Claimed(n, 1, "alpha", 5), 1, true);
            Owns(t, 1, "alpha") && !Holds(t, 1, "alpha")
  {}

  lemma RoleAgrees(n: Net, t: Net)
    requires Agreement(n) && t.locks == n.locks && t.index == n.index
    requires forall sid: nat, g: string :: Holds(t, sid, g) <==> Holds(n, sid, g)
    ensures Agreement(t)
  {
    forall s: nat, h: string ensures (Owns(t, s, h) <==> Holds(t, s, h)) && (Indexed(t, s, h) <==> Holds(t, s, h)) {
      assert (Owns(n, s, h) <==> Holds(n, s, h)) && (Indexed(n, s, h) <==> Holds(n, s, h));
    }
  }

  lemma ClosedAgrees(n: Net, sid: nat)
    requires Agreement(n) && sid in n.sessions
    ensures Agreement(Closed(n, sid))
    ensures Closed(n, sid).sessions.Keys == n.sessions.Keys && Closed(n, sid).sessions[sid].closed
    ensures forall g :: !Holds(Closed(n, sid), sid, g) && !Owns(Closed(n, sid), sid, g)
    ensures forall tid, g | tid != sid :: Holds(Closed(n, sid), tid, g) <==> Holds(n, tid, g)
  {
    var t := Closed(n, sid);
    forall s: nat, h: string ensures (Owns(t, s, h) <==> Holds(t, s, h)) && (Indexed(t, s, h) <==> Holds(t, s, h)) {
      assert (Owns(n, s, h) <==> Holds(n, s, h)) && (Indexed(n, s, h) <==> Holds(n, s, h));
    }
    forall g ensures !Holds(t, sid, g) && !Owns(t, sid, g) { assert Owns(t, sid, g) <==> Holds(t, sid, g); }
  }

  lemma ShutAgrees(n: Net, sid: nat, client: bool)
    requires Agreement(n) && sid in n.sessions
    ensures Agreement(Shut(n, sid, client))
  {
    RoleAgrees(n, Shut(n, sid, client));
  }

  lemma GoneAgrees(n: Net, sid: nat, final: bool)
    requires Agreement(n) && sid in n.sessions
    ensures Agreement(SocketGone(n, sid, final)) && Agreement(Disconnected(n, sid))
    ensures forall g :: !Owns(SocketGone(n, sid, final), sid, g) && !Owns(Disconnected(n, sid), sid, g)
  {
    ShutAgrees(n, sid, n.sessions[sid].client && !final);
    ClosedAgrees(Shut(n, sid, n.sessions[sid].client && !final), sid);
    ClosedAgrees(n, sid);
    ShutAgrees(Closed(n, sid), sid, Closed(n, sid).sessions[sid].client);
  }

  lemma ConnectAgrees(n: Net, sid: nat)
    requires Agreement(n) && sid !in n.sessions
    ensures Agreement(Connected(n, sid))
  {
    RoleAgrees(n, Connected(n, sid));
  }

  lemma SubscribeAgrees(n: Net, sid: nat)
    requires Agreement(n) && sid in n.sessions && n.sessions[sid].role.NoRole?
    ensures Agreement(Subscribed(n, sid))
  {
    RoleAgrees(n, Subscribed(n, sid));
  }

  lemma HeartbeatAgrees(n: Net, sid: nat)
    requires Agreement(n)
    ensures Agreement(Ticked(n))
    ensures sid in n.sessions ==> Agreement(Ponged(n, sid))
  {
    RoleAgrees(n, Ticked(n));
    if sid in n.sessions { RoleAgrees(n, Ponged(n, sid)); }
  }

  // ---- steps and runs ----

  datatype NetStep =
    | Connect(sid: nat)
    | Claim(sid: nat, group: string, now: int)
    | Subscribe(sid: nat)
    | Gone(sid: nat, final: bool)
    | Disconnect(sid: nat)
    | Tick
    | Pong(sid: nat)

  /** Sessions are told apart; frames come from open sessions only; a role is taken once. */
  predicate NetEnabled(n: Net, st: NetStep) {
    match st
    case Connect(sid) => sid !in n.sessions
    case Claim(sid, _, _) => sid in n.sessions && !n.sessions[sid].closed && n.sessions[sid].role.NoRole?
    case Subscribe(sid) => sid in n.sessions && !n.sessions[sid].closed && n.sessions[sid].role.NoRole?
    case Gone(sid, _) => sid in n.sessions
    case Disconnect(sid) => sid in n.sessions
    case Tick => true
    case Pong(sid) => sid in n.sessions
  }

  function NetApply(n: Net, st: NetStep): Net
    requires NetEnabled(n, st)
  {
    match st
    case Connect(sid) => Connected(n, sid)
    case Claim(sid, g, now) => Claimed(n, sid, g, now)
    case Subscribe(sid) => Subscribed(n, sid)
    case Gone(sid, final) => SocketGone(n, sid, final)
    case Disconnect(sid) => Disconnected(n, sid)
    case Tick => Ticked(n)
    case Pong(sid) => Ponged(n, sid)
  }

  lemma StepAgrees(n: Net, st: NetStep)
    requires Agreement(n) && NetEnabled(n, st)
    ensures Agreement(NetApply(n, st))
  {
    match st
    case Connect(sid) => ConnectAgrees(n, sid);
    case Claim(sid, g, now) => ClaimAgrees(n, sid, g, now);
    case Subscribe(sid) => SubscribeAgrees(n, sid);
    case Gone(sid, final) => GoneAgrees(n, sid, final);
    case Disconnect(sid) => GoneAgrees(n, sid, true);
    case Tick => HeartbeatAgrees(n, 0);
    case Pong(sid) => HeartbeatAgrees(n, sid);
  }

  predicate NetCanRun(n: Net, steps: seq<NetStep>)
    decreases |steps|
  {
    steps == [] || (NetEnabled(n, steps[0]) && NetCanRun(NetApply(n, steps[0]), steps[1..]))
  }

  function NetRun(n: Net, steps: seq<NetStep>): Net
    requires NetCanRun(n, steps)
    decreases |steps|
  {
    if steps == [] then n else NetRun(NetApply(n, steps[0]), steps[1..])
  }

  lemma {:induction false} RunAgrees(n: Net, steps: seq<NetStep>)
    requires Agreement(n) && NetCanRun(n, steps)
    ensures Agreement(NetRun(n, steps))
    decreases |steps|
  {
    if steps != [] {
      StepAgrees(n, steps[0]);
      RunAgrees(NetApply(n, steps[0]), steps[1..]);
    }
  }

  lemma NobodyHoldsAtBoot()
    ensures Agreement(EmptyNet)
  {}

  /** From boot on, in every state of every run, lock, index and roles agree. */
  lemma HolderAgreement(steps: seq<NetStep>)
    requires NetCanRun(EmptyNet, steps)
    ensures Agreement(NetRun(EmptyNet, steps))
  {
    NobodyHoldsAtBoot();
    RunAgrees(EmptyNet, steps);
  }

  lemma {:induction false} RunCat(n: Net, xs: seq<NetStep>, ys: seq<NetStep>)
    requires NetCanRun(n, xs) && NetCanRun(NetRun(n, xs), ys)
    ensures NetCanRun(n, xs + ys) && NetRun(n, xs + ys) == NetRun(NetRun(n, xs), ys)
    decreases |xs|
  {
    if xs == [] {
      assert xs + ys == ys;
    } else {
      assert (xs + ys)[1..] == xs[1..] + ys;
      RunCat(NetApply(n, xs[0]), xs[1..], ys);
    }
  }

  lemma OneStep(n: Net, st: NetStep)
    requires NetEnabled(n, st)
    ensures NetCanRun(n, [st]) && NetRun(n, [st]) == NetApply(n, st)
  {
    assert [st][1..] == [];
    assert NetCanRun(NetApply(n, st), []);
  }

  // ---- heartbeat ----

  /** Between any two ticks there is a pong of `sid`; `fresh`: one came since the last tick. */
  predicate Answers(steps: seq<NetStep>, sid: nat, answered: bool) {
    if steps == [] then true
    else match steps[0]
      case Tick => answered && Answers(steps[1..], sid, false)
      case Pong(s) => Answers(steps[1..], sid, answered || s == sid)
      case _ => Answers(steps[1..], sid, answered)
  }

  /** Neither its socket nor a reset ended the session. */
  predicate Undisturbed(steps: seq<NetStep>, sid: nat) {
    forall i | 0 <= i < |steps| :: steps[i] != Disconnect(sid) && !(steps[i].Gone? && steps[i].sid == sid) && steps[i] != Connect(sid)
  }

  /** A client that always answers in time is never dropped. */
  lemma {:induction false} PongingKeepsAlive(n: Net, steps: seq<NetStep>, sid: nat)
    requires NetCanRun(n, steps) && Undisturbed(steps, sid) && sid in n.sessions
    requires n.sessions[sid].open && n.sessions[sid].client && Answers(steps, sid, n.sessions[sid].alive)
    ensures sid in NetRun(n, steps).sessions && NetRun(n, steps).sessions[sid].open
    decreases |steps|
  {
    if steps != [] {
      var t := NetApply(n, steps[0]);
      assert steps[0] != Disconnect(sid) && !(steps[0].Gone? && steps[0].sid == sid) && steps[0] != Connect(sid);
      assert Undisturbed(steps[1..], sid);
      if steps[0].Disconnect? || steps[0].Gone? { OthersStay(n, steps[0], sid); }
      PongingKeepsAlive(t, steps[1..], sid);
    }
  }

  /** A client that connects and then always answers in time is never dropped; until it asks, it has no role. */
  lemma NewClientStays(n: Net, steps: seq<NetStep>, sid: nat)
    requires sid !in n.sessions && NetCanRun(Connected(n, sid), steps) && Undisturbed(steps, sid) && Answers(steps, sid, true)
    ensures Connected(n, sid).sessions[sid].role.NoRole? && !Connected(n, sid).sessions[sid].closed
    ensures sid in NetRun(Connected(n, sid), steps).sessions && NetRun(Connected(n, sid), steps).sessions[sid].open
  {
    PongingKeepsAlive(Connected(n, sid), steps, sid);
  }

  lemma OthersStay(n: Net, st: NetStep, sid: nat)
    requires NetEnabled(n, st) && (st.Disconnect? || st.Gone?) && st.sid != sid && sid in n.sessions
    ensures sid in NetApply(n, st).sessions && NetApply(n, st).sessions[sid] == n.sessions[sid]
  {}

  /** From one heartbeat to a later one the client sends no pong. */
  predicate SilentInterval(steps: seq<NetStep>, sid: nat) {
    |steps| >= 2 && steps[0] == Tick && steps[|steps| - 1] == Tick && forall i | 0 <= i < |steps| :: steps[i] != Pong(sid)
  }

  /** Already ended, or it will be at the next heartbeat unless a pong comes first. */
  predicate Doomed(s: Session) { !s.open || (s.client && !s.alive) }

  lemma StepDooms(n: Net, st: NetStep, sid: nat)
    requires NetEnabled(n, st) && sid in n.sessions && st != Pong(sid)
    requires Doomed(n.sessions[sid]) || (st.Tick? && n.sessions[sid].client)
    ensures sid in NetApply(n, st).sessions && Doomed(NetApply(n, st).sessions[sid])
    ensures st.Tick? && Doomed(n.sessions[sid]) ==> !NetApply(n, st).sessions[sid].open
  {}

  lemma {:induction false} DoomedIsEnded(n: Net, steps: seq<NetStep>, sid: nat)
    requires NetCanRun(n, steps) && steps != [] && steps[|steps| - 1] == Tick && sid in n.sessions && Doomed(n.sessions[sid])
    requires forall i | 0 <= i < |steps| :: steps[i] != Pong(sid)
    ensures sid in NetRun(n, steps).sessions && !NetRun(n, steps).sessions[sid].open
    decreases |steps|
  {
    StepDooms(n, steps[0], sid);
    if |steps| == 1 {
      OneStep(n, Tick);
      assert steps == [Tick];
    } else {
      DoomedIsEnded(NetApply(n, steps[0]), steps[1..], sid);
    }
  }

  /**
   A client that sends no pong between two heartbeats, whatever else happens meanwhile, is ended by the second, and
   once its close event arrives it holds no group.
   */
  lemma SilentIsDropped(n: Net, steps: seq<NetStep>, sid: nat, g: string)
    requires Agreement(n) && sid in n.sessions && n.sessions[sid].client
    requires NetCanRun(n, steps) && SilentInterval(steps, sid)
    ensures sid in NetRun(n, steps).sessions && !NetRun(n, steps).sessions[sid].open
    ensures var t := SocketGone(NetRun(n, steps), sid, true);
            Agreement(t) && !Owns(t, sid, g) && !Indexed(t, sid, g) && !t.sessions[sid].client
  {
    SilentIsEnded(n, steps, sid);
    RunAgrees(n, steps);
    EndedHoldsNothing(NetRun(n, steps), sid, g);
  }

  lemma SilentIsEnded(n: Net, steps: seq<NetStep>, sid: nat)
    requires sid in n.sessions && n.sessions[sid].client && NetCanRun(n, steps) && SilentInterval(steps, sid)
    ensures sid in NetRun(n, steps).sessions && !NetRun(n, steps).sessions[sid].open
  {
    StepDooms(n, Tick, sid);
    DoomedIsEnded(Ticked(n), steps[1..], sid);
  }

  lemma EndedHoldsNothing(n: Net, sid: nat, g: string)
    requires Agreement(n) && sid in n.sessions
    ensures var t := SocketGone(n, sid, true);
            Agreement(t) && !Owns(t, sid, g) && !Indexed(t, sid, g) && !t.sessions[sid].client
  {
    GoneAgrees(n, sid, true);
    var t := SocketGone(n, sid, true);
    assert Indexed(t, sid, g) <==> Holds(t, sid, g);
    assert Owns(t, sid, g) <==> Holds(t, sid, g);
  }

  // ---- the objects ----

  /** One active session per group; in memory only, empty on boot. */
  class LockTable {
    var locks: map<string, Lock>

    constructor ()
      ensures locks == map[]
    {
      locks := map[];
    }

    method Claim(g: string, owner: nat, now: int) returns (r: ClaimResult)
      modifies this
      ensures (locks, r) == LockClaim(old(locks), g, owner, now)
      ensures r.Granted? <==> g !in old(locks)
    {
      if g in locks { return Refused(locks[g].since); }
      locks := locks[g := Lock(owner, now)];
      return Granted(now);
    }

    method Release(g: string, owner: nat) returns (released: bool)
      modifies this
      ensures locks == LockRelease(old(locks), g, owner)
      ensures released <==> locks != old(locks)
    {
      if g !in locks || locks[g].owner != owner { return false; }
      locks := locks - {g};
      assert g in old(locks) && g !in locks;
      return true;
    }
  }

  /** Which open session holds each group. */
  class SessionIndex {
    var byGroup: map<string, nat>

    constructor ()
      ensures byGroup == map[]
    {
      byGroup := map[];
    }

    method Add(g: string, sid: nat)
      modifies this
      ensures byGroup == old(byGroup)[g := sid]
    {
      byGroup := byGroup[g := sid];
    }

    method Remove(g: string, sid: nat)
      modifies this
      ensures byGroup == IndexRemove(old(byGroup), g, sid)
    {
      if g in byGroup && byGroup[g] == sid { byGroup := byGroup - {g}; }
    }
  }

  /** One connection's role, over the shared lock table and index. */
  class SessionObject {
    const sid: nat
    const lock: LockTable
    const index: SessionIndex
    var role: Role
    var closed: bool

    constructor (sid: nat, lock: LockTable, index: SessionIndex)
      ensures this.sid == sid && this.lock == lock && this.index == index && role == NoRole && !closed
    {
      this.sid, this.lock, this.index, role, closed := sid, lock, index, NoRole, false;
    }

    /** Whether this session is what the lock and the index say about group `g`. */
    ghost predicate Consistent(g: string)
      reads this, lock, index
    {
      && ((g in lock.locks && lock.locks[g].owner == sid) <==> (!closed && role == GroupRole(g)))
      && ((g in index.byGroup && index.byGroup[g] == sid) <==> (!closed && role == GroupRole(g)))
    }

    /** A claim frame: takes a free group, keeps everything if the group is held or the socket has a role. */
    method Claim(g: string, exists_: bool, now: int) returns (claimed: bool)
      requires !closed && forall h :: Consistent(h)
      modifies this, lock, index
      ensures forall h :: Consistent(h)
      ensures claimed <==> old(role).NoRole? && exists_ && g !in old(lock.locks)
      ensures claimed ==> role == GroupRole(g) && lock.locks == old(lock.locks)[g := Lock(sid, now)] && index.byGroup == old(index.byGroup)[g := sid]
      ensures !claimed ==> role == old(role) && lock.locks == old(lock.locks) && index.byGroup == old(index.byGroup)
      ensures closed == old(closed)
    {
      if !role.NoRole? || !exists_ { return false; }
      var r := lock.Claim(g, sid, now);
      if r.Granted? {
        role := GroupRole(g);
        index.Add(g, sid);
      }
      forall h ensures Consistent(h) { assert old(Consistent(h)); }
      return r.Granted?;
    }

    /** The socket closed; safe to call twice. */
    method Close()
      requires forall h :: Consistent(h)
      modifies this, lock, index
      ensures closed && role == old(role) && forall h :: Consistent(h)
      ensures lock.locks == if old(!closed && role.GroupRole?) then LockRelease(old(lock.locks), role.group, sid) else old(lock.locks)
      ensures index.byGroup == if old(!closed && role.GroupRole?) then IndexRemove(old(index.byGroup), role.group, sid) else old(index.byGroup)
    {
      if closed { return; }
      closed := true;
      if role.GroupRole? {
        var _ := lock.Release(role.group, sid);
        index.Remove(role.group, sid);
      }
      forall h ensures Consistent(h) { assert old(Consistent(h)); }
    }
  }

  /** The sockets the server tracks, and whether each answered since the last heartbeat. */
  class WsServer {
    var sessions: map<nat, Session>

    constructor ()
      ensures sessions == map[]
    {
      sessions := map[];
    }

    /** One client after the other: terminate the silent, ping the others. */
    method Round() returns (next: map<nat, Session>)
      ensures next == map sid | sid in sessions :: TickOne(sessions[sid])
    {
      var todo := sessions.Keys;
      next := sessions;
      while todo != {}
        invariant todo <= sessions.Keys && next.Keys == sessions.Keys
        invariant forall sid | sid in sessions :: next[sid] == if sid in todo then sessions[sid] else TickOne(sessions[sid])
        decreases |todo|
      {
        var sid :| sid in todo;
        var s := sessions[sid];
        if s.client && !s.alive {
          next := next[sid := s.(open := false)];
        } else if s.client {
          next := next[sid := s.(alive := false)];
        }
        todo := todo - {sid};
      }
    }

    method Heartbeat()
      modifies this
      ensures forall n: Net | n.sessions == old(sessions) :: sessions == Ticked(n).sessions
    {
      sessions := Round();
    }

    method Pong(sid: nat)
      requires sid in sessions
      modifies this
      ensures forall n: Net | n.sessions == old(sessions) :: sessions == Ponged(n, sid).sessions
    {
      sessions := sessions[sid := sessions[sid].(alive := true)];
    }
  }
}
