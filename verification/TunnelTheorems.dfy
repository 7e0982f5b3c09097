// The properties of MaintainTunnel over every interleaving of its threads.
module TunnelTheorems {
  import opened Basics
  import opened Delays
  import opened Connect
  import opened Tunnel
  import opened TunnelSessions
  import opened TunnelBuffers
  import opened TunnelPackets
  import opened TunnelMain

  ghost predicate Inv(c: Config, s: State) {
    && SessionsInv(s)
    && BuffersInv(c, s)
    && PacketsInv(c, s)
    && NetInv(s)
    && DelayInv(c, s)
  }

  lemma InvStep(c: Config, s: State, a: Action)
    requires Inv(c, s) && Enabled(c, s, a)
    ensures Inv(c, Apply(c, s, a))
  {
    SessionsStep(c, s, a);
    BuffersStep(c, s, a);
    PacketsStep(c, s, a);
    NetStep(c, s, a);
    DelayStep(c, s, a);
  }

  lemma {:induction false} InvRun(c: Config, s: State, run: seq<Action>)
    requires Inv(c, s) && Run(c, s, run).Some?
    ensures Inv(c, Run(c, s, run).value)
    decreases |run|
  {
    if run == [] {
    } else {
      InvStep(c, s, run[0]);
      InvRun(c, Apply(c, s, run[0]), run[1..]);
    }
  }

  lemma InvInitial(c: Config)
    ensures Inv(c, Initial(c))
  {
    SessionsStart(c);
    BuffersStart(c);
    PacketsStart(c);
    NetStart(c);
    DelayStart(c);
  }

  lemma InvReachable(c: Config, s: State)
    requires Reachable(c, s)
    ensures Inv(c, s)
  {
    var run :| Run(c, Initial(c), run) == Some(s);
    InvInitial(c);
    InvRun(c, Initial(c), run);
  }

  // ---- buffers ----

  ghost function Holders(s: State, b: BufId): set<nat> {
    set i: nat | i < |s.sessions| && OutHolds(s.sessions[i].out) == Some(b)
  }

  /**
   * Every backing array ever made is in exactly one place: once in the pool, let go by the pool,
   * with the main loop, or with exactly one outbound pump, however many stale pumps there are.
   */
  lemma BufferOwnership(c: Config, s: State, b: BufId)
    requires Reachable(c, s) && b < |s.mem|
    ensures |s.mem[b]| == c.mtu + 1
    ensures s.pool[b] + One(b in s.collected) + One(MainHolds(s.main) == Some(b)) + |Holders(s, b)| == 1
  {
    InvReachable(c, s);
    assert s.pool[b] <= 1;
    if i: nat :| i in Holders(s, b) {
      assert Holders(s, b) == {i};
    } else {
      assert Holders(s, b) == {};
      if Loose(s, b) {
        assert Held(s, b);
        assert MainHolds(s.main) == Some(b) by {
          assert forall i: nat :: i < |s.sessions| && OutHolds(s.sessions[i].out) == Some(b) ==> i in Holders(s, b);
        }
      }
    }
  }

  /** The region [1, 1+n) that a pump hands to the connection lies inside its buffer and within the MTU. */
  lemma RegionInsideBuffer(c: Config, s: State, i: nat)
    requires Reachable(c, s) && i < |s.sessions| && s.sessions[i].out.Passed?
    ensures var out := s.sessions[i].out;
            && out.buf < |s.mem| && out.len <= c.mtu && out.k < |s.tun|
            && 1 + out.len <= |s.mem[out.buf]|
            && s.mem[out.buf][1..1 + out.len] == s.tun[out.k]
  {
    InvReachable(c, s);
    assert SessionPackets(s, i, s.sessions[i]);
  }

  // ---- packets ----

  /** What a session's connection is handed is an in-order selection of the TUN stream, byte for byte. */
  lemma HandedInOrderUnchanged(c: Config, s: State, i: nat)
    requires Reachable(c, s) && i < |s.sessions|
    ensures var e := s.sessions[i];
            && |e.wire| == |e.handed|
            && (forall x :: 0 <= x < |e.handed| ==> e.handed[x] < |s.tun| && e.wire[x] == s.tun[e.handed[x]])
            && (forall x, y :: 0 <= x < y < |e.handed| ==> e.handed[x] < e.handed[y])
  {
    InvReachable(c, s);
    assert SessionPackets(s, i, s.sessions[i]);
  }

  /** No packet is handed to two sessions. */
  lemma HandedOnce(c: Config, s: State, i: nat, j: nat, x: nat, y: nat)
    requires Reachable(c, s) && i < |s.sessions| && j < |s.sessions| && i != j
    requires x < |s.sessions[i].handed| && y < |s.sessions[j].handed|
    ensures s.sessions[i].handed[x] != s.sessions[j].handed[y]
  {
    InvReachable(c, s);
    assert SessionPackets(s, i, s.sessions[i]) && SessionPackets(s, j, s.sessions[j]);
  }

  ghost function WokeIdles(fate: seq<Fate>): set<nat> {
    set k: nat | k < |fate| && fate[k].WokeIdle?
  }

  ghost function Accepteds(fate: seq<Fate>): set<nat> {
    set k: nat | k < |fate| && fate[k].Accepted?
  }

  ghost function Faileds(fate: seq<Fate>): set<nat> {
    set k: nat | k < |fate| && fate[k].Failed?
  }

  ghost function Droppeds(fate: seq<Fate>): set<nat> {
    set k: nat | k < |fate| && fate[k].Dropped?
  }

  ghost function InFlights(fate: seq<Fate>): set<nat> {
    set k: nat | k < |fate| && fate[k].InFlight?
  }

  ghost function Carriers(s: State): set<nat> {
    set i: nat | i < |s.sessions| && Carried(s.sessions[i].out).Some?
  }

  ghost function Quitters(s: State): set<nat> {
    set i: nat | i < |s.sessions| && (s.sessions[i].out.Discarding? || s.sessions[i].out == Exited(false))
  }

  /** A set is no larger than another into which a function maps it one to one. */
  lemma {:induction false} InjectionBounds(xs: set<nat>, ys: set<nat>, f: nat -> nat)
    requires forall x :: x in xs ==> f(x) in ys
    requires forall x, y :: x in xs && y in xs && f(x) == f(y) ==> x == y
    ensures |xs| <= |ys|
    decreases xs
  {
    if xs == {} {
    } else {
      var x :| x in xs;
      InjectionBounds(xs - {x}, ys - {f(x)}, f);
    }
  }

  lemma InFlightAreCarried(c: Config, s: State)
    requires PacketsInv(c, s)
    ensures |InFlights(s.fate)| == |Carriers(s)|
  {
    var flying, carriers := InFlights(s.fate), Carriers(s);
    var byPacket := (k: nat) => if k < |s.fate| && s.fate[k].InFlight? then s.fate[k].session else 0;
    var bySession := (i: nat) => if i < |s.sessions| && Carried(s.sessions[i].out).Some? then Carried(s.sessions[i].out).value else 0;
    forall k | k in flying ensures byPacket(k) in carriers && bySession(byPacket(k)) == k {
      assert FateOk(s, k);
    }
    forall i | i in carriers ensures bySession(i) in flying && byPacket(bySession(i)) == i {
      assert SessionPackets(s, i, s.sessions[i]);
    }
    InjectionBounds(flying, carriers, byPacket);
    InjectionBounds(carriers, flying, bySession);
  }

  ghost function Below(n: nat): (r: set<nat>)
    ensures |r| == n && forall k: nat :: k in r <==> k < n
  {
    if n == 0 then {} else Below(n - 1) + {n - 1}
  }

  lemma DisjointSizes(x: set<nat>, y: set<nat>)
    requires x !! y
    ensures |x + y| == |x| + |y|
  {
  }

  lemma FatesDisjoint(fate: seq<Fate>)
    ensures WokeIdles(fate) !! Accepteds(fate)
    ensures WokeIdles(fate) + Accepteds(fate) !! Faileds(fate)
    ensures WokeIdles(fate) + Accepteds(fate) + Faileds(fate) !! Droppeds(fate)
    ensures WokeIdles(fate) + Accepteds(fate) + Faileds(fate) + Droppeds(fate) !! InFlights(fate)
  {
  }

  ghost function Fated(fate: seq<Fate>): set<nat> {
    WokeIdles(fate) + Accepteds(fate) + Faileds(fate) + Droppeds(fate) + InFlights(fate)
  }

  lemma FatesCover(fate: seq<Fate>)
    ensures Fated(fate) == Below(|fate|)
  {
    forall k: nat ensures k in Fated(fate) <==> k in Below(|fate|) {
      FateCounted(fate, k);
    }
  }

  lemma FateCounted(fate: seq<Fate>, k: nat)
    ensures k in Fated(fate) <==> k < |fate|
  {
    if k < |fate| {
      match fate[k]
      case WokeIdle => assert k in WokeIdles(fate);
      case Accepted(_) => assert k in Accepteds(fate);
      case Failed(_) => assert k in Faileds(fate);
      case Dropped(_) => assert k in Droppeds(fate);
      case InFlight(_) => assert k in InFlights(fate);
    }
  }

  lemma FatesPartition(fate: seq<Fate>)
    ensures |fate| == |WokeIdles(fate)| + |Accepteds(fate)| + |Faileds(fate)| + |Droppeds(fate)| + |InFlights(fate)|
  {
    var w, a, f, d, i := WokeIdles(fate), Accepteds(fate), Faileds(fate), Droppeds(fate), InFlights(fate);
    FatesDisjoint(fate);
    FatesCover(fate);
    DisjointSizes(w, a);
    DisjointSizes(w + a, f);
    DisjointSizes(w + a + f, d);
    DisjointSizes(w + a + f + d, i);
  }

  /** Each pump that quits unreported drops at most one packet. */
  lemma DropsBounded(c: Config, s: State)
    requires PacketsInv(c, s)
    ensures |Droppeds(s.fate)| <= |Quitters(s)|
  {
    var dropper := (k: nat) => if k < |s.fate| && s.fate[k].Dropped? then s.fate[k].session else 0;
    forall k | k in Droppeds(s.fate) ensures dropper(k) in Quitters(s) {
      assert FateOk(s, k);
    }
    forall k, l | k in Droppeds(s.fate) && l in Droppeds(s.fate) && dropper(k) == dropper(l) ensures k == l {
      assert s.fate[k] == s.fate[l];
    }
    InjectionBounds(Droppeds(s.fate), Quitters(s), dropper);
  }

  /**
   * Conservation: the packets read from the TUN are those that woke the idle loop, those accepted
   * by WritePacketBuffer, those it failed on, those dropped at the cancel check, and one for each
   * pump that has a packet in its buffer. Each pump that quits unreported drops at most one.
   */
  lemma PacketConservation(c: Config, s: State)
    requires Reachable(c, s)
    ensures |s.tun| == |WokeIdles(s.fate)| + |Accepteds(s.fate)| + |Faileds(s.fate)|
                     + |Droppeds(s.fate)| + |Carriers(s)|
    ensures |Droppeds(s.fate)| <= |Quitters(s)|
    ensures forall i :: i in Quitters(s) ==> s.ctxDone || s.sessions[i].cancelled
  {
    InvReachable(c, s);
    FatesPartition(s.fate);
    InFlightAreCarried(c, s);
    DropsBounded(c, s);
  }

  // ---- channels and sessions ----

  /** A pump that has something to report can send it at once, even a stale one whose channel nobody reads. */
  lemma SendsNeverBlock(c: Config, s: State, i: nat)
    requires Reachable(c, s) && i < |s.sessions|
    ensures s.sessions[i].out.Sending? ==> Enabled(c, s, Out(i, OSend))
    ensures s.sessions[i].inb.Reporting? ==> Enabled(c, s, In(i, ISend))
    ensures |s.sessions[i].errCh| <= 2
  {
    InvReachable(c, s);
    assert ChannelOk(s, s.sessions[i]);
  }

  /** While main waits at an empty channel, the inbound pump of that session is still running. */
  lemma WaitingHasInbound(c: Config, s: State)
    requires Reachable(c, s) && s.main.Waiting?
    ensures s.sessions != []
    ensures var e := s.sessions[|s.sessions| - 1];
            e.errCh == [] ==> !e.inb.Ended? && (e.out.Exited? ==> s.ctxDone)
  {
    InvReachable(c, s);
    var i := |s.sessions| - 1;
    assert ChannelOk(s, s.sessions[i]) && FlagsOk(s.main, s.sessions[i], true);
  }

  /** Every session but the one main is running has been cancelled and its connection closed. */
  lemma OneSessionUncancelled(c: Config, s: State, i: nat)
    requires Reachable(c, s) && i < |s.sessions|
    requires !s.sessions[i].cancelled || !s.sessions[i].closed
    ensures i == |s.sessions| - 1 && Current(s.main)
  {
    InvReachable(c, s);
    assert FlagsOk(s.main, s.sessions[i], i == |s.sessions| - 1);
  }

  ghost function CancelledSessions(s: State): set<nat> {
    set i: nat | i < |s.sessions| && s.sessions[i].cancelled
  }

  /** The context is cancelled and main has not cancelled the session it is in. */
  ghost predicate CancelledFromOutside(s: State) {
    s.ctxDone && exists i :: 0 <= i < |s.sessions| && !s.sessions[i].cancelled
  }

  /** The packets dropped at cancel checks are at most the sessions ended, and one more in the session that a cancelled context interrupts. */
  lemma DropsPerSession(c: Config, s: State)
    requires Reachable(c, s)
    ensures |Droppeds(s.fate)| <= |CancelledSessions(s)| + One(CancelledFromOutside(s))
  {
    PacketConservation(c, s);
    var ended := CancelledSessions(s);
    var last := |s.sessions| - 1;
    forall i | i in Quitters(s) && i !in ended ensures CancelledFromOutside(s) && i == last {
      OneSessionUncancelled(c, s, i);
    }
    if CancelledFromOutside(s) {
      assert Quitters(s) <= ended + {last};
      SubsetSize(Quitters(s), ended + {last});
    } else {
      assert Quitters(s) <= ended;
      SubsetSize(Quitters(s), ended);
    }
  }

  lemma {:induction false} SubsetSize(x: set<nat>, y: set<nat>)
    requires x <= y
    ensures |x| <= |y|
    decreases x
  {
    if x != {} {
      var e :| e in x;
      SubsetSize(x - {e}, y - {e});
    }
  }

  /** The next statement of an outbound pump, with the answers of the device and the connection. */
  function NextStatement(out: OutPc, read: Option<Packet>, r: WriteResult): OutAct
    requires !out.Exited?
  {
    match out
    case Checking => OCheck
    case Getting => OGet(None)
    case Reading(_) => if read.Some? then ORead(read.value) else OReadError
    case Unread(_) => OPutUnread
    case Fetched(_, _, _) => ORecheck
    case Discarding(_) => ODiscard
    case Passed(_, _, _) => OCall
    case Writing(_, _) => OReturn(r)
    case Written(_, _) => OPut
    case Echoing => OEcho
    case Sending(_) => OSend
  }

  /** A running outbound pump can always take its next statement, whatever the device and the connection answer. */
  lemma OutboundNeverStuck(c: Config, s: State, i: nat, read: Option<Packet>, r: WriteResult)
    requires Reachable(c, s) && i < |s.sessions| && !s.sessions[i].out.Exited?
    requires read.Some? ==> |read.value| <= c.mtu
    ensures OutEnabled(c, s, i, NextStatement(s.sessions[i].out, read, r))
  {
    InvReachable(c, s);
    assert SessionPackets(s, i, s.sessions[i]) && ChannelOk(s, s.sessions[i]);
    assert OutHolds(s.sessions[i].out).Some? ==> Loose(s, OutHolds(s.sessions[i].out).value);
  }

  // ---- sockets ----

  function Opens(log: seq<Event>, h: Handle): nat {
    multiset(log)[Opened(h)]
  }

  function Closes(log: seq<Event>, h: Handle): nat {
    multiset(log)[Closed(h)]
  }

  lemma {:induction false} OneOfEachKind(g: Holdings, log: seq<Event>)
    requires ReplayAll(g, log).Some?
    requires forall x, y :: x in g.open && y in g.open && x.kind == y.kind ==> x == y
    ensures var o := ReplayAll(g, log).value.open;
            forall x, y :: x in o && y in o && x.kind == y.kind ==> x == y
    decreases |log|
  {
    if log == [] {
    } else {
      OneOfEachKind(Replay(g, log[0]).value, log[1..]);
    }
  }

  /**
   * At every instant of every run, not only between steps: a socket, transport or connection is
   * opened at most once and never closed before that or twice, and two of a kind are never open together.
   */
  lemma SocketsDisciplined(c: Config, s: State, p: nat, h: Handle, h': Handle)
    requires Reachable(c, s) && p <= |s.net|
    ensures Closes(s.net[..p], h) <= Opens(s.net[..p], h) <= 1
    ensures h != h' && h.kind == h'.kind && Opens(s.net[..p], h) == 1 && Opens(s.net[..p], h') == 1 ==>
              Closes(s.net[..p], h) == 1 || Closes(s.net[..p], h') == 1
  {
    InvReachable(c, s);
    assert s.net == s.net[..p] + s.net[p..];
    ReplayConcat(NOTHING_OPEN, s.net[..p], s.net[p..]);
    ReplayBalances(NOTHING_OPEN, s.net[..p], h);
    ReplayBalances(NOTHING_OPEN, s.net[..p], h');
    OneOfEachKind(NOTHING_OPEN, s.net[..p]);
  }

  /** At every instant an open connection has its transport open, and an open transport its socket. */
  lemma SocketsNested(c: Config, s: State, p: nat, h: Handle)
    requires Reachable(c, s) && p <= |s.net| && Base(h).Some?
    ensures Opens(s.net[..p], h) > Closes(s.net[..p], h) ==>
              Opens(s.net[..p], Base(h).value) == 1 && Closes(s.net[..p], Base(h).value) == 0
  {
    InvReachable(c, s);
    assert s.net == s.net[..p] + s.net[p..];
    ReplayConcat(NOTHING_OPEN, s.net[..p], s.net[p..]);
    ReplayBalances(NOTHING_OPEN, s.net[..p], h);
    ReplayBalances(NOTHING_OPEN, s.net[..p], Base(h).value);
    ReplayNests(NOTHING_OPEN, s.net[..p]);
  }

  /** At the loop head, asleep, idle or returned, everything that was ever opened has been closed exactly once. */
  lemma SocketsReleased(c: Config, s: State, h: Handle)
    requires Reachable(c, s)
    requires s.main.Head? || s.main.Sleeping? || s.main.Returned? || s.main.IdleGet? || s.main.IdleRead? || s.main.IdlePut?
    ensures Closes(s.net, h) == Opens(s.net, h)
  {
    InvReachable(c, s);
    ReplayBalances(NOTHING_OPEN, s.net, h);
  }

  // ---- delays ----

  /** The sleep after the first j sleeps, from what happened in them and how this iteration ended. */
  function ExpectedSleep(d: int, h: seq<Outcome>, o: Outcome): int {
    match o
    case IdleFailed => ClosedForm(d, Exponent(h))
    case EndpointFailed => ClosedForm(d, Exponent(h))
    case ConnectFailed => Min(60_000_000_000, Pow2(Exponent(h) + 1) * d)
    case SessionLost => d
  }

  /** Every sleep of every run, in nanoseconds, has its closed-form length, and lies between the configured delay and 60 s. */
  lemma SleepTrace(c: Config, s: State, j: nat)
    requires Reachable(c, s) && 0 <= c.reconnectDelay < TWO62 && j < |s.sleeps|
    ensures |s.history| == |s.sleeps|
    ensures s.sleeps[j] == ExpectedSleep(c.reconnectDelay, s.history[..j], s.history[j])
    ensures 0 < c.reconnectDelay <= 60_000_000_000 ==> c.reconnectDelay <= s.sleeps[j] <= 60_000_000_000
  {
    InvReachable(c, s);
    var d, h, o := c.reconnectDelay, s.history[..j], s.history[j];
    DelayClosedForm(d, h);
    BackoffDoubles(d, Exponent(h));
    if 0 < d <= MAX_DELAY {
      SleepWithinBounds(d, h, o);
    }
  }
}
