// daemon/tunnel.go as an interleaved step machine: the main loop of MaintainTunnel, and for every
// session an outbound pump (TUN to MASQUE) and an inbound pump (MASQUE to TUN). One action is one
// access to shared state: the buffer pool, the TUN device, an error channel, a cancel flag, a
// connection. A pump that outlives the shutdown grace stays in the machine beside later sessions.
module Tunnel {
  import opened Basics
  import opened Delays
  import opened Connect

  type Packet = seq<Byte>

  /** Index of a backing array in State.mem. */
  type BufId = nat

  // internal/consts.go: DatagramContextIDHeadroom
  const HEADROOM: nat := 1

  datatype Config = Config(mtu: nat, reconnectDelay: int, alwaysReconnect: bool)

  datatype MainPc =
    | Head                               // the check of ctx
    | IdleGet                            // bufPool.get while idle
    | IdleRead(buf: BufId)               // blocked in Device.Read while idle
    | IdlePut(buf: BufId, ok: bool)
    | Selecting                          // selectEndpoint
    | Connecting                         // api.ConnectMASQUE
    | Rejected(call: nat)                // connected, but the status is not 200
    | Starting(call: nat)
    | Waiting                            // <-errCh
    | Cancelling                         // cancelPumps
    | Closing                            // IPConn.Close
    | Awaiting                           // wg.Wait against the shutdown grace
    | Releasing                          // closeResult
    | Sleeping(lost: bool)
    | Returned

  datatype PumpError = TunReadError | MasqueWriteClosed | MasqueReadClosed | TunWriteError

  datatype WriteResult = Sent(icmp: bool) | SoftFailure | ConnClosed

  datatype OutPc =
    | Checking
    | Getting
    | Reading(buf: BufId)                            // blocked in Device.Read
    | Unread(buf: BufId)                             // the read failed
    | Fetched(buf: BufId, len: nat, k: nat)          // packet k of the TUN stream is in the buffer
    | Discarding(buf: BufId)                         // cancelled after the read
    | Passed(buf: BufId, len: nat, k: nat)           // not cancelled after the read
    | Writing(buf: BufId, k: nat)                    // inside WritePacketBuffer
    | Written(buf: BufId, result: WriteResult)
    | Echoing                                        // writing an ICMP reply to the TUN
    | Sending(error: PumpError)                      // errCh <-
    | Exited(sent: bool)

  datatype InPc = Receiving | Delivering | Reporting(error: PumpError) | Ended

  /** One connected session; its two pumps, its errCh, its pumpCtx and its connection. */
  datatype Session = Session(
    call: nat,              // the connectH3 call whose handles the session uses
    out: OutPc,
    inb: InPc,
    errCh: seq<PumpError>,
    taken: nat,             // values main has received from errCh
    cancelled: bool,        // cancelPumps was called
    closed: bool,           // IPConn.Close was called
    handed: seq<nat>,       // which TUN packets were handed to WritePacketBuffer, in order
    wire: seq<Packet>)      // and the bytes that were in the buffer at each of those calls

  const CHANNEL_CAPACITY: nat := 2

  /** What became of a packet read from the TUN. */
  datatype Fate =
    | WokeIdle                  // read by the idle main loop, which discards it
    | InFlight(session: nat)    // in a buffer of that session's outbound pump
    | Accepted(session: nat)
    | Failed(session: nat)      // WritePacketBuffer returned an error
    | Dropped(session: nat)     // the cancel check after the read

  datatype State = State(
    main: MainPc,
    delay: int,
    ctxDone: bool,
    pool: multiset<BufId>,
    mem: seq<seq<Byte>>,        // the content of every backing array ever made
    collected: set<BufId>,      // arrays that sync.Pool has let go
    tun: seq<Packet>,           // every packet that Device.Read returned, in order
    fate: seq<Fate>,
    sessions: seq<Session>,
    net: seq<Event>,
    calls: nat,
    history: seq<Outcome>,      // one entry for each sleep
    sleeps: seq<int>)

  function Initial(c: Config): State {
    State(Head, c.reconnectDelay, false, multiset{}, [], {}, [], [], [], [], 0, [], [])
  }

  function NewSession(call: nat): Session {
    Session(call, Checking, Receiving, [], 0, false, false, [], [])
  }

  datatype MainAct =
    | MHead
    | MGet(pick: Option<BufId>)
    | MRead(packet: Packet)
    | MReadError
    | MPut
    | MSelect(ok: bool)
    | MConnect(first: Reply, second: Reply)
    | MReject
    | MStart
    | MReceive
    | MCancel
    | MClose
    | MAwait(grace: bool)
    | MRelease
    | MWake(cut: bool)

  datatype OutAct =
    | OCheck
    | OGet(pick: Option<BufId>)
    | ORead(packet: Packet)
    | OReadError
    | OPutUnread
    | ORecheck
    | ODiscard
    | OCall
    | OReturn(result: WriteResult)
    | OPut
    | OEcho
    | OSend

  datatype InAct = IPacket | ISoftError | IClosed | IDeliver(ok: bool) | ISend

  datatype Action =
    | Main(m: MainAct)
    | Out(i: nat, o: OutAct)
    | In(i: nat, n: InAct)
    | CancelContext
    | Collect(b: BufId)                            // sync.Pool drops an array
    | MainScribble(bytes: seq<Byte>)               // the device writes to main's buffer inside Read
    | Scribble(i: nat, bytes: seq<Byte>)           // the device or the connection, inside Read or WritePacketBuffer

  // ---- buffer pool ----

  function Capacity(c: Config): nat {
    c.mtu + HEADROOM
  }

  predicate CanPick(s: State, pick: Option<BufId>) {
    pick.Some? ==> pick.value in s.pool
  }

  /** bufPool.get: an array of the pool, or a new one of the pool's capacity. */
  function PoolGet(c: Config, s: State, pick: Option<BufId>): (State, BufId)
    requires CanPick(s, pick)
  {
    match pick
    case Some(b) => (s.(pool := s.pool - multiset{b}), b)
    case None => (s.(mem := s.mem + [seq(Capacity(c), _ => 0)]), |s.mem|)
  }

  /** bufPool.put: an array of another capacity is not taken back. */
  function PoolPut(c: Config, s: State, b: BufId): State {
    if b < |s.mem| && |s.mem[b]| == Capacity(c) then s.(pool := s.pool + multiset{b}) else s
  }

  /** A buffer after Device.Read(buf[HEADROOM:]) has put a packet into it. */
  function Filled(content: seq<Byte>, packet: Packet): seq<Byte>
    requires HEADROOM + |packet| <= |content|
  {
    content[..HEADROOM] + packet + content[HEADROOM + |packet|..]
  }

  // ---- main loop ----

  function FallAsleep(s: State, o: Outcome): State {
    s.(main := Sleeping(o == SessionLost), history := s.history + [o], sleeps := s.sleeps + [s.delay])
  }

  function Retry(c: Config, s: State): State {
    FallAsleep(s.(delay := Backoff(s.delay, c.reconnectDelay, MAX_DELAY)), ConnectFailed)
  }

  predicate Fits(c: Config, s: State, b: BufId, packet: Packet) {
    b < |s.mem| && |s.mem[b]| >= HEADROOM + |packet| && |packet| <= c.mtu
  }

  predicate PumpsDone(e: Session) {
    e.out.Exited? && e.inb.Ended?
  }

  predicate MainEnabled(c: Config, s: State, m: MainAct) {
    match m
    case MHead => s.main.Head?
    case MGet(pick) => s.main.IdleGet? && CanPick(s, pick)
    case MRead(packet) => s.main.IdleRead? && Fits(c, s, s.main.buf, packet)
    case MReadError => s.main.IdleRead?
    case MPut => s.main.IdlePut?
    case MSelect(_) => s.main.Selecting?
    case MConnect(_, _) => s.main.Connecting?
    case MReject => s.main.Rejected?
    case MStart => s.main.Starting?
    case MReceive => s.main.Waiting? && s.sessions != [] && s.sessions[|s.sessions| - 1].errCh != []
    case MCancel => s.main.Cancelling? && s.sessions != []
    case MClose => s.main.Closing? && s.sessions != []
    case MAwait(grace) => s.main.Awaiting? && s.sessions != [] && (grace || PumpsDone(s.sessions[|s.sessions| - 1]))
    case MRelease => s.main.Releasing? && s.sessions != []
    case MWake(cut) => s.main.Sleeping? && if cut then s.ctxDone else s.delay > 0 || !s.ctxDone
  }

  function MainApply(c: Config, s: State, m: MainAct): State
    requires MainEnabled(c, s, m)
  {
    var last := |s.sessions| - 1;
    match m
    case MHead =>
      if s.ctxDone then s.(main := Returned)
      else if c.alwaysReconnect then s.(main := Selecting)
      else s.(main := IdleGet)
    case MGet(pick) =>
      var (s', b) := PoolGet(c, s, pick);
      s'.(main := IdleRead(b))
    case MRead(packet) =>
      var b := s.main.buf;
      s.(main := IdlePut(b, true), mem := s.mem[b := Filled(s.mem[b], packet)],
         tun := s.tun + [packet], fate := s.fate + [WokeIdle])
    case MReadError =>
      s.(main := IdlePut(s.main.buf, false))
    case MPut =>
      var s' := PoolPut(c, s, s.main.buf);
      if s.main.ok then s'.(main := Selecting) else FallAsleep(s', IdleFailed)
    case MSelect(ok) =>
      if ok then s.(main := Connecting) else FallAsleep(s, EndpointFailed)
    case MConnect(first, second) =>
      var s' := s.(net := s.net + Attempts(s.calls, first, second), calls := s.calls + Calls(first));
      (match Answer(s.calls, first, second)
       case None => Retry(c, s')
       case Some((status, call)) => s'.(main := if status == 200 then Starting(call) else Rejected(call)))
    case MReject =>
      Retry(c, s.(net := s.net + CloseConn(s.main.call) + CloseResult(s.main.call)))
    case MStart =>
      s.(main := Waiting, delay := c.reconnectDelay, sessions := s.sessions + [NewSession(s.main.call)])
    case MReceive =>
      var e := s.sessions[last];
      s.(main := Cancelling, sessions := s.sessions[last := e.(errCh := e.errCh[1..], taken := e.taken + 1)])
    case MCancel =>
      s.(main := Closing, sessions := s.sessions[last := s.sessions[last].(cancelled := true)])
    case MClose =>
      s.(main := Awaiting, net := s.net + CloseConn(s.sessions[last].call),
         sessions := s.sessions[last := s.sessions[last].(closed := true)])
    case MAwait(_) =>
      s.(main := Releasing)
    case MRelease =>
      FallAsleep(s.(net := s.net + CloseResult(s.sessions[last].call)), SessionLost)
    case MWake(cut) =>
      if cut then s.(main := Returned)
      else if s.main.lost then s.(main := Head, delay := Backoff(s.delay, c.reconnectDelay, MAX_DELAY))
      else s.(main := Head)
  }

  // ---- outbound pump of session i ----

  /** pumpCtx is derived from ctx. */
  predicate PumpCancelled(s: State, e: Session) {
    s.ctxDone || e.cancelled
  }

  predicate OutEnabled(c: Config, s: State, i: nat, o: OutAct) {
    && i < |s.sessions|
    && var e := s.sessions[i];
       match o
       case OCheck => e.out.Checking?
       case OGet(pick) => e.out.Getting? && CanPick(s, pick)
       case ORead(packet) => e.out.Reading? && Fits(c, s, e.out.buf, packet)
       case OReadError => e.out.Reading?
       case OPutUnread => e.out.Unread?
       case ORecheck => e.out.Fetched? && e.out.k < |s.fate|
       case ODiscard => e.out.Discarding?
       case OCall => e.out.Passed? && e.out.buf < |s.mem| && HEADROOM + e.out.len <= |s.mem[e.out.buf]|
       case OReturn(_) => e.out.Writing? && e.out.k < |s.fate|
       case OPut => e.out.Written?
       case OEcho => e.out.Echoing?
       case OSend => e.out.Sending? && |e.errCh| < CHANNEL_CAPACITY
  }

  function SetOut(s: State, i: nat, out: OutPc): State
    requires i < |s.sessions|
  {
    s.(sessions := s.sessions[i := s.sessions[i].(out := out)])
  }

  function OutApply(c: Config, s: State, i: nat, o: OutAct): State
    requires OutEnabled(c, s, i, o)
  {
    var e := s.sessions[i];
    match o
    case OCheck =>
      SetOut(s, i, if PumpCancelled(s, e) then Exited(false) else Getting)
    case OGet(pick) =>
      var (s', b) := PoolGet(c, s, pick);
      SetOut(s', i, Reading(b))
    case ORead(packet) =>
      var b := e.out.buf;
      SetOut(s.(mem := s.mem[b := Filled(s.mem[b], packet)], tun := s.tun + [packet], fate := s.fate + [InFlight(i)]),
             i, Fetched(b, |packet|, |s.tun|))
    case OReadError =>
      SetOut(s, i, Unread(e.out.buf))
    case OPutUnread =>
      SetOut(PoolPut(c, s, e.out.buf), i, Sending(TunReadError))
    case ORecheck =>
      if PumpCancelled(s, e)
      then SetOut(s.(fate := s.fate[e.out.k := Dropped(i)]), i, Discarding(e.out.buf))
      else SetOut(s, i, Passed(e.out.buf, e.out.len, e.out.k))
    case ODiscard =>
      SetOut(PoolPut(c, s, e.out.buf), i, Exited(false))
    case OCall =>
      var bytes := s.mem[e.out.buf][HEADROOM..HEADROOM + e.out.len];
      s.(sessions := s.sessions[i := e.(out := Writing(e.out.buf, e.out.k),
                                        handed := e.handed + [e.out.k], wire := e.wire + [bytes])])
    case OReturn(result) =>
      SetOut(s.(fate := s.fate[e.out.k := if result.Sent? then Accepted(i) else Failed(i)]),
             i, Written(e.out.buf, result))
    case OPut =>
      SetOut(PoolPut(c, s, e.out.buf), i,
             match e.out.result
             case Sent(icmp) => if icmp then Echoing else Checking
             case SoftFailure => Checking
             case ConnClosed => Sending(MasqueWriteClosed))
    case OEcho =>
      SetOut(s, i, Checking)
    case OSend =>
      s.(sessions := s.sessions[i := e.(out := Exited(true), errCh := e.errCh + [e.out.error])])
  }

  /** What a step of outbound pump i leaves alone. */
  lemma OutFrame(c: Config, s: State, i: nat, o: OutAct)
    requires OutEnabled(c, s, i, o)
    ensures var s' := OutApply(c, s, i, o);
            && s'.main == s.main && s'.ctxDone == s.ctxDone && |s'.sessions| == |s.sessions|
            && s'.sessions == s.sessions[i := s'.sessions[i]]
            && s'.sessions[i].cancelled == s.sessions[i].cancelled && s'.sessions[i].closed == s.sessions[i].closed
            && s'.sessions[i].taken == s.sessions[i].taken && s'.sessions[i].inb == s.sessions[i].inb
  {
    match o
    case OGet(pick) =>
    case _ =>
  }

  /** An outbound pump touches nothing that belongs to main. */
  lemma OutKeepsMain(c: Config, s: State, i: nat, o: OutAct)
    requires OutEnabled(c, s, i, o)
    ensures var s' := OutApply(c, s, i, o);
            && s'.main == s.main && s'.net == s.net && s'.calls == s.calls
            && s'.delay == s.delay && s'.history == s.history && s'.sleeps == s.sleeps
            && s'.sessions == s.sessions[i := s'.sessions[i]] && s'.sessions[i].call == s.sessions[i].call
  {
    OutFrame(c, s, i, o);
    match o
    case OGet(pick) =>
    case OPut =>
    case _ =>
  }

  // ---- inbound pump of session i ----

  /** After IPConn.Close every read returns a CloseError: connect-ip-go's contract, an assumption here. */
  predicate InEnabled(s: State, i: nat, n: InAct) {
    && i < |s.sessions|
    && var e := s.sessions[i];
       match n
       case IPacket => e.inb.Receiving? && !e.closed
       case ISoftError => e.inb.Receiving? && !e.closed
       case IClosed => e.inb.Receiving?
       case IDeliver(_) => e.inb.Delivering?
       case ISend => e.inb.Reporting? && |e.errCh| < CHANNEL_CAPACITY
  }

  function InApply(s: State, i: nat, n: InAct): State
    requires InEnabled(s, i, n)
  {
    var e := s.sessions[i];
    var e' :=
      match n
      case IPacket => e.(inb := Delivering)
      case ISoftError => e
      case IClosed => e.(inb := Reporting(MasqueReadClosed))
      case IDeliver(ok) => e.(inb := if ok then Receiving else Reporting(TunWriteError))
      case ISend => e.(inb := Ended, errCh := e.errCh + [e.inb.error]);
    s.(sessions := s.sessions[i := e'])
  }

  // ---- the machine ----

  predicate Enabled(c: Config, s: State, a: Action) {
    match a
    case Main(m) => MainEnabled(c, s, m)
    case Out(i, o) => OutEnabled(c, s, i, o)
    case In(i, n) => InEnabled(s, i, n)
    case CancelContext => true
    case Collect(b) => b in s.pool
    case MainScribble(bytes) =>
      s.main.IdleRead? && s.main.buf < |s.mem| && |bytes| == |s.mem[s.main.buf]|
    case Scribble(i, bytes) =>
      && i < |s.sessions|
      && (s.sessions[i].out.Reading? || s.sessions[i].out.Writing?)
      && s.sessions[i].out.buf < |s.mem| && |bytes| == |s.mem[s.sessions[i].out.buf]|
  }

  function Apply(c: Config, s: State, a: Action): State
    requires Enabled(c, s, a)
  {
    match a
    case Main(m) => MainApply(c, s, m)
    case Out(i, o) => OutApply(c, s, i, o)
    case In(i, n) => InApply(s, i, n)
    case CancelContext => s.(ctxDone := true)
    case Collect(b) => s.(pool := s.pool - multiset{b}, collected := s.collected + {b})
    case MainScribble(bytes) => s.(mem := s.mem[s.main.buf := bytes])
    case Scribble(i, bytes) => s.(mem := s.mem[s.sessions[i].out.buf := bytes])
  }

  /** The state after a run from s, if every action is enabled when its turn comes. */
  function Run(c: Config, s: State, run: seq<Action>): Option<State>
    decreases |run|
  {
    if run == [] then Some(s)
    else if Enabled(c, s, run[0]) then Run(c, Apply(c, s, run[0]), run[1..])
    else None
  }

  /** s can be reached from start-up by some interleaving. */
  ghost predicate Reachable(c: Config, s: State) {
    exists run :: Run(c, Initial(c), run) == Some(s)
  }
}
