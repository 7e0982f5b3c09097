// What the main loop keeps: its sockets, transports and connections, and its reconnect delay.
module TunnelMain {
  import opened Basics
  import opened Delays
  import opened Connect
  import opened Tunnel
  import opened TunnelSessions

  /** The handles the main loop owns at a statement: the whole bundle of a call, the bundle without its connection, or none. */
  predicate NetOk(s: State, g: Holdings) {
    && (forall h :: h in g.seen ==> h.n < s.calls)
    && match s.main
       case Rejected(n) => g.open == Bundle(n)
       case Starting(n) => g.open == Bundle(n)
       case Waiting => s.sessions != [] && g.open == Bundle(s.sessions[|s.sessions| - 1].call)
       case Cancelling => s.sessions != [] && g.open == Bundle(s.sessions[|s.sessions| - 1].call)
       case Closing => s.sessions != [] && g.open == Bundle(s.sessions[|s.sessions| - 1].call)
       case Awaiting => s.sessions != [] && g.open == Bundle(s.sessions[|s.sessions| - 1].call) - {Handle(IpConn, s.sessions[|s.sessions| - 1].call)}
       case Releasing => s.sessions != [] && g.open == Bundle(s.sessions[|s.sessions| - 1].call) - {Handle(IpConn, s.sessions[|s.sessions| - 1].call)}
       case _ => g.open == {}
  }

  predicate NetInv(s: State) {
    var g := ReplayAll(NOTHING_OPEN, s.net);
    g.Some? && NetOk(s, g.value)
  }

  lemma NetStart(c: Config)
    ensures NetInv(Initial(c))
  {
  }

  /** Two events logs in a row: IPConn.Close, then closeResult. */
  lemma ReleaseReplays(g: Holdings, n: nat)
    requires g.open == Bundle(n)
    ensures ReplayAll(g, CloseConn(n)) == Some(g.(open := Bundle(n) - {Handle(IpConn, n)}))
    ensures ReplayAll(g.(open := Bundle(n) - {Handle(IpConn, n)}), CloseResult(n)) == Some(g.(open := {}))
    ensures ReplayAll(g, CloseConn(n) + CloseResult(n)) == Some(g.(open := {}))
  {
    var g1 := g.(open := {Handle(Udp, n), Handle(Transport, n)});
    assert g1.open == Bundle(n) - {Handle(IpConn, n)};
    CloseConnReplays(g, n);
    CloseResultReplays(g1, n);
    ReplayConcat(g, CloseConn(n), CloseResult(n));
  }

  lemma NetAppend(s: State, s': State, events: seq<Event>)
    requires NetInv(s) && s'.net == s.net + events
    ensures ReplayAll(NOTHING_OPEN, s'.net) == ReplayAll(ReplayAll(NOTHING_OPEN, s.net).value, events)
  {
    ReplayConcat(NOTHING_OPEN, s.net, events);
  }

  lemma NetConnect(c: Config, s: State, first: Reply, second: Reply)
    requires NetInv(s) && MainEnabled(c, s, MConnect(first, second))
    ensures NetInv(MainApply(c, s, MConnect(first, second)))
  {
    AttemptsReplay(ReplayAll(NOTHING_OPEN, s.net).value, s.calls, first, second);
    NetAppend(s, MainApply(c, s, MConnect(first, second)), Attempts(s.calls, first, second));
  }

  lemma NetReject(c: Config, s: State)
    requires NetInv(s) && MainEnabled(c, s, MReject)
    ensures NetInv(MainApply(c, s, MReject))
  {
    var n, s' := s.main.call, MainApply(c, s, MReject);
    ReleaseReplays(ReplayAll(NOTHING_OPEN, s.net).value, n);
    assert s'.net == s.net + (CloseConn(n) + CloseResult(n));
    NetAppend(s, s', CloseConn(n) + CloseResult(n));
  }

  lemma NetClose(c: Config, s: State)
    requires NetInv(s) && MainEnabled(c, s, MClose)
    ensures NetInv(MainApply(c, s, MClose))
  {
    var n := s.sessions[|s.sessions| - 1].call;
    ReleaseReplays(ReplayAll(NOTHING_OPEN, s.net).value, n);
    NetAppend(s, MainApply(c, s, MClose), CloseConn(n));
  }

  lemma NetRelease(c: Config, s: State)
    requires NetInv(s) && MainEnabled(c, s, MRelease)
    ensures NetInv(MainApply(c, s, MRelease))
  {
    var n, g := s.sessions[|s.sessions| - 1].call, ReplayAll(NOTHING_OPEN, s.net).value;
    ReleaseReplays(g.(open := Bundle(n)), n);
    assert g == g.(open := Bundle(n)).(open := Bundle(n) - {Handle(IpConn, n)});
    NetAppend(s, MainApply(c, s, MRelease), CloseResult(n));
  }

  predicate TouchesNet(m: MainAct) {
    m.MConnect? || m.MReject? || m.MClose? || m.MRelease?
  }

  /** The other steps of main leave the log alone and keep what main holds. */
  lemma QuietKeepsNet(c: Config, s: State, m: MainAct, g: Holdings)
    requires MainEnabled(c, s, m) && !TouchesNet(m) && NetOk(s, g)
    ensures MainApply(c, s, m).net == s.net && NetOk(MainApply(c, s, m), g)
  {
  }

  lemma NetQuiet(c: Config, s: State, m: MainAct)
    requires NetInv(s) && MainEnabled(c, s, m) && !TouchesNet(m)
    ensures NetInv(MainApply(c, s, m))
  {
    QuietKeepsNet(c, s, m, ReplayAll(NOTHING_OPEN, s.net).value);
  }

  lemma NetMainStep(c: Config, s: State, m: MainAct)
    requires NetInv(s) && MainEnabled(c, s, m)
    ensures NetInv(MainApply(c, s, m))
  {
    match m
    case MConnect(first, second) => NetConnect(c, s, first, second);
    case MReject => NetReject(c, s);
    case MClose => NetClose(c, s);
    case MRelease => NetRelease(c, s);
    case _ => NetQuiet(c, s, m);
  }

  lemma NetStep(c: Config, s: State, a: Action)
    requires NetInv(s) && Enabled(c, s, a)
    ensures NetInv(Apply(c, s, a))
  {
    match a
    case Main(m) => NetMainStep(c, s, m);
    case Out(i, o) => OutKeepsMain(c, s, i, o);
    case In(i, n) =>
    case _ =>
  }

  // ---- delay ----

  /** The delay variable against the history, at the statements between which it is reset and doubled. */
  predicate DelayOk(c: Config, s: State) {
    if Current(s.main) then s.delay == c.reconnectDelay
    else if s.main == Sleeping(true) then
      s.delay == c.reconnectDelay && s.history != [] && s.history[|s.history| - 1] == SessionLost
    else if s.main.Returned? then true
    else s.delay == Delay(c.reconnectDelay, s.history)
  }

  ghost predicate DelayInv(c: Config, s: State) {
    && DelayOk(c, s)
    && |s.sleeps| == |s.history|
    && forall j :: 0 <= j < |s.sleeps| ==> s.sleeps[j] == SleepAfter(c.reconnectDelay, s.history[..j], s.history[j])
  }

  lemma DelayStart(c: Config)
    ensures DelayInv(c, Initial(c))
  {
  }

  /** Falling asleep with the delay that the outcome calls for. */
  lemma SleepRecorded(c: Config, s: State, s': State, o: Outcome)
    requires DelayInv(c, s)
    requires s'.main == Sleeping(o == SessionLost) && s'.history == s.history + [o]
    requires s'.delay == SleepAfter(c.reconnectDelay, s.history, o) && s'.sleeps == s.sleeps + [s'.delay]
    ensures DelayInv(c, s')
  {
    assert s'.history[..|s.history|] == s.history;
    forall j | 0 <= j < |s'.sleeps| ensures s'.sleeps[j] == SleepAfter(c.reconnectDelay, s'.history[..j], s'.history[j]) {
      if j < |s.sleeps| {
        assert s'.history[..j] == s.history[..j];
      }
    }
  }

  /** The outcome with which a step of main falls asleep, if it does. */
  function FallsAsleep(c: Config, s: State, m: MainAct): Option<Outcome>
    requires MainEnabled(c, s, m)
  {
    match m
    case MPut => if s.main.ok then None else Some(IdleFailed)
    case MSelect(ok) => if ok then None else Some(EndpointFailed)
    case MConnect(first, second) => if Answer(s.calls, first, second).None? then Some(ConnectFailed) else None
    case MReject => Some(ConnectFailed)
    case MRelease => Some(SessionLost)
    case _ => None
  }

  lemma MainFallsAsleep(c: Config, s: State, m: MainAct)
    requires DelayOk(c, s) && MainEnabled(c, s, m) && FallsAsleep(c, s, m).Some?
    ensures var s', o := MainApply(c, s, m), FallsAsleep(c, s, m).value;
            && s'.main == Sleeping(o == SessionLost) && s'.history == s.history + [o]
            && s'.delay == SleepAfter(c.reconnectDelay, s.history, o) && s'.sleeps == s.sleeps + [s'.delay]
  {
  }

  /** Waking is the step in which a lost session's delay is doubled. */
  lemma WakingDelay(c: Config, s: State, cut: bool)
    requires DelayOk(c, s) && MainEnabled(c, s, MWake(cut))
    ensures DelayOk(c, MainApply(c, s, MWake(cut)))
  {
  }

  lemma AwakeKeepsTrace(c: Config, s: State, m: MainAct)
    requires MainEnabled(c, s, m) && FallsAsleep(c, s, m).None?
    ensures var s' := MainApply(c, s, m);
            && s'.history == s.history && s'.sleeps == s.sleeps
            && (!m.MWake? && !m.MStart? ==> s'.delay == s.delay)
  {
  }

  lemma MainStaysAwake(c: Config, s: State, m: MainAct)
    requires DelayOk(c, s) && MainEnabled(c, s, m) && FallsAsleep(c, s, m).None?
    ensures var s' := MainApply(c, s, m);
            s'.history == s.history && s'.sleeps == s.sleeps && DelayOk(c, s')
  {
    AwakeKeepsTrace(c, s, m);
    if m.MWake? {
      WakingDelay(c, s, m.cut);
    } else if !ChangesSession(m) {
      MainStaysAround(c, s, m);
    }
  }

  lemma DelayMainStep(c: Config, s: State, m: MainAct)
    requires DelayInv(c, s) && MainEnabled(c, s, m)
    ensures DelayInv(c, MainApply(c, s, m))
  {
    if FallsAsleep(c, s, m).Some? {
      MainFallsAsleep(c, s, m);
      SleepRecorded(c, s, MainApply(c, s, m), FallsAsleep(c, s, m).value);
    } else {
      MainStaysAwake(c, s, m);
    }
  }

  lemma DelayStep(c: Config, s: State, a: Action)
    requires DelayInv(c, s) && Enabled(c, s, a)
    ensures DelayInv(c, Apply(c, s, a))
  {
    match a
    case Main(m) => DelayMainStep(c, s, m);
    case Out(i, o) => OutKeepsMain(c, s, i, o);
    case In(i, n) =>
    case _ =>
  }

  // ---- wind-down of main ----

  /** Statements that main can still take once the context is cancelled. */
  function MainRank(m: MainPc): nat {
    match m
    case IdleGet => 13
    case IdleRead(_) => 12
    case IdlePut(_, _) => 11
    case Selecting => 10
    case Connecting => 9
    case Starting(_) => 8
    case Waiting => 7
    case Cancelling => 6
    case Closing => 5
    case Awaiting => 4
    case Rejected(_) => 3
    case Releasing => 3
    case Sleeping(_) => 2
    case Head => 1
    case Returned => 0
  }

  function MainSteps(run: seq<Action>): nat {
    if run == [] then 0 else One(run[0].Main?) + MainSteps(run[1..])
  }

  lemma MainRankFalls(c: Config, s: State, m: MainAct)
    requires s.ctxDone && MainEnabled(c, s, m)
    ensures MainRank(MainApply(c, s, m).main) < MainRank(s.main) && MainApply(c, s, m).ctxDone
  {
    match m
    case MGet(pick) =>
    case MPut =>
    case MConnect(first, second) =>
    case MWake(cut) =>
    case _ =>
  }

  lemma OthersKeepMain(c: Config, s: State, a: Action)
    requires s.ctxDone && Enabled(c, s, a) && !a.Main?
    ensures Apply(c, s, a).main == s.main && Apply(c, s, a).ctxDone
  {
    match a
    case Out(i, o) => OutFrame(c, s, i, o);
    case _ =>
  }

  /**
   * After the context is cancelled main takes at most thirteen more statements, whatever the pumps,
   * the device and the network do: it starts no second round of the loop. It may still wait in one.
   */
  lemma {:induction false} MainShutdown(c: Config, s: State, run: seq<Action>)
    requires s.ctxDone && Run(c, s, run).Some?
    ensures MainSteps(run) <= MainRank(s.main) <= 13
    decreases |run|
  {
    if run == [] {
    } else {
      if run[0].Main? {
        MainRankFalls(c, s, run[0].m);
      } else {
        OthersKeepMain(c, s, run[0]);
      }
      MainShutdown(c, Apply(c, s, run[0]), run[1..]);
    }
  }
}
