// One daemon for each connection, over every sequence of commands and daemon steps.
module LifecycleTheorems {
  import opened Basics
  import opened Lifecycle

  /** The daemon serves its connection or is still coming up or going down; it has not removed its pid file. */
  predicate Active(h: Host, p: Pid) {
    p in h.procs && !h.procs[p].phase.Leaving?
  }

  /** The daemon has a pid file. */
  predicate OnFile(h: Host, p: Pid) {
    Active(h, p) && !h.procs[p].phase.Launched?
  }

  predicate OwnsInterface(h: Host, p: Pid) {
    p in h.procs && (h.procs[p].phase.Up? || h.procs[p].phase.Serving? || h.procs[p].phase.Unfiled?)
  }

  /** The connections in use have interface numbers of their own. */
  predicate DistinctNames(us: set<Uuid>) {
    forall u, v :: u in us && v in us && IfNumber(u) == IfNumber(v) ==> u == v
  }

  ghost predicate Good(us: set<Uuid>, h: Host) {
    && (forall p :: p in h.procs ==> h.procs[p].uuid in us && p < h.nextPid)
    && (forall p, q :: Active(h, p) && Active(h, q) && h.procs[p].uuid == h.procs[q].uuid ==> p == q)
    && (forall p :: OnFile(h, p) ==> h.procs[p].uuid in h.pidFiles && h.pidFiles[h.procs[p].uuid] == p)
    && (forall p :: OwnsInterface(h, p) ==> IfNumber(h.procs[p].uuid) in h.ifaces && h.ifaces[IfNumber(h.procs[p].uuid)] == p)
    && (forall u :: u in h.stateFiles ==> u in us && h.stateFiles[u] == IfNumber(u))
    && (forall u :: u in h.pidFiles ==> h.pidFiles[u] < h.nextPid)
    && (forall u :: u in h.pidFiles && h.pidFiles[u] in h.procs ==> h.procs[h.pidFiles[u]].uuid == u && OnFile(h, h.pidFiles[u]))
  }

  /** No daemon of u is still on its way to writing its pid file. */
  predicate Quiet(h: Host, u: Uuid) {
    forall p :: p in h.procs && h.procs[p].uuid == u ==> !h.procs[p].phase.Launched?
  }

  /** A daemon step ends its process, moves it on by one phase, or does nothing. */
  lemma ProcsAfter(h: Host, a: DaemonAct)
    ensures var h' := DaemonStep(h, a);
            && h'.nextPid == h.nextPid
            && (|| h'.procs == h.procs
                || h'.procs == Drop(h.procs, a.pid)
                || (a.pid in h.procs && exists f: Phase :: !f.Launched? && !h.procs[a.pid].phase.Leaving?
                                                        && h'.procs == h.procs[a.pid := Proc(h.procs[a.pid].uuid, f)]))
  {
    if a.pid in h.procs && a.Advance? {
      match h.procs[a.pid].phase
      case Launched => assert !Named.Launched?;
      case Named => assert !Up.Launched?;
      case Up => assert !Serving.Launched?;
      case Serving => assert !Unfiled.Launched?;
      case Unfiled => assert !Down.Launched?;
      case Down => assert !Leaving.Launched?;
      case Leaving =>
    }
  }

  /** Daemons never appear by themselves and never change connection. */
  lemma ProcsShrink(h: Host, a: DaemonAct)
    ensures var h' := DaemonStep(h, a);
            && h'.nextPid == h.nextPid
            && (forall p :: p in h'.procs ==> p in h.procs && h'.procs[p].uuid == h.procs[p].uuid)
            && (forall p :: Active(h', p) ==> Active(h, p))
            && (forall p :: p in h'.procs && h'.procs[p].phase.Launched? ==> h.procs[p].phase.Launched?)
  {
    ProcsAfter(h, a);
  }

  lemma GoodCrash(us: set<Uuid>, h: Host, p: Pid, orphan: bool)
    requires Good(us, h) && p in h.procs
    ensures Good(us, DaemonStep(h, Crash(p, orphan)))
  {
  }

  lemma GoodNamed(us: set<Uuid>, h: Host, p: Pid, w: bool)
    requires Good(us, h) && p in h.procs && h.procs[p].phase.Launched?
    ensures Good(us, DaemonStep(h, Advance(p, w)))
  {
    assert Active(h, p);
  }

  lemma GoodLeaving(us: set<Uuid>, h: Host, p: Pid, w: bool)
    requires Good(us, h) && p in h.procs && h.procs[p].phase.Down?
    ensures Good(us, DaemonStep(h, Advance(p, w)))
  {
    assert OnFile(h, p);
  }

  lemma GoodUp(us: set<Uuid>, h: Host, p: Pid, w: bool)
    requires Good(us, h) && p in h.procs && h.procs[p].phase.Named?
    ensures Good(us, DaemonStep(h, Advance(p, w)))
  {
    assert OnFile(h, p);
  }

  lemma GoodDown(us: set<Uuid>, h: Host, p: Pid, w: bool)
    requires DistinctNames(us) && Good(us, h) && p in h.procs && h.procs[p].phase.Unfiled?
    ensures Good(us, DaemonStep(h, Advance(p, w)))
  {
    assert OnFile(h, p);
  }

  lemma GoodServing(us: set<Uuid>, h: Host, p: Pid, w: bool)
    requires Good(us, h) && p in h.procs && h.procs[p].phase.Up?
    ensures Good(us, DaemonStep(h, Advance(p, w)))
  {
    assert OnFile(h, p);
  }

  lemma GoodUnfiled(us: set<Uuid>, h: Host, p: Pid, w: bool)
    requires Good(us, h) && p in h.procs && h.procs[p].phase.Serving?
    ensures Good(us, DaemonStep(h, Advance(p, w)))
  {
    assert OnFile(h, p);
  }

  lemma GoodDaemonStep(us: set<Uuid>, h: Host, a: DaemonAct)
    requires DistinctNames(us) && Good(us, h)
    ensures Good(us, DaemonStep(h, a))
  {
    if a.pid in h.procs {
      match a
      case Crash(p, orphan) => GoodCrash(us, h, p, orphan);
      case Advance(p, w) =>
        match h.procs[p].phase
        case Launched => GoodNamed(us, h, p, w);
        case Named => GoodUp(us, h, p, w);
        case Up => GoodServing(us, h, p, w);
        case Serving => GoodUnfiled(us, h, p, w);
        case Unfiled => GoodDown(us, h, p, w);
        case Down => GoodLeaving(us, h, p, w);
        case Leaving => GoodCrash(us, h, p, true);
    }
  }

  lemma {:induction false} GoodDaemonSteps(us: set<Uuid>, h: Host, acts: seq<DaemonAct>)
    requires DistinctNames(us) && Good(us, h)
    ensures var h' := DaemonSteps(h, acts);
            && Good(us, h')
            && h'.nextPid == h.nextPid
            && (forall p :: p in h'.procs ==> p in h.procs && h'.procs[p].uuid == h.procs[p].uuid)
            && (forall p :: Active(h', p) ==> Active(h, p))
            && (forall p :: p in h'.procs && h'.procs[p].phase.Launched? ==> h.procs[p].phase.Launched?)
    decreases |acts|
  {
    if acts == [] {
    } else {
      GoodDaemonStep(us, h, acts[0]);
      ProcsShrink(h, acts[0]);
      GoodDaemonSteps(us, DaemonStep(h, acts[0]), acts[1..]);
    }
  }

  /** Clean-up for a connection without an active daemon destroys no live daemon's interface. */
  lemma GoodCleanup(us: set<Uuid>, h: Host, u: Uuid)
    requires DistinctNames(us) && Good(us, h) && u in us
    requires forall p :: OwnsInterface(h, p) ==> h.procs[p].uuid != u
    ensures Good(us, CleanedUp(h, u))
  {
  }

  function WithLaunched(h: Host, u: Uuid): Host {
    h.(procs := h.procs[h.nextPid := Proc(u, Launched)], nextPid := h.nextPid + 1)
  }

  lemma GoodLaunch(us: set<Uuid>, h: Host, u: Uuid)
    requires Good(us, h) && u in us
    requires forall q :: Active(h, q) ==> h.procs[q].uuid != u
    ensures Good(us, WithLaunched(h, u))
  {
    var h' := WithLaunched(h, u);
    assert forall q :: q in h.procs ==> q != h.nextPid && h'.procs[q] == h.procs[q];
    assert forall q :: Active(h', q) ==> q == h.nextPid || Active(h, q);
    assert forall q :: OnFile(h', q) ==> OnFile(h, q);
    assert forall q :: OwnsInterface(h', q) ==> OwnsInterface(h, q);
  }

  /** With no daemon launching and none running, no daemon of u is active. */
  lemma QuietIdle(us: set<Uuid>, h: Host, u: Uuid)
    requires Good(us, h) && Quiet(h, u) && !IsRunning(h, u)
    ensures forall q :: Active(h, q) ==> h.procs[q].uuid != u
  {
    assert forall q :: Active(h, q) && h.procs[q].uuid == u ==> OnFile(h, q);
  }

  /** After the clean-up that precedes a launch, the invariant holds and no daemon of u is active. */
  lemma ReadyToLaunch(us: set<Uuid>, h: Host, u: Uuid)
    requires DistinctNames(us) && Good(us, h) && u in us && Quiet(h, u) && !IsRunning(h, u)
    ensures var h1 := CleanedUp(h, u);
            Good(us, h1) && forall q :: Active(h1, q) ==> h1.procs[q].uuid != u
  {
    QuietIdle(us, h, u);
    assert forall q :: OwnsInterface(h, q) ==> Active(h, q);
    GoodCleanup(us, h, u);
    assert forall q :: Active(CleanedUp(h, u), q) ==> Active(h, q);
  }

  lemma GoodLaunchAndPause(us: set<Uuid>, h: Host, u: Uuid, pause: seq<DaemonAct>)
    requires DistinctNames(us) && Good(us, h) && u in us
    requires forall q :: Active(h, q) ==> h.procs[q].uuid != u
    ensures Good(us, DaemonSteps(WithLaunched(h, u), pause))
  {
    GoodLaunch(us, h, u);
    GoodDaemonSteps(us, WithLaunched(h, u), pause);
  }

  lemma GoodStart(us: set<Uuid>, h: Host, u: Uuid, c: StartScript)
    requires DistinctNames(us) && Good(us, h) && u in us && Quiet(h, u)
    ensures Good(us, Start(h, u, c).0)
  {
    if !IsRunning(h, u) {
      ReadyToLaunch(us, h, u);
      if c.registered && c.binary {
        GoodLaunchAndPause(us, CleanedUp(h, u), u, c.pause);
      }
    }
  }

  lemma {:induction false} GoodPolled(us: set<Uuid>, h: Host, polls: seq<seq<DaemonAct>>, k: nat)
    requires DistinctNames(us) && Good(us, h) && k <= |polls|
    ensures var h' := Polled(h, polls, k);
            && Good(us, h')
            && (forall p :: p in h'.procs ==> p in h.procs && h'.procs[p].uuid == h.procs[p].uuid)
            && (forall p :: Active(h', p) ==> Active(h, p))
            && (forall p :: p in h'.procs && h'.procs[p].phase.Launched? ==> h.procs[p].phase.Launched?)
  {
    if k == 0 {
    } else {
      GoodPolled(us, h, polls, k - 1);
      GoodDaemonSteps(us, Polled(h, polls, k - 1), polls[k - 1]);
    }
  }

  /** The loop breaks off at the first poll that finds the daemon dead; all polls before found it alive. */
  lemma {:induction false} FirstDeadPollIs(h: Host, p: Pid, polls: seq<seq<DaemonAct>>, k: nat)
    requires k <= |polls|
    ensures var r := FirstDeadPoll(h, p, polls, k);
            && r > k
            && (forall i :: k < i < r && i <= |polls| ==> p in Polled(h, polls, i).procs)
            && (r <= |polls| ==> p !in Polled(h, polls, r).procs)
    decreases |polls| - k
  {
    if k < |polls| && p in Polled(h, polls, k + 1).procs {
      FirstDeadPollIs(h, p, polls, k + 1);
    }
  }

  /** Taking a dead daemon's pid file and leftover interface away. */
  lemma GoodRemoval(us: set<Uuid>, h: Host, u: Uuid)
    requires DistinctNames(us) && Good(us, h) && u in us
    requires forall q :: Active(h, q) ==> h.procs[q].uuid != u
    ensures Good(us, CleanedUp(h.(pidFiles := Drop(h.pidFiles, u)), u))
  {
    var h' := h.(pidFiles := Drop(h.pidFiles, u));
    assert Good(us, h');
    GoodCleanup(us, h', u);
  }

  /** The host when the polling loop is over and SIGKILL was sent if it had to be. */
  function Ended(h: Host, p: Pid, c: StopScript): Host
    requires |c.polls| == POLLS
  {
    var h1 := DaemonSteps(h, c.before);
    var broke := if p in h1.procs then FirstDeadPoll(h1, p, c.polls, 0) else 0;
    if broke == POLLS + 1 then Die(Polled(h1, c.polls, POLLS), p) else Polled(h1, c.polls, broke)
  }

  /** When the loop is over the daemon is dead, and nothing has been launched. */
  lemma GoodEnded(us: set<Uuid>, h: Host, p: Pid, c: StopScript)
    requires DistinctNames(us) && Good(us, h) && |c.polls| == POLLS
    ensures var h' := Ended(h, p, c);
            && Good(us, h') && p !in h'.procs
            && (forall q :: q in h'.procs ==> q in h.procs && h'.procs[q].uuid == h.procs[q].uuid)
            && (forall q :: Active(h', q) ==> Active(h, q))
            && (forall q :: q in h'.procs && h'.procs[q].phase.Launched? ==> h.procs[q].phase.Launched?)
  {
    var h1 := DaemonSteps(h, c.before);
    GoodDaemonSteps(us, h, c.before);
    var broke := if p in h1.procs then FirstDeadPoll(h1, p, c.polls, 0) else 0;
    FirstDeadPollIs(h1, p, c.polls, 0);
    if broke == POLLS + 1 {
      GoodPolled(us, h1, c.polls, POLLS);
      var h2 := Polled(h1, c.polls, POLLS);
      assert p in h2.procs;
      GoodCrash(us, h2, p, true);
      assert Die(h2, p) == DaemonStep(h2, Crash(p, true));
    } else {
      GoodPolled(us, h1, c.polls, broke);
    }
  }

  /** Stop keeps the invariant always, and after it no daemon of u is active unless one was still launching. */
  lemma GoodStop(us: set<Uuid>, h: Host, u: Uuid, c: StopScript)
    requires DistinctNames(us) && Good(us, h) && u in us && |c.polls| == POLLS
    ensures Good(us, Stop(h, u, c).0)
    ensures Quiet(h, u) ==> forall q :: Active(Stop(h, u, c).0, q) ==> Stop(h, u, c).0.procs[q].uuid != u
  {
    if IsRunning(h, u) {
      var p := h.pidFiles[u];
      assert OnFile(h, p) && h.procs[p].uuid == u;
      GoodEnded(us, h, p, c);
      var h3 := Ended(h, p, c);
      forall q | Active(h3, q) ensures h3.procs[q].uuid != u {
        assert Active(h, q) && q != p;
      }
      GoodRemoval(us, h3, u);
      assert Stop(h, u, c).0 == CleanedUp(h3.(pidFiles := Drop(h3.pidFiles, u)), u);
    } else if Quiet(h, u) {
      QuietIdle(us, h, u);
    }
  }

  /** SIGKILL is sent only when all fifty polls found the daemon alive. */
  lemma KillOnlyAfterFiftyPolls(h: Host, u: Uuid, c: StopScript)
    requires |c.polls| == POLLS && IsRunning(h, u)
    ensures var h1, p := DaemonSteps(h, c.before), h.pidFiles[u];
            Stop(h, u, c).1 == Stopped(true) <==>
              p in h1.procs && forall k :: 1 <= k <= 50 ==> p in Polled(h1, c.polls, k).procs
  {
    var h1, p := DaemonSteps(h, c.before), h.pidFiles[u];
    FirstDeadPollIs(h1, p, c.polls, 0);
  }

  /**
   * The first moment at which the daemon is found dead, at SIGTERM (k = 0) or at poll k, ends the
   * polling, and what is left of it is cleared away there and then; if there is none it is killed.
   */
  lemma StopEndsAtFirstDeadPoll(h: Host, u: Uuid, c: StopScript, k: nat)
    requires |c.polls| == POLLS && IsRunning(h, u) && k <= 50
    ensures var h1, p := DaemonSteps(h, c.before), h.pidFiles[u];
            var found := Polled(h1, c.polls, k);
            (forall j :: 0 <= j < k ==> p in Polled(h1, c.polls, j).procs) ==>
              && (p !in found.procs ==>
                    Stop(h, u, c) == (CleanedUp(found.(pidFiles := found.pidFiles - {u}), u), Stopped(false)))
              && (k == 50 && p in found.procs ==>
                    Stop(h, u, c) == (CleanedUp(found.(pidFiles := found.pidFiles - {u}, procs := found.procs - {p}), u), Stopped(true)))
  {
    var h1, p := DaemonSteps(h, c.before), h.pidFiles[u];
    FirstDeadPollIs(h1, p, c.polls, 0);
    assert Polled(h1, c.polls, 0) == h1;
  }

  // ---- what a stop and a start leave and answer ----

  /**
   * A stop of a running connection takes its pid file and state file away, ends the daemon it named, and
   * destroys the interface that the state file named when the polling was over, after SIGKILL too. It
   * takes nothing else away.
   */
  lemma StopRemoves(us: set<Uuid>, h: Host, u: Uuid, c: StopScript)
    requires DistinctNames(us) && Good(us, h) && |c.polls| == POLLS && IsRunning(h, u)
    ensures var h', h3 := Stop(h, u, c).0, Ended(h, h.pidFiles[u], c);
            && u !in h'.pidFiles && u !in h'.stateFiles && h.pidFiles[u] !in h'.procs
            && (u in h3.stateFiles ==> h3.stateFiles[u] !in h'.ifaces)
            && (forall n :: n in h3.ifaces && !(u in h3.stateFiles && h3.stateFiles[u] == n) ==> n in h'.ifaces && h'.ifaces[n] == h3.ifaces[n])
            && (forall v :: v in h3.pidFiles && v != u ==> v in h'.pidFiles && h'.pidFiles[v] == h3.pidFiles[v])
            && (forall v :: v in h3.stateFiles && v != u ==> v in h'.stateFiles && h'.stateFiles[v] == h3.stateFiles[v])
  {
    GoodEnded(us, h, h.pidFiles[u], c);
  }

  /** A stop answers not_running exactly when no live process is named by the pid file, and then does nothing. */
  lemma StopAnswers(h: Host, u: Uuid, c: StopScript)
    requires |c.polls| == POLLS
    ensures Stop(h, u, c).1 == NotRunning <==> !(u in h.pidFiles && h.pidFiles[u] in h.procs)
    ensures Stop(h, u, c).1 == NotRunning ==> Stop(h, u, c).0 == h
  {
  }

  /**
   * After a quiet stop the connection has no interface of its own, unless one was there with no state
   * file to find it by when the daemon had ended.
   */
  lemma StopLeavesNoInterface(us: set<Uuid>, h: Host, u: Uuid, c: StopScript)
    requires DistinctNames(us) && Good(us, h) && u in us && Quiet(h, u) && |c.polls| == POLLS && IsRunning(h, u)
    ensures var h', h3 := Stop(h, u, c).0, Ended(h, h.pidFiles[u], c);
            && (forall p :: OwnsInterface(h', p) ==> h'.procs[p].uuid != u)
            && (IfNumber(u) in h'.ifaces <==> IfNumber(u) in h3.ifaces && u !in h3.stateFiles)
  {
    var h3 := Ended(h, h.pidFiles[u], c);
    GoodEnded(us, h, h.pidFiles[u], c);
    StopRemoves(us, h, u, c);
    GoodStop(us, h, u, c);
    assert forall p :: OwnsInterface(Stop(h, u, c).0, p) ==> Active(Stop(h, u, c).0, p);
    assert u in h3.stateFiles ==> h3.stateFiles[u] == IfNumber(u);
  }

  /** After a launch and its pause the new daemon is there or not, and it is the only new process id. */
  lemma LaunchedIs(us: set<Uuid>, h: Host, u: Uuid, pause: seq<DaemonAct>)
    requires DistinctNames(us) && Good(us, h) && u in us && Quiet(h, u) && !IsRunning(h, u)
    ensures var h' := DaemonSteps(WithLaunched(CleanedUp(h, u), u), pause);
            && h'.nextPid == h.nextPid + 1 && h.nextPid !in h.procs
            && (h.nextPid in h'.procs ==> h'.procs[h.nextPid].uuid == u)
  {
    ReadyToLaunch(us, h, u);
    GoodLaunch(us, CleanedUp(h, u), u);
    GoodDaemonSteps(us, WithLaunched(CleanedUp(h, u), u), pause);
  }

  /** The answers of a start, and what each says of the host. */
  lemma StartAnswers(us: set<Uuid>, h: Host, u: Uuid, c: StartScript)
    requires DistinctNames(us) && Good(us, h) && u in us && Quiet(h, u)
    ensures var (h', r) := Start(h, u, c);
            match r
            case AlreadyRunning(pid) => h' == h && u in h.pidFiles && h.pidFiles[u] == pid && pid in h.procs
            case NotRegistered => !c.registered && !IsRunning(h, u) && h'.procs == h.procs
            case NoBinary => c.registered && !c.binary && !IsRunning(h, u) && h'.procs == h.procs
            case ExitedAtOnce => c.registered && c.binary && h'.nextPid == h.nextPid + 1 && h.nextPid !in h'.procs
            case Started(pid) => c.registered && c.binary && pid == h.nextPid && pid in h'.procs && h'.procs[pid].uuid == u && pid !in h.procs
  {
    if !IsRunning(h, u) {
      LaunchedIs(us, h, u, c.pause);
    }
  }

  // ---- sequences of commands ----

  /** Every start is issued when no daemon of that connection is still on its way to its pid file. */
  predicate QuietRun(h: Host, cs: seq<Command>)
    requires forall i :: 0 <= i < |cs| ==> WellFormed(cs[i])
    decreases |cs|
  {
    cs == [] || ((cs[0].StartConn? ==> Quiet(h, cs[0].uuid)) && QuietRun(Exec(h, cs[0]), cs[1..]))
  }

  predicate Over(us: set<Uuid>, cs: seq<Command>) {
    forall i :: 0 <= i < |cs| ==> WellFormed(cs[i]) && (cs[i].StartConn? || cs[i].StopConn? ==> cs[i].uuid in us)
  }

  lemma {:induction false} GoodRun(us: set<Uuid>, h: Host, cs: seq<Command>)
    requires DistinctNames(us) && Good(us, h) && Over(us, cs) && QuietRun(h, cs)
    ensures Good(us, ExecAll(h, cs))
    decreases |cs|
  {
    if cs == [] {
    } else {
      match cs[0] {
        case StartConn(u, script) => GoodStart(us, h, u, script);
        case StopConn(u, script) => GoodStop(us, h, u, script);
        case Daemons(acts) => GoodDaemonSteps(us, h, acts);
      }
      GoodRun(us, Exec(h, cs[0]), cs[1..]);
    }
  }

  const EMPTY_HOST := Host(map[], map[], map[], map[], 1)

  /**
   * One active daemon for each connection: over every such sequence from an empty host, two active
   * daemons of a connection are the same, its pid file names it once written, and its interface is its own.
   */
  lemma OneActiveDaemon(us: set<Uuid>, cs: seq<Command>, p: Pid, q: Pid)
    requires DistinctNames(us) && Over(us, cs) && QuietRun(EMPTY_HOST, cs)
    ensures var h := ExecAll(EMPTY_HOST, cs);
            && (Active(h, p) && Active(h, q) && h.procs[p].uuid == h.procs[q].uuid ==> p == q)
            && (OnFile(h, p) ==> h.procs[p].uuid in h.pidFiles && h.pidFiles[h.procs[p].uuid] == p)
            && (OwnsInterface(h, p) ==> IfNumber(h.procs[p].uuid) in h.ifaces && h.ifaces[IfNumber(h.procs[p].uuid)] == p)
  {
    assert Good(us, EMPTY_HOST);
    GoodRun(us, EMPTY_HOST, cs);
  }

  /** Sequences without a start launch nothing. */
  lemma {:induction false} StopsStayQuiet(us: set<Uuid>, h: Host, cs: seq<Command>, u: Uuid)
    requires DistinctNames(us) && Good(us, h) && Over(us, cs) && u in us && Quiet(h, u)
    requires forall i :: 0 <= i < |cs| ==> !cs[i].StartConn?
    ensures QuietRun(h, cs) && Good(us, ExecAll(h, cs)) && Quiet(ExecAll(h, cs), u)
    decreases |cs|
  {
    if cs == [] {
    } else {
      match cs[0] {
        case StopConn(v, script) =>
          GoodStop(us, h, v, script);
          StopLaunchesNothing(us, h, v, script);
        case Daemons(acts) => GoodDaemonSteps(us, h, acts);
      }
      StopsStayQuiet(us, Exec(h, cs[0]), cs[1..], u);
    }
  }

  lemma StopLaunchesNothing(us: set<Uuid>, h: Host, v: Uuid, c: StopScript)
    requires DistinctNames(us) && Good(us, h) && |c.polls| == POLLS
    ensures var h' := Stop(h, v, c).0;
            && (forall p :: p in h'.procs ==> p in h.procs && h'.procs[p].uuid == h.procs[p].uuid)
            && (forall p :: p in h'.procs && h'.procs[p].phase.Launched? ==> h.procs[p].phase.Launched?)
  {
    if IsRunning(h, v) {
      GoodEnded(us, h, h.pidFiles[v], c);
    }
  }

  // ---- restarts ----

  lemma {:induction false} QuietConcat(h: Host, a: seq<Command>, b: seq<Command>)
    requires forall i :: 0 <= i < |a| ==> WellFormed(a[i])
    requires forall i :: 0 <= i < |b| ==> WellFormed(b[i])
    ensures QuietRun(h, a + b) <==> QuietRun(h, a) && QuietRun(ExecAll(h, a), b)
    decreases |a|
  {
    if a == [] {
      assert a + b == b;
    } else {
      assert (a + b)[1..] == a[1..] + b;
      QuietConcat(Exec(h, a[0]), a[1..], b);
    }
  }

  /** A start launches a daemon of its own connection only. */
  lemma StartKeepsQuiet(us: set<Uuid>, h: Host, u: Uuid, c: StartScript, v: Uuid)
    requires DistinctNames(us) && Good(us, h) && u in us && Quiet(h, u) && u != v && Quiet(h, v)
    ensures Quiet(Start(h, u, c).0, v)
  {
    if !IsRunning(h, u) {
      ReadyToLaunch(us, h, u);
      if c.registered && c.binary {
        GoodLaunch(us, CleanedUp(h, u), u);
        GoodDaemonSteps(us, WithLaunched(CleanedUp(h, u), u), c.pause);
      }
    }
  }

  predicate DistinctStarts(starts: seq<(Uuid, StartScript)>) {
    forall i, j :: 0 <= i < j < |starts| ==> starts[i].0 != starts[j].0
  }

  lemma {:induction false} StartsAreQuiet(us: set<Uuid>, h: Host, starts: seq<(Uuid, StartScript)>)
    requires DistinctNames(us) && Good(us, h) && DistinctStarts(starts)
    requires forall i :: 0 <= i < |starts| ==> starts[i].0 in us && Quiet(h, starts[i].0)
    ensures QuietRun(h, StartCommands(starts))
    decreases |starts|
  {
    if starts == [] {
    } else {
      var u, c, rest := starts[0].0, starts[0].1, starts[1..];
      var cs := StartCommands(starts);
      GoodStart(us, h, u, c);
      forall i | 0 <= i < |rest| ensures Quiet(Start(h, u, c).0, rest[i].0) {
        assert rest[i] == starts[i + 1];
        StartKeepsQuiet(us, h, u, c, rest[i].0);
      }
      StartsAreQuiet(us, Start(h, u, c).0, rest);
      assert cs[1..] == StartCommands(rest);
      assert cs[0] == StartConn(u, c);
    }
  }

  /**
   * A restart of connections none of which is still launching issues every start when quiet, so
   * OneActiveDaemon holds over sequences with restarts in them.
   */
  lemma RestartIsQuiet(us: set<Uuid>, h: Host, stops: seq<(Uuid, StopScript)>, starts: seq<(Uuid, StartScript)>, pause: seq<DaemonAct>)
    requires DistinctNames(us) && Good(us, h) && DistinctStarts(starts)
    requires forall i :: 0 <= i < |stops| ==> stops[i].0 in us && |stops[i].1.polls| == POLLS
    requires forall i :: 0 <= i < |starts| ==> starts[i].0 in us && Quiet(h, starts[i].0)
    ensures QuietRun(h, RestartCommands(stops, starts, pause))
    ensures Good(us, ExecAll(h, RestartCommands(stops, starts, pause)))
  {
    var first, last := StopCommands(stops) + [Daemons(pause)], StartCommands(starts);
    assert Over(us, first);
    NoStartsStayGood(us, h, first);
    forall i | 0 <= i < |starts| ensures Quiet(ExecAll(h, first), starts[i].0) {
      StopsStayQuiet(us, h, first, starts[i].0);
    }
    StartsAreQuiet(us, ExecAll(h, first), starts);
    QuietConcat(h, first, last);
    assert Over(us, first + last);
    GoodRun(us, h, first + last);
  }

  lemma {:induction false} NoStartsStayGood(us: set<Uuid>, h: Host, cs: seq<Command>)
    requires DistinctNames(us) && Good(us, h) && Over(us, cs)
    requires forall i :: 0 <= i < |cs| ==> !cs[i].StartConn?
    ensures QuietRun(h, cs) && Good(us, ExecAll(h, cs))
    decreases |cs|
  {
    if cs == [] {
    } else {
      match cs[0] {
        case StopConn(v, script) => GoodStop(us, h, v, script);
        case Daemons(acts) => GoodDaemonSteps(us, h, acts);
      }
      NoStartsStayGood(us, Exec(h, cs[0]), cs[1..]);
    }
  }

  // ---- live processes, the leaving ones too ----

  /** No process of u is about to write its pid file or has removed it. */
  predicate Settled(h: Host, u: Uuid) {
    forall p :: p in h.procs && h.procs[p].uuid == u ==> !h.procs[p].phase.Launched? && !h.procs[p].phase.Leaving?
  }

  predicate OneLive(h: Host) {
    forall p, q :: p in h.procs && q in h.procs && h.procs[p].uuid == h.procs[q].uuid ==> p == q
  }

  /** Every start is issued when the connection is settled. */
  predicate SettledRun(h: Host, cs: seq<Command>)
    requires forall i :: 0 <= i < |cs| ==> WellFormed(cs[i])
    decreases |cs|
  {
    cs == [] || ((cs[0].StartConn? ==> Settled(h, cs[0].uuid)) && SettledRun(Exec(h, cs[0]), cs[1..]))
  }

  /** A settled connection that is not running has no process at all. */
  lemma SettledIdle(us: set<Uuid>, h: Host, u: Uuid)
    requires Good(us, h) && Settled(h, u) && !IsRunning(h, u)
    ensures forall p :: p in h.procs ==> h.procs[p].uuid != u
  {
    assert forall p :: p in h.procs && h.procs[p].uuid == u ==> OnFile(h, p);
  }

  lemma LaunchKeepsOneLive(us: set<Uuid>, h: Host, u: Uuid)
    requires Good(us, h) && OneLive(h) && forall p :: p in h.procs ==> h.procs[p].uuid != u
    ensures OneLive(WithLaunched(h, u))
  {
    var h' := WithLaunched(h, u);
    assert forall p :: p in h'.procs ==> if p == h.nextPid then h'.procs[p].uuid == u else p in h.procs && h'.procs[p] == h.procs[p];
  }

  lemma StartKeepsOneLive(us: set<Uuid>, h: Host, u: Uuid, c: StartScript)
    requires DistinctNames(us) && Good(us, h) && u in us && Settled(h, u) && OneLive(h)
    ensures OneLive(Start(h, u, c).0)
  {
    if !IsRunning(h, u) {
      SettledIdle(us, h, u);
      ReadyToLaunch(us, h, u);
      if c.registered && c.binary {
        GoodLaunch(us, CleanedUp(h, u), u);
        LaunchKeepsOneLive(us, CleanedUp(h, u), u);
        GoodDaemonSteps(us, WithLaunched(CleanedUp(h, u), u), c.pause);
      }
    }
  }

  lemma {:induction false} OneLiveRun(us: set<Uuid>, h: Host, cs: seq<Command>)
    requires DistinctNames(us) && Good(us, h) && OneLive(h) && Over(us, cs) && SettledRun(h, cs)
    ensures QuietRun(h, cs) && Good(us, ExecAll(h, cs)) && OneLive(ExecAll(h, cs))
    decreases |cs|
  {
    if cs == [] {
    } else {
      match cs[0] {
        case StartConn(u, script) =>
          GoodStart(us, h, u, script);
          StartKeepsOneLive(us, h, u, script);
        case StopConn(u, script) =>
          GoodStop(us, h, u, script);
          StopLaunchesNothing(us, h, u, script);
        case Daemons(acts) => GoodDaemonSteps(us, h, acts);
      }
      OneLiveRun(us, Exec(h, cs[0]), cs[1..]);
    }
  }

  /**
   * One live process for each connection: over every sequence from an empty host in which starts are
   * issued when the connection is settled, two live processes of a connection are the same, in
   * whatever phase they are.
   */
  lemma OneDaemonPerConnection(us: set<Uuid>, cs: seq<Command>, p: Pid, q: Pid)
    requires DistinctNames(us) && Over(us, cs) && SettledRun(EMPTY_HOST, cs)
    ensures var h := ExecAll(EMPTY_HOST, cs);
            && (p in h.procs && q in h.procs && h.procs[p].uuid == h.procs[q].uuid ==> p == q)
            && (OnFile(h, p) ==> h.procs[p].uuid in h.pidFiles && h.pidFiles[h.procs[p].uuid] == p)
            && (OwnsInterface(h, p) ==> IfNumber(h.procs[p].uuid) in h.ifaces && h.ifaces[IfNumber(h.procs[p].uuid)] == p)
  {
    assert Good(us, EMPTY_HOST);
    OneLiveRun(us, EMPTY_HOST, cs);
  }
}
