// What the conditions of the lifecycle theorems are for: exactly when each guarantee fails, with runs
// that get there.
module LifecycleLimits {
  import opened Basics
  import opened Lifecycle
  import opened LifecycleTheorems

  // ---- two daemons of one connection ----

  ghost predicate TwoActive(h: Host, u: Uuid) {
    exists p, q :: p != q && Active(h, p) && Active(h, q) && h.procs[p].uuid == u == h.procs[q].uuid
  }

  ghost predicate TwoLive(h: Host, u: Uuid) {
    exists p, q :: p != q && p in h.procs && q in h.procs && h.procs[p].uuid == u == h.procs[q].uuid
  }

  lemma RunningIsQuiet(us: set<Uuid>, h: Host, u: Uuid)
    requires Good(us, h) && IsRunning(h, u)
    ensures Quiet(h, u)
  {
    assert OnFile(h, h.pidFiles[u]) && h.procs[h.pidFiles[u]].uuid == u;
    assert forall q :: q in h.procs && h.procs[q].uuid == u && h.procs[q].phase.Launched? ==> Active(h, q);
  }

  lemma SecondActiveExactlyWhen(us: set<Uuid>, h: Host, u: Uuid, c: StartScript)
    requires DistinctNames(us) && Good(us, h) && u in us
    requires c.registered && c.binary && c.pause == []
    ensures TwoActive(Start(h, u, c).0, u) <==> !Quiet(h, u)
  {
    if IsRunning(h, u) {
      RunningIsQuiet(us, h, u);
    }
    if Quiet(h, u) {
      GoodStart(us, h, u, c);
    } else {
      var q :| q in h.procs && h.procs[q].uuid == u && h.procs[q].phase.Launched?;
      assert Active(Start(h, u, c).0, h.nextPid) && Active(Start(h, u, c).0, q);
    }
  }

  /** While a connection is running no daemon of it is launching, and a settled one has no other process. */
  lemma RunningHasOne(us: set<Uuid>, h: Host, u: Uuid)
    requires Good(us, h) && IsRunning(h, u)
    ensures TwoLive(h, u) <==> !Settled(h, u)
  {
    var p := h.pidFiles[u];
    assert OnFile(h, p) && h.procs[p].uuid == u;
    if Settled(h, u) {
      assert forall q :: q in h.procs && h.procs[q].uuid == u ==> Active(h, q);
    }
  }

  /**
   * After a start a connection has two active daemons exactly when one was still launching, its pid
   * file unwritten; and two live processes exactly when one was launching or had removed its
   * pid file without having exited.
   */
  lemma SecondDaemonExactlyWhen(us: set<Uuid>, h: Host, u: Uuid, c: StartScript)
    requires DistinctNames(us) && Good(us, h) && u in us
    requires c.registered && c.binary && c.pause == []
    ensures TwoActive(Start(h, u, c).0, u) <==> !Quiet(h, u)
    ensures TwoLive(Start(h, u, c).0, u) <==> !Settled(h, u)
  {
    var h' := Start(h, u, c).0;
    SecondActiveExactlyWhen(us, h, u, c);
    if IsRunning(h, u) {
      RunningHasOne(us, h, u);
    } else if Settled(h, u) {
      SettledIdle(us, h, u);
      assert forall q :: q in h'.procs && h'.procs[q].uuid == u ==> q == h.nextPid;
    } else {
      var q :| q in h.procs && h.procs[q].uuid == u && (h.procs[q].phase.Launched? || h.procs[q].phase.Leaving?);
      assert q in h'.procs && h'.procs[q].uuid == u && h.nextPid in h'.procs && h'.procs[h.nextPid].uuid == u;
    }
  }

  // ---- runs that get there ----

  lemma ExecTwo(h: Host, a: Command, b: Command)
    requires WellFormed(a) && WellFormed(b)
    ensures ExecAll(h, [a]) == Exec(h, a) && ExecAll(h, [a, b]) == Exec(Exec(h, a), b)
  {
    assert [a][1..] == [] && [a, b][1..] == [b] && [b][1..] == [];
    assert ExecAll(Exec(h, a), [b]) == ExecAll(Exec(Exec(h, a), b), []);
  }

  lemma StepsSnoc(h: Host, acts: seq<DaemonAct>, a: DaemonAct)
    ensures DaemonSteps(h, acts + [a]) == DaemonStep(DaemonSteps(h, acts), a)
    decreases |acts|
  {
    var all := acts + [a];
    if acts == [] {
      assert all[1..] == [];
    } else {
      assert all[1..] == acts[1..] + [a];
      StepsSnoc(DaemonStep(h, acts[0]), acts[1..], a);
    }
  }

  /** n statements of daemon p in a row, its state file written. */
  function Advances(p: Pid, n: nat): (acts: seq<DaemonAct>) {
    if n == 0 then [] else Advances(p, n - 1) + [Advance(p, true)]
  }

  function Launching(pause: seq<DaemonAct>): StartScript {
    StartScript(true, true, pause)
  }

  lemma AdvanceOnce(h: Host, p: Pid, n: nat)
    ensures DaemonSteps(h, Advances(p, n + 1)) == DaemonStep(DaemonSteps(h, Advances(p, n)), Advance(p, true))
  {
    StepsSnoc(h, Advances(p, n), Advance(p, true));
  }

  /** Two starts in a row, the first daemon not yet at its pid file: two active daemons. */
  lemma TwoStartsTwoDaemons(u: Uuid)
    ensures TwoActive(ExecAll(EMPTY_HOST, [StartConn(u, Launching([])), StartConn(u, Launching([]))]), u)
  {
    var c := StartConn(u, Launching([]));
    ExecTwo(EMPTY_HOST, c, c);
    var h := Exec(EMPTY_HOST, c);
    assert h.procs == map[1 := Proc(u, Launched)] && h.pidFiles == map[];
    assert Active(Exec(h, c), 1) && Active(Exec(h, c), 2);
  }

  /** The first daemon after n of its statements on a host where nothing else is. */
  function Alone(u: Uuid, n: nat): Host
    requires n <= 6
  {
    var phase := if n == 0 then Launched else if n == 1 then Named else if n == 2 then Up else if n == 3 then Serving
                 else if n == 4 then Unfiled else if n == 5 then Down else Leaving;
    Host(map[1 := Proc(u, phase)],
         if 1 <= n <= 5 then map[u := 1] else map[],
         if n == 3 then map[u := IfNumber(u)] else map[],
         if 2 <= n <= 4 then map[IfNumber(u) := 1] else map[],
         2)
  }

  lemma AloneRises(u: Uuid, n: nat)
    requires n < 3
    ensures DaemonStep(Alone(u, n), Advance(1, true)) == Alone(u, n + 1)
  {
  }

  lemma AloneStep(u: Uuid, n: nat)
    requires n < 6
    ensures DaemonStep(Alone(u, n), Advance(1, true)) == Alone(u, n + 1)
  {
    if n < 3 {
      AloneRises(u, n);
    }
  }

  lemma {:induction false} AloneAfter(u: Uuid, n: nat)
    requires n <= 6
    ensures DaemonSteps(Alone(u, 0), Advances(1, n)) == Alone(u, n)
  {
    if n > 0 {
      AloneAfter(u, n - 1);
      AdvanceOnce(Alone(u, 0), 1, n - 1);
      AloneStep(u, n - 1);
    }
  }

  lemma FirstStart(u: Uuid, pause: seq<DaemonAct>)
    ensures Exec(EMPTY_HOST, StartConn(u, Launching(pause))) == DaemonSteps(Alone(u, 0), pause)
  {
    assert CleanedUp(EMPTY_HOST, u) == EMPTY_HOST;
    assert WithLaunched(EMPTY_HOST, u) == Alone(u, 0);
  }

  /** A daemon that has removed its pid file and not exited yet: a start puts a second live process beside it. */
  lemma LeavingBesideLaunched(u: Uuid)
    ensures TwoLive(ExecAll(EMPTY_HOST, [StartConn(u, Launching(Advances(1, 6))), StartConn(u, Launching([]))]), u)
  {
    var a, b := StartConn(u, Launching(Advances(1, 6))), StartConn(u, Launching([]));
    ExecTwo(EMPTY_HOST, a, b);
    FirstStart(u, Advances(1, 6));
    AloneAfter(u, 6);
    var h := Exec(Alone(u, 6), b);
    assert 1 in h.procs && 2 in h.procs && h.procs[1].uuid == u == h.procs[2].uuid;
  }

  // ---- interface names ----

  lemma {:induction false} DashFree(u: string)
    requires '-' !in u
    ensures WithoutDashes(u) == u
  {
    if u != "" {
      DashFree(u[1..]);
      assert [u[0]] + u[1..] == u;
    }
  }

  lemma {:induction false} FinalDigits(u: string, last: string)
    requires '-' !in last
    ensures WithoutDashes(u + last) == WithoutDashes(u) + last
  {
    if u == "" {
      assert u + last == last;
      DashFree(last);
    } else {
      assert (u + last)[1..] == u[1..] + last;
      FinalDigits(u[1..], last);
    }
  }

  predicate LowerHex(s: string) {
    forall i :: 0 <= i < |s| ==> '0' <= s[i] <= '9' || 'a' <= s[i] <= 'f'
  }

  lemma LastFour(u: string, last: string)
    requires |last| == 4 && '-' !in last
    ensures var s := WithoutDashes(u + last); |s| >= 4 && s[|s| - 4..] == last
  {
    FinalDigits(u, last);
    var s, pre := WithoutDashes(u + last), WithoutDashes(u);
    assert s == pre + last && s[|pre|..] == last;
  }

  /** The interface number is what the last four digits, in either case, spell to base 16. */
  lemma NumberOfFinalDigits(u: string, last: string, w: int, x: int, y: int, z: int)
    requires |last| == 4 && IsDigit(last[0], w) && IsDigit(last[1], x) && IsDigit(last[2], y) && IsDigit(last[3], z)
    ensures IfNumber(u + last) == 4096 * w + 256 * x + 16 * y + z
  {
    DigitIs(last[0], w);
    DigitIs(last[1], x);
    DigitIs(last[2], y);
    DigitIs(last[3], z);
    LastFour(u, last);
    var s := WithoutDashes(u + last);
    assert last[0] == s[|s| - 4] && last[1] == s[|s| - 3] && last[2] == s[|s| - 2] && last[3] == s[|s| - 1];
  }

  /** It is 0 when, dashes left out, there are fewer than four characters or one of the last four is no digit. */
  lemma NumberOtherwise(u: string, i: nat)
    requires var s := WithoutDashes(u); |s| < 4 || (|s| - 4 <= i < |s| && forall v :: !IsDigit(s[i], v))
    ensures IfNumber(u) == 0
  {
    var s := WithoutDashes(u);
    if |s| >= 4 && HexDigit(s[i]) >= 0 {
      ValueIsDigit(s[i]);
    }
  }

  lemma LowerDigit(c: char)
    requires '0' <= c <= '9' || 'a' <= c <= 'f'
    ensures 0 <= HexDigit(c) < 16 && IsDigit(c, HexDigit(c))
  {
    ValueIsDigit(c);
  }

  lemma DigitsDiffer(c: char, d: char)
    requires ('0' <= c <= '9' || 'a' <= c <= 'f') && ('0' <= d <= '9' || 'a' <= d <= 'f')
    ensures HexDigit(c) == HexDigit(d) <==> c == d
  {
  }

  lemma LowerNumber(u: string, last: string)
    requires |last| == 4 && LowerHex(last)
    ensures forall i :: 0 <= i < 4 ==> 0 <= HexDigit(last[i]) < 16
    ensures IfNumber(u + last)
         == 4096 * HexDigit(last[0]) + 256 * HexDigit(last[1]) + 16 * HexDigit(last[2]) + HexDigit(last[3])
  {
    LowerDigit(last[0]);
    LowerDigit(last[1]);
    LowerDigit(last[2]);
    LowerDigit(last[3]);
    NumberOfFinalDigits(u, last, HexDigit(last[0]), HexDigit(last[1]), HexDigit(last[2]), HexDigit(last[3]));
  }

  lemma FourDigits(a: int, b: int, c: int, d: int, a': int, b': int, c': int, d': int)
    requires 0 <= a < 16 && 0 <= b < 16 && 0 <= c < 16 && 0 <= d < 16
    requires 0 <= a' < 16 && 0 <= b' < 16 && 0 <= c' < 16 && 0 <= d' < 16
    ensures 4096 * a + 256 * b + 16 * c + d == 4096 * a' + 256 * b' + 16 * c' + d' <==> a == a' && b == b' && c == c' && d == d'
  {
  }

  lemma SameDigits(a: string, b: string)
    requires |a| == |b| == 4
    ensures a == b <==> a[0] == b[0] && a[1] == b[1] && a[2] == b[2] && a[3] == b[3]
  {
  }

  /** Two connections share an interface name exactly when their uuids end in the same four digits. */
  lemma NamesCollideExactlyWhen(u: string, a: string, v: string, b: string)
    requires |a| == |b| == 4 && LowerHex(a) && LowerHex(b)
    ensures IfNumber(u + a) == IfNumber(v + b) <==> a == b
  {
    LowerNumber(u, a);
    LowerNumber(v, b);
    DigitsDiffer(a[0], b[0]);
    DigitsDiffer(a[1], b[1]);
    DigitsDiffer(a[2], b[2]);
    DigitsDiffer(a[3], b[3]);
    FourDigits(HexDigit(a[0]), HexDigit(a[1]), HexDigit(a[2]), HexDigit(a[3]),
               HexDigit(b[0]), HexDigit(b[1]), HexDigit(b[2]), HexDigit(b[3]));
    SameDigits(a, b);
  }

  /** Every state file names its own connection's interface; this holds whatever the names and the commands. */
  predicate StateFilesOwn(h: Host) {
    forall u :: u in h.stateFiles ==> h.stateFiles[u] == IfNumber(u)
  }

  lemma {:induction false} OwnAfterSteps(h: Host, acts: seq<DaemonAct>)
    requires StateFilesOwn(h)
    ensures StateFilesOwn(DaemonSteps(h, acts))
    decreases |acts|
  {
    if acts != [] {
      OwnAfterSteps(DaemonStep(h, acts[0]), acts[1..]);
    }
  }

  lemma {:induction false} OwnAfterPolls(h: Host, polls: seq<seq<DaemonAct>>, k: nat)
    requires StateFilesOwn(h) && k <= |polls|
    ensures StateFilesOwn(Polled(h, polls, k))
  {
    if k > 0 {
      OwnAfterPolls(h, polls, k - 1);
      OwnAfterSteps(Polled(h, polls, k - 1), polls[k - 1]);
    }
  }

  lemma OwnAfterCommand(h: Host, c: Command)
    requires StateFilesOwn(h) && WellFormed(c)
    ensures StateFilesOwn(Exec(h, c))
  {
    match c
    case StartConn(u, script) =>
      OwnAfterSteps(WithLaunched(CleanedUp(h, u), u), script.pause);
    case StopConn(u, script) =>
      if IsRunning(h, u) {
        var p, h1 := h.pidFiles[u], DaemonSteps(h, script.before);
        OwnAfterSteps(h, script.before);
        var broke := if p in h1.procs then FirstDeadPoll(h1, p, script.polls, 0) else 0;
        OwnAfterPolls(h1, script.polls, if broke == POLLS + 1 then POLLS else broke);
      }
    case Daemons(acts) => OwnAfterSteps(h, acts);
  }

  lemma {:induction false} OwnAfterRun(h: Host, cs: seq<Command>)
    requires StateFilesOwn(h) && forall i :: 0 <= i < |cs| ==> WellFormed(cs[i])
    ensures StateFilesOwn(ExecAll(h, cs))
    decreases |cs|
  {
    if cs != [] {
      OwnAfterCommand(h, cs[0]);
      OwnAfterRun(Exec(h, cs[0]), cs[1..]);
    }
  }

  /**
   * Without distinct names: after any commands whatever, the clean-up with which a start of u begins
   * takes the interface of a live daemon p exactly when u is not running, has a leftover state file,
   * and shares its interface name with p's connection.
   */
  lemma CleanupTakesExactly(cs: seq<Command>, u: Uuid, c: StartScript, p: Pid)
    requires (forall i :: 0 <= i < |cs| ==> WellFormed(cs[i])) && c.pause == []
    requires var h := ExecAll(EMPTY_HOST, cs); OwnsInterface(h, p) && IfNumber(h.procs[p].uuid) in h.ifaces
    ensures var h := ExecAll(EMPTY_HOST, cs);
            var n := IfNumber(h.procs[p].uuid);
            n !in Start(h, u, c).0.ifaces <==> !IsRunning(h, u) && u in h.stateFiles && IfNumber(u) == n
  {
    OwnAfterRun(EMPTY_HOST, cs);
  }

  /** The host on which the daemon of u died without an orphan and one of v serves. */
  function CrashedBeside(u: Uuid, v: Uuid): Host {
    Host(map[2 := Proc(v, Serving)], map[u := 1, v := 2], map[u := IfNumber(u), v := IfNumber(v)], map[IfNumber(v) := 2], 3)
  }

  /** Such a run: u's daemon is killed and leaves its state file, v comes up, and the next start of u takes v's interface. */
  lemma CleanupTakesLiveInterface(u: Uuid, v: Uuid)
    requires u != v && IfNumber(u) == IfNumber(v)
    ensures var first := StartConn(u, Launching(Advances(1, 3) + [Crash(1, false)]));
            var h := ExecAll(EMPTY_HOST, [first, StartConn(v, Launching(Advances(2, 3)))]);
            var h' := Exec(h, StartConn(u, Launching([])));
            && OwnsInterface(h, 2) && h.procs[2].uuid == v && IfNumber(v) in h.ifaces
            && OwnsInterface(h', 2) && h'.procs[2].uuid == v && IfNumber(v) !in h'.ifaces
  {
    var first, second := StartConn(u, Launching(Advances(1, 3) + [Crash(1, false)])), StartConn(v, Launching(Advances(2, 3)));
    ExecTwo(EMPTY_HOST, first, second);
    FirstStart(u, Advances(1, 3) + [Crash(1, false)]);
    StepsSnoc(Alone(u, 0), Advances(1, 3), Crash(1, false));
    AloneAfter(u, 3);
    var h1 := DaemonStep(Alone(u, 3), Crash(1, false));
    assert h1 == Host(map[], map[u := 1], map[u := IfNumber(u)], map[], 2);
    SecondComesUp(u, v, h1);
    var h := CrashedBeside(u, v);
    var h' := Exec(h, StartConn(u, Launching([])));
    assert h'.procs == h.procs[3 := Proc(u, Launched)];
  }

  /** v's daemon after n of its statements, beside what u's left. */
  function SecondAfter(u: Uuid, v: Uuid, n: nat): Host
    requires n <= 3
  {
    if n == 0 then Host(map[2 := Proc(v, Launched)], map[u := 1], map[u := IfNumber(u)], map[], 3)
    else if n == 1 then Host(map[2 := Proc(v, Named)], map[u := 1, v := 2], map[u := IfNumber(u)], map[], 3)
    else if n == 2 then Host(map[2 := Proc(v, Up)], map[u := 1, v := 2], map[u := IfNumber(u)], map[IfNumber(v) := 2], 3)
    else CrashedBeside(u, v)
  }

  lemma SecondNamed(u: Uuid, v: Uuid)
    requires u != v
    ensures DaemonStep(SecondAfter(u, v, 0), Advance(2, true)) == SecondAfter(u, v, 1)
  {
  }

  lemma SecondUp(u: Uuid, v: Uuid)
    requires u != v
    ensures DaemonStep(SecondAfter(u, v, 1), Advance(2, true)) == SecondAfter(u, v, 2)
  {
  }

  lemma SecondServing(u: Uuid, v: Uuid)
    requires u != v
    ensures DaemonStep(SecondAfter(u, v, 2), Advance(2, true)) == SecondAfter(u, v, 3)
  {
  }

  lemma {:induction false} SecondAdvances(u: Uuid, v: Uuid, n: nat)
    requires u != v && n <= 3
    ensures DaemonSteps(SecondAfter(u, v, 0), Advances(2, n)) == SecondAfter(u, v, n)
  {
    if n > 0 {
      SecondAdvances(u, v, n - 1);
      AdvanceOnce(SecondAfter(u, v, 0), 2, n - 1);
      if n == 1 {
        SecondNamed(u, v);
      } else if n == 2 {
        SecondUp(u, v);
      } else {
        SecondServing(u, v);
      }
    }
  }

  lemma SecondComesUp(u: Uuid, v: Uuid, h1: Host)
    requires u != v && h1 == Host(map[], map[u := 1], map[u := IfNumber(u)], map[], 2)
    ensures Exec(h1, StartConn(v, Launching(Advances(2, 3)))) == CrashedBeside(u, v)
  {
    assert CleanedUp(h1, v) == h1;
    assert WithLaunched(h1, v) == SecondAfter(u, v, 0);
    SecondAdvances(u, v, 3);
  }

  // ---- orphaned interfaces ----

  /** An interface left behind by a dead daemon of u with no state file to find it by. */
  ghost predicate Orphaned(h: Host, u: Uuid) {
    && IfNumber(u) in h.ifaces && h.ifaces[IfNumber(u)] < h.nextPid
    && h.ifaces[IfNumber(u)] !in h.procs
    && u !in h.stateFiles
    && forall p :: OwnsInterface(h, p) ==> h.procs[p].uuid != u
  }

  lemma {:induction false} OrphanedSteps(us: set<Uuid>, h: Host, acts: seq<DaemonAct>, u: Uuid)
    requires DistinctNames(us) && Good(us, h) && u in us && Orphaned(h, u)
    ensures Orphaned(DaemonSteps(h, acts), u) && Good(us, DaemonSteps(h, acts))
    decreases |acts|
  {
    if acts == [] {
    } else {
      GoodDaemonStep(us, h, acts[0]);
      OrphanedStep(us, h, acts[0], u);
      OrphanedSteps(us, DaemonStep(h, acts[0]), acts[1..], u);
    }
  }

  lemma OrphanedStep(us: set<Uuid>, h: Host, a: DaemonAct, u: Uuid)
    requires DistinctNames(us) && Good(us, h) && u in us && Orphaned(h, u)
    ensures Orphaned(DaemonStep(h, a), u)
  {
    if a.pid in h.procs && a.Advance? {
      match h.procs[a.pid].phase
      case Launched =>
      case Named =>
      case Up =>
      case Serving =>
      case Unfiled =>
      case Down =>
      case Leaving =>
    }
  }

  lemma {:induction false} OrphanedPolled(us: set<Uuid>, h: Host, polls: seq<seq<DaemonAct>>, k: nat, u: Uuid)
    requires DistinctNames(us) && Good(us, h) && u in us && Orphaned(h, u) && k <= |polls|
    ensures Orphaned(Polled(h, polls, k), u) && Good(us, Polled(h, polls, k))
  {
    if k == 0 {
    } else {
      OrphanedPolled(us, h, polls, k - 1, u);
      OrphanedSteps(us, Polled(h, polls, k - 1), polls[k - 1], u);
    }
  }

  lemma OrphanedCleanup(us: set<Uuid>, h: Host, v: Uuid, u: Uuid)
    requires DistinctNames(us) && Good(us, h) && u in us && v in us && Orphaned(h, u)
    ensures Orphaned(CleanedUp(h, v), u)
  {
  }

  lemma OrphanedLaunch(us: set<Uuid>, h: Host, v: Uuid, u: Uuid)
    requires Good(us, h) && Orphaned(h, u)
    ensures Orphaned(WithLaunched(h, v), u)
  {
    var h' := WithLaunched(h, v);
    assert forall p :: OwnsInterface(h', p) ==> OwnsInterface(h, p) && h'.procs[p] == h.procs[p];
  }

  lemma OrphanedPause(us: set<Uuid>, h: Host, v: Uuid, pause: seq<DaemonAct>, u: Uuid)
    requires DistinctNames(us) && Good(us, h) && u in us && v in us && Orphaned(h, u)
    requires forall q :: Active(h, q) ==> h.procs[q].uuid != v
    ensures Orphaned(DaemonSteps(WithLaunched(h, v), pause), u)
  {
    GoodLaunch(us, h, v);
    OrphanedLaunch(us, h, v, u);
    OrphanedSteps(us, WithLaunched(h, v), pause, u);
  }

  lemma OrphanedStart(us: set<Uuid>, h: Host, v: Uuid, c: StartScript, u: Uuid)
    requires DistinctNames(us) && Good(us, h) && u in us && v in us && Orphaned(h, u) && Quiet(h, v)
    ensures Orphaned(Start(h, v, c).0, u)
  {
    if !IsRunning(h, v) {
      ReadyToLaunch(us, h, v);
      OrphanedCleanup(us, h, v, u);
      if c.registered && c.binary {
        OrphanedPause(us, CleanedUp(h, v), v, c.pause, u);
      }
    }
  }

  lemma OrphanedEnd(us: set<Uuid>, h: Host, p: Pid, c: StopScript, u: Uuid)
    requires DistinctNames(us) && Good(us, h) && u in us && Orphaned(h, u) && |c.polls| == POLLS
    ensures Orphaned(Ended(h, p, c), u)
  {
    var h1 := DaemonSteps(h, c.before);
    OrphanedSteps(us, h, c.before, u);
    var broke := if p in h1.procs then FirstDeadPoll(h1, p, c.polls, 0) else 0;
    OrphanedPolled(us, h1, c.polls, if broke == POLLS + 1 then POLLS else broke, u);
  }

  lemma OrphanedStop(us: set<Uuid>, h: Host, v: Uuid, c: StopScript, u: Uuid)
    requires DistinctNames(us) && Good(us, h) && u in us && v in us && Orphaned(h, u) && |c.polls| == POLLS
    ensures Orphaned(Stop(h, v, c).0, u)
  {
    if IsRunning(h, v) {
      var h3 := Ended(h, h.pidFiles[v], c);
      OrphanedEnd(us, h, h.pidFiles[v], c, u);
      GoodEnded(us, h, h.pidFiles[v], c);
      assert Stop(h, v, c).0 == CleanedUp(h3.(pidFiles := Drop(h3.pidFiles, v)), v);
    }
  }

  /** A daemon that dies after creating its interface and before writing the state file leaves an orphan. */
  lemma CrashLeavesOrphan(u: Uuid)
    ensures var c := StartConn(u, Launching(Advances(1, 2) + [Crash(1, true)]));
            QuietRun(EMPTY_HOST, [c]) && Good({u}, ExecAll(EMPTY_HOST, [c])) && Orphaned(ExecAll(EMPTY_HOST, [c]), u)
  {
    var c := StartConn(u, Launching(Advances(1, 2) + [Crash(1, true)]));
    ExecTwo(EMPTY_HOST, c, c);
    FirstStart(u, Advances(1, 2) + [Crash(1, true)]);
    StepsSnoc(Alone(u, 0), Advances(1, 2), Crash(1, true));
    AloneAfter(u, 2);
    assert DaemonStep(Alone(u, 2), Crash(1, true)) == Host(map[], map[u := 1], map[], map[IfNumber(u) := 1], 2);
    assert [c][1..] == [];
  }

  /** A launched daemon gets its interface exactly when no interface of that name is there. */
  lemma GetsInterface(h: Host, p: Pid, u: Uuid)
    requires p in h.procs && h.procs[p] == Proc(u, Launched)
    ensures OwnsInterface(DaemonSteps(h, Advances(p, 2)), p) <==> IfNumber(u) !in h.ifaces
  {
    AdvanceOnce(h, p, 0);
    AdvanceOnce(h, p, 1);
    var h1 := DaemonStep(h, Advance(p, true));
    assert h1.procs[p] == Proc(u, Named) && h1.ifaces == h.ifaces;
  }

  /**
   * The daemon of a start gets its interface exactly when no interface of that name is there, or the
   * connection has a state file by which the clean-up finds and destroys it.
   */
  lemma InterfaceComesUpExactlyWhen(us: set<Uuid>, h: Host, u: Uuid)
    requires Good(us, h) && u in us && !IsRunning(h, u)
    ensures OwnsInterface(Start(h, u, Launching(Advances(h.nextPid, 2))).0, h.nextPid)
       <==> IfNumber(u) !in h.ifaces || u in h.stateFiles
  {
    GetsInterface(WithLaunched(CleanedUp(h, u), u), h.nextPid, u);
  }

  /**
   * An interface orphaned without a state file (a crash before WriteIfaceStateFile, or a failed
   * write) is never cleaned up: whatever is started and stopped, no daemon of u gets an interface again.
   */
  lemma {:induction false} OrphanBlocksForever(us: set<Uuid>, h: Host, cs: seq<Command>, u: Uuid)
    requires DistinctNames(us) && Good(us, h) && u in us && Orphaned(h, u)
    requires Over(us, cs) && QuietRun(h, cs)
    ensures Orphaned(ExecAll(h, cs), u)
    decreases |cs|
  {
    if cs == [] {
    } else {
      match cs[0] {
        case StartConn(v, script) =>
          GoodStart(us, h, v, script);
          OrphanedStart(us, h, v, script, u);
        case StopConn(v, script) =>
          GoodStop(us, h, v, script);
          OrphanedStop(us, h, v, script, u);
        case Daemons(acts) =>
          OrphanedSteps(us, h, acts, u);
      }
      OrphanBlocksForever(us, Exec(h, cs[0]), cs[1..], u);
    }
  }
}
