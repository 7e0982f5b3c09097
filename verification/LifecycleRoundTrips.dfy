// A start and a stop of one connection on a host where nothing else moves: the host is as before.
module LifecycleRoundTrips {
  import opened Basics
  import opened Lifecycle
  import opened LifecycleTheorems
  import opened LifecycleLimits

  /** The connection has left nothing on the host, and the next process id is new. */
  predicate Clear(h: Host, u: Uuid) {
    && u !in h.pidFiles && u !in h.stateFiles && IfNumber(u) !in h.ifaces
    && h.nextPid !in h.procs
  }

  /** The host with a daemon of u that has executed n statements. */
  function With(h: Host, u: Uuid, n: nat): Host
    requires n <= 6
  {
    var p := h.nextPid;
    var phase := if n == 0 then Launched else if n == 1 then Named else if n == 2 then Up else if n == 3 then Serving
                 else if n == 4 then Unfiled else if n == 5 then Down else Leaving;
    Host(h.procs[p := Proc(u, phase)],
         if 1 <= n <= 5 then h.pidFiles[u := p] else h.pidFiles,
         if n == 3 then h.stateFiles[u := IfNumber(u)] else h.stateFiles,
         if 2 <= n <= 4 then h.ifaces[IfNumber(u) := p] else h.ifaces,
         p + 1)
  }

  lemma WritesPid(h: Host, u: Uuid)
    requires Clear(h, u)
    ensures DaemonStep(With(h, u, 0), Advance(h.nextPid, true)) == With(h, u, 1)
  {
  }

  lemma CreatesInterface(h: Host, u: Uuid)
    requires Clear(h, u)
    ensures DaemonStep(With(h, u, 1), Advance(h.nextPid, true)) == With(h, u, 2)
  {
  }

  lemma WritesState(h: Host, u: Uuid)
    requires Clear(h, u)
    ensures DaemonStep(With(h, u, 2), Advance(h.nextPid, true)) == With(h, u, 3)
  {
  }

  lemma ComesUp(h: Host, u: Uuid, n: nat)
    requires Clear(h, u) && n < 3
    ensures DaemonStep(With(h, u, n), Advance(h.nextPid, true)) == With(h, u, n + 1)
  {
    if n == 0 {
      WritesPid(h, u);
    } else if n == 1 {
      CreatesInterface(h, u);
    } else {
      WritesState(h, u);
    }
  }

  lemma Unfiles(h: Host, u: Uuid)
    requires Clear(h, u)
    ensures DaemonStep(With(h, u, 3), Advance(h.nextPid, true)) == With(h, u, 4)
  {
    assert Drop(h.stateFiles[u := IfNumber(u)], u) == h.stateFiles;
  }

  lemma Closes(h: Host, u: Uuid)
    requires Clear(h, u)
    ensures DaemonStep(With(h, u, 4), Advance(h.nextPid, true)) == With(h, u, 5)
  {
    assert Drop(h.ifaces[IfNumber(u) := h.nextPid], IfNumber(u)) == h.ifaces;
  }

  lemma Leaves(h: Host, u: Uuid)
    requires Clear(h, u)
    ensures DaemonStep(With(h, u, 5), Advance(h.nextPid, true)) == With(h, u, 6)
  {
    assert Drop(h.pidFiles[u := h.nextPid], u) == h.pidFiles;
  }

  lemma GoesDown(h: Host, u: Uuid, n: nat)
    requires Clear(h, u) && 3 <= n < 6
    ensures DaemonStep(With(h, u, n), Advance(h.nextPid, true)) == With(h, u, n + 1)
  {
    if n == 3 {
      Unfiles(h, u);
    } else if n == 4 {
      Closes(h, u);
    } else {
      Leaves(h, u);
    }
  }

  lemma {:induction false} AfterAdvances(h: Host, u: Uuid, n: nat)
    requires Clear(h, u) && n <= 3
    ensures DaemonSteps(With(h, u, 0), Advances(h.nextPid, n)) == With(h, u, n)
  {
    if n > 0 {
      AfterAdvances(h, u, n - 1);
      AdvanceOnce(With(h, u, 0), h.nextPid, n - 1);
      ComesUp(h, u, n - 1);
    }
  }

  lemma {:induction false} AfterDescent(h: Host, u: Uuid, n: nat)
    requires Clear(h, u) && n <= 3
    ensures DaemonSteps(With(h, u, 3), Advances(h.nextPid, n)) == With(h, u, 3 + n)
  {
    if n > 0 {
      AfterDescent(h, u, n - 1);
      AdvanceOnce(With(h, u, 3), h.nextPid, n - 1);
      GoesDown(h, u, 2 + n);
    }
  }

  lemma Exits(h: Host, u: Uuid)
    requires Clear(h, u)
    ensures DaemonSteps(With(h, u, 3), Advances(h.nextPid, 4)) == h.(nextPid := h.nextPid + 1)
  {
    AfterDescent(h, u, 3);
    AdvanceOnce(With(h, u, 3), h.nextPid, 3);
    assert DaemonStep(With(h, u, 6), Advance(h.nextPid, true)) == h.(nextPid := h.nextPid + 1);
  }

  /** A start whose daemon comes up during the pause: one serving daemon with its three traces, and nothing else changed. */
  lemma StartServes(h: Host, u: Uuid)
    requires Clear(h, u)
    ensures Start(h, u, Launching(Advances(h.nextPid, 3))) == (With(h, u, 3), Started(h.nextPid))
  {
    assert CleanedUp(h, u) == h;
    assert WithLaunched(h, u) == With(h, u, 0);
    AfterAdvances(h, u, 3);
  }

  /** Fifty polls, the first of which sees what the daemons did, and nothing moves afterwards. */
  function OnePause(acts: seq<DaemonAct>): (polls: seq<seq<DaemonAct>>)
    ensures |polls| == 50
  {
    [acts] + seq(49, _ => [])
  }

  lemma {:induction false} NothingMoves(h: Host, polls: seq<seq<DaemonAct>>, k: nat)
    requires k <= |polls| && forall i :: 0 <= i < |polls| ==> polls[i] == []
    ensures Polled(h, polls, k) == h
  {
    if k > 0 {
      NothingMoves(h, polls, k - 1);
    }
  }

  /**
   * The daemon obeys SIGTERM: after the stop the host is what it was before the start, but for the
   * process id that was used.
   */
  lemma StopUndoesStart(h: Host, u: Uuid)
    requires Clear(h, u)
    ensures var h1 := Start(h, u, Launching(Advances(h.nextPid, 3))).0;
            Stop(h1, u, StopScript([], OnePause(Advances(h.nextPid, 4)))) == (h.(nextPid := h.nextPid + 1), Stopped(false))
  {
    var h1, p := With(h, u, 3), h.nextPid;
    var polls := OnePause(Advances(p, 4));
    StartServes(h, u);
    Exits(h, u);
    assert Polled(h1, polls, 0) == h1 && polls[0] == Advances(p, 4);
    assert Polled(h1, polls, 1) == h.(nextPid := p + 1);
    assert FirstDeadPoll(h1, p, polls, 0) == 1;
    assert Drop(h.pidFiles, u) == h.pidFiles;
    assert CleanedUp(h.(nextPid := p + 1), u) == h.(nextPid := p + 1);
  }

  lemma {:induction false} NeverDead(h: Host, p: Pid, polls: seq<seq<DaemonAct>>, k: nat)
    requires k <= |polls| && p in h.procs && forall i :: 0 <= i < |polls| ==> polls[i] == []
    ensures FirstDeadPoll(h, p, polls, k) == |polls| + 1
    decreases |polls| - k
  {
    if k < |polls| {
      NothingMoves(h, polls, k + 1);
      NeverDead(h, p, polls, k + 1);
    }
  }

  /** The clean-up after SIGKILL on that host. */
  lemma CleanAfterKill(h: Host, u: Uuid)
    requires Clear(h, u)
    ensures var h3 := Die(With(h, u, 3), h.nextPid);
            CleanedUp(h3.(pidFiles := Drop(h3.pidFiles, u)), u) == h.(nextPid := h.nextPid + 1)
  {
    AddAndDrop(h.procs, h.nextPid, Proc(u, Serving));
    AddAndDrop(h.pidFiles, u, h.nextPid);
    AddAndDrop(h.stateFiles, u, IfNumber(u));
    AddAndDrop(h.ifaces, IfNumber(u), h.nextPid);
  }

  lemma AddAndDrop<K, V>(m: map<K, V>, k: K, v: V)
    requires k !in m
    ensures Drop(m[k := v], k) == m
  {
    assert m[k := v] - {k} == m;
  }

  lemma StopWhenIgnored(h: Host, u: Uuid, p: Pid)
    requires u in h.pidFiles && h.pidFiles[u] == p && p in h.procs
    ensures var h3 := Die(h, p);
            Stop(h, u, StopScript([], OnePause([]))) == (CleanedUp(h3.(pidFiles := Drop(h3.pidFiles, u)), u), Stopped(true))
  {
    var polls := OnePause([]);
    NothingMoves(h, polls, 50);
    NeverDead(h, p, polls, 0);
  }

  /**
   * The daemon ignores SIGTERM: after fifty polls it is killed, and the host is again what it was,
   * its interface and its files gone with it.
   */
  lemma KillUndoesStart(h: Host, u: Uuid)
    requires Clear(h, u)
    ensures var h1 := Start(h, u, Launching(Advances(h.nextPid, 3))).0;
            Stop(h1, u, StopScript([], OnePause([]))) == (h.(nextPid := h.nextPid + 1), Stopped(true))
  {
    StartServes(h, u);
    StopWhenIgnored(With(h, u, 3), u, h.nextPid);
    CleanAfterKill(h, u);
  }
}
