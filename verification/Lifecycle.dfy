// Starting and stopping cfzt-warp daemons: service.py against main.go. The Python commands run one
// after the other; between their statements the daemons take steps of their own.
module Lifecycle {
  import opened Basics

  type Pid = nat

  // ---- interface names: shortUUID in main.go ----

  function WithoutDashes(u: string): string {
    if u == "" then ""
    else (if u[0] == '-' then "" else [u[0]]) + WithoutDashes(u[1..])
  }

  /** The number n of the interface cfzt<n>: the last four hex digits of the UUID, or 0. */
  function IfNumber(u: Uuid): int {
    var s := WithoutDashes(u);
    if |s| < 4 then 0
    else
      var a, b, c, d := HexDigit(s[|s| - 4]), HexDigit(s[|s| - 3]), HexDigit(s[|s| - 2]), HexDigit(s[|s| - 1]);
      if a < 0 || b < 0 || c < 0 || d < 0 then 0 else 4096 * a + 256 * b + 16 * c + d
  }

  // ---- the host ----

  /** How far a daemon has come; every phase but the first names its latest visible effect. */
  datatype Phase =
    | Launched
    | Named        // wrote its pid file
    | Up           // created its interface
    | Serving      // wrote its interface state file, or only warned that it could not
    | Unfiled      // removed the state file
    | Down         // closed its interface
    | Leaving      // removed the pid file; about to exit

  datatype Proc = Proc(uuid: Uuid, phase: Phase)

  datatype Host = Host(
    procs: map<Pid, Proc>,
    pidFiles: map<Uuid, Pid>,
    stateFiles: map<Uuid, int>,
    ifaces: map<int, Pid>,        // which daemon created the interface
    nextPid: Pid)

  datatype DaemonAct =
    | Advance(pid: Pid, written: bool)
    | Crash(pid: Pid, orphan: bool)     // any death without clean-up; the interface may stay behind

  function Drop<K, V>(m: map<K, V>, k: K): map<K, V> {
    m - {k}
  }

  function Die(h: Host, p: Pid): Host {
    h.(procs := Drop(h.procs, p))
  }

  function Advanced(h: Host, p: Pid, phase: Phase): Host
    requires p in h.procs
  {
    h.(procs := h.procs[p := h.procs[p].(phase := phase)])
  }

  /** One step of daemon p: the statements of main and runMASQUE that others can see. */
  function DaemonStep(h: Host, a: DaemonAct): Host {
    if a.pid !in h.procs then h
    else
      var p, u := a.pid, h.procs[a.pid].uuid;
      match a
      case Crash(_, orphan) =>
        var h' := Die(h, p);
        if orphan then h' else h'.(ifaces := map n | n in h.ifaces && h.ifaces[n] != p :: h.ifaces[n])
      case Advance(_, written) =>
        match h.procs[p].phase
        case Launched => Advanced(h, p, Named).(pidFiles := h.pidFiles[u := p])
        case Named =>
          if IfNumber(u) in h.ifaces then Die(h, p)      // the rename fails and log.Fatalf ends the process
          else Advanced(h, p, Up).(ifaces := h.ifaces[IfNumber(u) := p])
        case Up =>
          if written then Advanced(h, p, Serving).(stateFiles := h.stateFiles[u := IfNumber(u)])
          else Advanced(h, p, Serving)
        case Serving => Advanced(h, p, Unfiled).(stateFiles := Drop(h.stateFiles, u))
        case Unfiled => Advanced(h, p, Down).(ifaces := Drop(h.ifaces, IfNumber(u)))
        case Down => Advanced(h, p, Leaving).(pidFiles := Drop(h.pidFiles, u))
        case Leaving => Die(h, p)
  }

  function DaemonSteps(h: Host, acts: seq<DaemonAct>): Host
    decreases |acts|
  {
    if acts == [] then h else DaemonSteps(DaemonStep(h, acts[0]), acts[1..])
  }

  /** _read_pid and _is_running together. */
  predicate IsRunning(h: Host, u: Uuid) {
    u in h.pidFiles && h.pidFiles[u] in h.procs
  }

  /** _cleanup_stale_iface */
  function CleanedUp(h: Host, u: Uuid): Host {
    if u in h.stateFiles
    then h.(ifaces := Drop(h.ifaces, h.stateFiles[u]), stateFiles := Drop(h.stateFiles, u))
    else h
  }

  // ---- start_connection and stop_connection ----

  /** What start_connection finds, and what the daemons do during its half-second pause. */
  datatype StartScript = StartScript(registered: bool, binary: bool, pause: seq<DaemonAct>)

  datatype StartResult = AlreadyRunning(pid: Pid) | NotRegistered | NoBinary | ExitedAtOnce | Started(pid: Pid)

  function Start(h: Host, u: Uuid, c: StartScript): (Host, StartResult) {
    if IsRunning(h, u) then (h, AlreadyRunning(h.pidFiles[u]))
    else
      var h1 := CleanedUp(h, u);
      if !c.registered then (h1, NotRegistered)
      else if !c.binary then (h1, NoBinary)
      else
        var p := h1.nextPid;
        var h2 := DaemonSteps(h1.(procs := h1.procs[p := Proc(u, Launched)], nextPid := p + 1), c.pause);
        (h2, if p in h2.procs then Started(p) else ExitedAtOnce)
  }

  const POLLS: nat := 50

  /** What the daemons do before SIGTERM is sent, and before each poll. */
  datatype StopScript = StopScript(before: seq<DaemonAct>, polls: seq<seq<DaemonAct>>)

  datatype StopResult = NotRunning | Stopped(killed: bool)

  /** The host after the first k sleeps of the polling loop, if the loop has not broken off. */
  function Polled(h: Host, polls: seq<seq<DaemonAct>>, k: nat): Host
    requires k <= |polls|
  {
    if k == 0 then h else DaemonSteps(Polled(h, polls, k - 1), polls[k - 1])
  }

  /** The first poll in k+1, ... that finds p dead, or none. */
  function FirstDeadPoll(h: Host, p: Pid, polls: seq<seq<DaemonAct>>, k: nat): (r: nat)
    requires k <= |polls|
    ensures k <= r <= |polls| + 1
    decreases |polls| - k
  {
    if k == |polls| then k + 1
    else if p !in Polled(h, polls, k + 1).procs then k + 1
    else FirstDeadPoll(h, p, polls, k + 1)
  }

  function Stop(h: Host, u: Uuid, c: StopScript): (Host, StopResult)
    requires |c.polls| == POLLS
  {
    if !IsRunning(h, u) then (h, NotRunning)
    else
      var p := h.pidFiles[u];
      var h1 := DaemonSteps(h, c.before);
      var broke := if p in h1.procs then FirstDeadPoll(h1, p, c.polls, 0) else 0;
      var killed := broke == POLLS + 1;
      var h2 := Polled(h1, c.polls, if killed then POLLS else broke);
      var h3 := if killed then Die(h2, p) else h2;
      (CleanedUp(h3.(pidFiles := Drop(h3.pidFiles, u)), u), Stopped(killed))
  }

  datatype Command =
    | StartConn(uuid: Uuid, startScript: StartScript)
    | StopConn(uuid: Uuid, stopScript: StopScript)
    | Daemons(acts: seq<DaemonAct>)

  predicate WellFormed(c: Command) {
    c.StopConn? ==> |c.stopScript.polls| == POLLS
  }

  function Exec(h: Host, c: Command): Host
    requires WellFormed(c)
  {
    match c
    case StartConn(u, script) => Start(h, u, script).0
    case StopConn(u, script) => Stop(h, u, script).0
    case Daemons(acts) => DaemonSteps(h, acts)
  }

  function ExecAll(h: Host, cs: seq<Command>): Host
    requires forall i :: 0 <= i < |cs| ==> WellFormed(cs[i])
    decreases |cs|
  {
    if cs == [] then h else ExecAll(Exec(h, cs[0]), cs[1..])
  }

  /** The commands of service.py on the host they change. */
  class Service {
    var host: Host

    constructor (h: Host)
      ensures host == h
    {
      host := h;
    }

    method CleanupStaleIface(u: Uuid)
      modifies this
      ensures host == CleanedUp(old(host), u)
    {
      if u in host.stateFiles {
        var iface := host.stateFiles[u];
        host := host.(ifaces := Drop(host.ifaces, iface));
        host := host.(stateFiles := Drop(host.stateFiles, u));
      }
    }

    method StartConnection(u: Uuid, c: StartScript) returns (r: StartResult)
      modifies this
      ensures (host, r) == Start(old(host), u, c)
    {
      if IsRunning(host, u) {
        return AlreadyRunning(host.pidFiles[u]);
      }
      CleanupStaleIface(u);
      if !c.registered {
        return NotRegistered;
      }
      if !c.binary {
        return NoBinary;
      }
      var p := host.nextPid;
      host := host.(procs := host.procs[p := Proc(u, Launched)], nextPid := p + 1);
      host := DaemonSteps(host, c.pause);
      r := if p in host.procs then Started(p) else ExitedAtOnce;
    }

    method StopConnection(u: Uuid, c: StopScript) returns (r: StopResult)
      requires |c.polls| == POLLS
      modifies this
      ensures (host, r) == Stop(old(host), u, c)
    {
      if !IsRunning(host, u) {
        return NotRunning;
      }
      var p := host.pidFiles[u];
      host := DaemonSteps(host, c.before);
      ghost var h1 := host;
      var killed := false;
      if p in host.procs {
        var k := 0;
        var broke := false;
        while k < POLLS && !broke
          invariant k <= POLLS
          invariant host == Polled(h1, c.polls, k)
          invariant if broke then FirstDeadPoll(h1, p, c.polls, 0) == k
                    else FirstDeadPoll(h1, p, c.polls, 0) == FirstDeadPoll(h1, p, c.polls, k)
          decreases POLLS - k, !broke
        {
          host := DaemonSteps(host, c.polls[k]);
          k := k + 1;
          broke := p !in host.procs;
        }
        if !broke {
          killed := true;
          host := Die(host, p);
        }
      }
      host := host.(pidFiles := Drop(host.pidFiles, u));
      CleanupStaleIface(u);
      r := Stopped(killed);
    }

    /** cmd_stop: every connection in the order of the configuration. */
    method CmdStop(stops: seq<(Uuid, StopScript)>)
      requires forall i :: 0 <= i < |stops| ==> |stops[i].1.polls| == POLLS
      modifies this
      ensures host == ExecAll(old(host), StopCommands(stops))
    {
      var cs := StopCommands(stops);
      for i := 0 to |stops|
        invariant ExecAll(host, cs[i..]) == ExecAll(old(host), cs)
      {
        assert cs[i..][0] == StopConn(stops[i].0, stops[i].1) && cs[i..][1..] == cs[i + 1..];
        var _ := StopConnection(stops[i].0, stops[i].1);
      }
    }

    /** cmd_start: the connections that are enabled, in the same order. */
    method CmdStart(starts: seq<(Uuid, StartScript)>)
      modifies this
      ensures host == ExecAll(old(host), StartCommands(starts))
    {
      var cs := StartCommands(starts);
      for i := 0 to |starts|
        invariant ExecAll(host, cs[i..]) == ExecAll(old(host), cs)
      {
        assert cs[i..][0] == StartConn(starts[i].0, starts[i].1) && cs[i..][1..] == cs[i + 1..];
        var _ := StartConnection(starts[i].0, starts[i].1);
      }
    }

    /** cmd_restart */
    method Restart(stops: seq<(Uuid, StopScript)>, starts: seq<(Uuid, StartScript)>, pause: seq<DaemonAct>)
      requires forall i :: 0 <= i < |stops| ==> |stops[i].1.polls| == POLLS
      modifies this
      ensures host == ExecAll(old(host), RestartCommands(stops, starts, pause))
    {
      ExecConcat(host, StopCommands(stops), [Daemons(pause)]);
      ExecConcat(host, StopCommands(stops) + [Daemons(pause)], StartCommands(starts));
      CmdStop(stops);
      assert [Daemons(pause)][1..] == [];
      host := DaemonSteps(host, pause);
      CmdStart(starts);
    }
  }

  lemma {:induction false} ExecConcat(h: Host, a: seq<Command>, b: seq<Command>)
    requires forall i :: 0 <= i < |a| ==> WellFormed(a[i])
    requires forall i :: 0 <= i < |b| ==> WellFormed(b[i])
    ensures ExecAll(h, a + b) == ExecAll(ExecAll(h, a), b)
    decreases |a|
  {
    if a == [] {
      assert a + b == b;
    } else {
      assert (a + b)[1..] == a[1..] + b;
      ExecConcat(Exec(h, a[0]), a[1..], b);
    }
  }

  function StopCommands(stops: seq<(Uuid, StopScript)>): (cs: seq<Command>)
    ensures |cs| == |stops| && forall i :: 0 <= i < |cs| ==> cs[i] == StopConn(stops[i].0, stops[i].1)
  {
    seq(|stops|, i requires 0 <= i < |stops| => StopConn(stops[i].0, stops[i].1))
  }

  function StartCommands(starts: seq<(Uuid, StartScript)>): (cs: seq<Command>)
    ensures |cs| == |starts| && forall i :: 0 <= i < |cs| ==> cs[i] == StartConn(starts[i].0, starts[i].1)
  {
    seq(|starts|, i requires 0 <= i < |starts| => StartConn(starts[i].0, starts[i].1))
  }

  function RestartCommands(stops: seq<(Uuid, StopScript)>, starts: seq<(Uuid, StartScript)>, pause: seq<DaemonAct>): (cs: seq<Command>)
    requires forall i :: 0 <= i < |stops| ==> |stops[i].1.polls| == POLLS
    ensures |cs| == |stops| + 1 + |starts|
    ensures forall i :: 0 <= i < |cs| ==> WellFormed(cs[i])
  {
    StopCommands(stops) + [Daemons(pause)] + StartCommands(starts)
  }
}
