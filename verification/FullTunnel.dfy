// Full-tunnel routing: AddDefaultRoute of tun/tun_freebsd.go, the DNS host routes and the deferred
// undo of runMASQUE in main.go.
module FullTunnel {
  import opened Basics
  import opened Routes

  /** `route -n get default`: the gateway address of the default route, if it has one. */
  function DefaultGateway(t: Table): Option<string> {
    if DEFAULT in t && t[DEFAULT].Via? && t[DEFAULT].gateway != "" then Some(t[DEFAULT].gateway) else None
  }

  datatype Undo =
    | CloseTun
    | RemoveStateFile
    | RestoreDefault(gateway: string)
    | DeleteHost(host: Address)

  /**
   * The endpoint list of AddDefaultRoute, the connection's settings, and how route(8) treats each add.
   * A pin cannot be added with no gateway. Endpoints.SOURCE_LIST is the list in the code.
   */
  datatype Setup = Setup(
    endpoints: seq<Prefix>,
    full: bool,
    systemDns: bool,
    servers: seq<Address>,
    refusesPin: seq<bool>,
    refusesServer: seq<bool>,
    refusesDefault: bool)

  predicate Scripted(c: Setup) {
    && |c.refusesPin| == |c.endpoints| && |c.refusesServer| == |c.servers|
    && DistinctPins(c.endpoints)
  }

  predicate DistinctPins(pins: seq<Prefix>) {
    && (forall i :: 0 <= i < |pins| ==> pins[i] != DEFAULT)
    && (forall i, j :: 0 <= i < j < |pins| ==> pins[i] != pins[j])
  }

  /** The table after the first k pins. */
  function Pinned(t: Table, pins: seq<Prefix>, gw: Option<string>, refuses: seq<bool>, k: nat): Table
    requires k <= |pins| == |refuses|
  {
    if k == 0 then t
    else
      var before := Pinned(t, pins, gw, refuses, k - 1);
      if gw.None? then before else Added(before, pins[k - 1], Via(gw.value), refuses[k - 1])
  }

  /** `route change default`, and `route add default` if that fails. */
  function Defaulted(t: Table, h: Hop, refused: bool): Table {
    if DEFAULT in t then Changed(t, DEFAULT, h) else Added(t, DEFAULT, h, refused)
  }

  /** The DNS servers among the first k whose host route was added, oldest first. */
  function AddedHosts(t: Table, servers: seq<Address>, refuses: seq<bool>, k: nat): seq<Address>
    requires k <= |servers| == |refuses|
  {
    if k == 0 then []
    else
      var before := AddedHosts(t, servers, refuses, k - 1);
      if servers[k - 1] in t || servers[k - 1] in before || refuses[k - 1] then before
      else before + [servers[k - 1]]
  }

  /** The k-th server's add. */
  lemma HostStep(t: Table, servers: seq<Address>, refuses: seq<bool>, k: nat, gw: string)
    requires k < |servers| == |refuses|
    ensures var before, after := AddedHosts(t, servers, refuses, k), AddedHosts(t, servers, refuses, k + 1);
            var ok := servers[k] !in WithHosts(t, before, gw) && !refuses[k];
            && Added(WithHosts(t, before, gw), servers[k], Via(gw), refuses[k]) == WithHosts(t, after, gw)
            && Deletes(after) == Deletes(before) + if ok then [DeleteHost(servers[k])] else []
  {
    var before := AddedHosts(t, servers, refuses, k);
    WithHostsSnoc(t, before, servers[k], gw);
    DeletesSnoc(before, servers[k]);
  }

  function WithHosts(t: Table, hosts: seq<Address>, gw: string): Table {
    t + map h | h in hosts :: Via(gw)
  }

  lemma WithHostsSnoc(t: Table, hosts: seq<Address>, h: Address, gw: string)
    ensures WithHosts(t, hosts + [h], gw) == WithHosts(t, hosts, gw)[h := Via(gw)]
    ensures h in WithHosts(t, hosts, gw) <==> h in t || h in hosts
  {
  }

  lemma DeletesSnoc(hosts: seq<Address>, h: Address)
    ensures Deletes(hosts + [h]) == Deletes(hosts) + [DeleteHost(h)]
  {
  }

  /** The table and the stack of defers behind the first k DNS servers, from table t and stack was. */
  ghost predicate ServersDone(t: Table, c: Setup, gw: string, k: nat, was: seq<Undo>, now: Table, stack: seq<Undo>)
    requires Scripted(c) && k <= |c.servers|
  {
    var hosts := AddedHosts(t, c.servers, c.refusesServer, k);
    now == WithHosts(t, hosts, gw) && stack == was + Deletes(hosts)
  }

  lemma NoServersYet(t: Table, c: Setup, gw: string, was: seq<Undo>)
    requires Scripted(c)
    ensures ServersDone(t, c, gw, 0, was, t, was)
  {
    assert WithHosts(t, [], gw) == t;
  }

  lemma ServerStep(t: Table, c: Setup, gw: string, k: nat, was: seq<Undo>, now: Table, stack: seq<Undo>)
    requires Scripted(c) && k < |c.servers| && ServersDone(t, c, gw, k, was, now, stack)
    ensures ServersDone(t, c, gw, k + 1, was, Added(now, c.servers[k], Via(gw), c.refusesServer[k]),
                        stack + if c.servers[k] !in now && !c.refusesServer[k] then [DeleteHost(c.servers[k])] else [])
  {
    var before := Deletes(AddedHosts(t, c.servers, c.refusesServer, k));
    var more := if c.servers[k] !in now && !c.refusesServer[k] then [DeleteHost(c.servers[k])] else [];
    HostStep(t, c.servers, c.refusesServer, k, gw);
    assert was + before + more == was + (before + more);
  }

  /** The table with the default through the TUN, before DNS host routes. */
  function Base(t: Table, c: Setup): Table
    requires Scripted(c)
  {
    Defaulted(Pinned(t, c.endpoints, DefaultGateway(t), c.refusesPin, |c.endpoints|), Tun, c.refusesDefault)
  }

  function HostsOf(t: Table, c: Setup): seq<Address>
    requires Scripted(c)
  {
    if c.full && c.systemDns && DefaultGateway(t).Some?
    then AddedHosts(Base(t, c), c.servers, c.refusesServer, |c.servers|)
    else []
  }

  /** The table while the tunnel is up. */
  function UpTable(t: Table, c: Setup): Table
    requires Scripted(c)
  {
    if !c.full then t
    else if DefaultGateway(t).None? then Base(t, c)
    else WithHosts(Base(t, c), HostsOf(t, c), DefaultGateway(t).value)
  }

  /** The deferred calls, first deferred first. */
  function Defers(t: Table, c: Setup): seq<Undo>
    requires Scripted(c)
  {
    [CloseTun, RemoveStateFile]
    + (if c.full && DefaultGateway(t).Some? then [RestoreDefault(DefaultGateway(t).value)] else [])
    + Deletes(HostsOf(t, c))
  }

  function Deletes(hosts: seq<Address>): (d: seq<Undo>)
    ensures |d| == |hosts| && forall i :: 0 <= i < |d| ==> d[i] == DeleteHost(hosts[i])
  {
    seq(|hosts|, i requires 0 <= i < |hosts| => DeleteHost(hosts[i]))
  }

  function Undone(t: Table, u: Undo): Table {
    match u
    case CloseTun => WithoutTun(t)
    case RemoveStateFile => t
    case RestoreDefault(gw) => Defaulted(t, Via(gw), false)
    case DeleteHost(h) => Deleted(t, h)
  }

  /** Deferred calls run last first. */
  function Unwound(t: Table, defers: seq<Undo>): Table
    decreases |defers|
  {
    if defers == [] then t
    else Unwound(Undone(t, defers[|defers| - 1]), defers[..|defers| - 1])
  }

  /** runMASQUE on the kernel's table. */
  class Daemon {
    const kernel: Kernel
    var defers: seq<Undo>
    var undone: seq<Undo>     // the deferred calls in the order in which they ran

    constructor (k: Kernel)
      ensures kernel == k && defers == [] && undone == []
    {
      kernel := k;
      defers, undone := [], [];
    }

    method AddDefaultRoute(gw: Option<string>, c: Setup)
      requires Scripted(c)
      modifies kernel
      ensures kernel.routes == Defaulted(Pinned(old(kernel.routes), c.endpoints, gw, c.refusesPin, |c.endpoints|), Tun, c.refusesDefault)
    {
      for k := 0 to |c.endpoints|
        invariant kernel.routes == Pinned(old(kernel.routes), c.endpoints, gw, c.refusesPin, k)
      {
        if gw.Some? {
          var _ := kernel.Add(c.endpoints[k], Via(gw.value), c.refusesPin[k]);
        }
      }
      var changed := kernel.Change(DEFAULT, Tun);
      if !changed {
        var _ := kernel.Add(DEFAULT, Tun, c.refusesDefault);
      }
    }

    /** The body of the loop over DNS servers: an add that succeeds defers its deletion. */
    method AddHostRoute(srv: Address, gw: string, refused: bool)
      modifies this`defers, kernel
      ensures kernel.routes == Added(old(kernel.routes), srv, Via(gw), refused)
      ensures defers == old(defers) + if srv !in old(kernel.routes) && !refused then [DeleteHost(srv)] else []
    {
      var ok := kernel.Add(srv, Via(gw), refused);
      if ok {
        defers := defers + [DeleteHost(srv)];
      }
    }

    method AddHostRoutes(gw: string, c: Setup)
      requires Scripted(c)
      modifies this`defers, kernel
      ensures var hosts := AddedHosts(old(kernel.routes), c.servers, c.refusesServer, |c.servers|);
              && kernel.routes == WithHosts(old(kernel.routes), hosts, gw)
              && defers == old(defers) + Deletes(hosts)
    {
      ghost var t := kernel.routes;
      NoServersYet(t, c, gw, defers);
      for k := 0 to |c.servers|
        invariant ServersDone(t, c, gw, k, old(defers), kernel.routes, defers)
      {
        ServerStep(t, c, gw, k, old(defers), kernel.routes, defers);
        AddHostRoute(c.servers[k], gw, c.refusesServer[k]);
      }
    }

    /** From the creation of the TUN to the call of MaintainTunnel. */
    method Prepare(c: Setup)
      requires Scripted(c)
      modifies this, kernel
      ensures kernel.routes == UpTable(old(kernel.routes), c)
      ensures defers == Defers(old(kernel.routes), c)
      ensures undone == old(undone)
    {
      ghost var t := kernel.routes;
      defers := [CloseTun];
      defers := defers + [RemoveStateFile];
      if c.full {
        var gw := DefaultGateway(kernel.routes);
        AddDefaultRoute(gw, c);
        if gw.Some? {
          defers := defers + [RestoreDefault(gw.value)];
          if c.systemDns {
            AddHostRoutes(gw.value, c);
          } else {
            assert WithHosts(Base(t, c), [], gw.value) == Base(t, c);
          }
        }
      }
    }

    method RunUndo(u: Undo)
      modifies this`undone, kernel
      ensures kernel.routes == Undone(old(kernel.routes), u)
      ensures undone == old(undone) + [u]
    {
      match u {
        case CloseTun => kernel.InterfaceGone();
        case RemoveStateFile =>
        case RestoreDefault(gw) =>
          var changed := kernel.Change(DEFAULT, Via(gw));
          if !changed {
            var _ := kernel.Add(DEFAULT, Via(gw), false);
          }
        case DeleteHost(h) =>
          var _ := kernel.Delete(h);
      }
      undone := undone + [u];
    }

    method Unwind()
      modifies this, kernel
      ensures kernel.routes == Unwound(old(kernel.routes), old(defers))
      ensures defers == []
      ensures undone == old(undone) + Backwards(old(defers))
    {
      ghost var all, t, done := defers, kernel.routes, undone;
      while defers != []
        invariant Unwound(kernel.routes, defers) == Unwound(t, all)
        invariant undone + Backwards(defers) == done + Backwards(all)
        decreases |defers|
      {
        var u := defers[|defers| - 1];
        ghost var rest := Backwards(defers[..|defers| - 1]);
        assert undone + ([u] + rest) == undone + [u] + rest;
        RunUndo(u);
        defers := defers[..|defers| - 1];
      }
    }

    /**
     * The whole of runMASQUE, from a start that creates the TUN. MaintainTunnel leaves routes alone.
     * An ending without return runs no defer, and the interface may stay behind.
     */
    method RunMasque(c: Setup, ending: Ending)
      requires Scripted(c)
      modifies this, kernel
      ensures kernel.routes == AfterRun(old(kernel.routes), c, ending)
      ensures undone == old(undone) + (if ending.Returned? then Backwards(Defers(old(kernel.routes), c)) else [])
    {
      Prepare(c);
      if ending.Returned? {
        Unwind();
      } else if !ending.orphan {
        kernel.InterfaceGone();
      }
    }
  }

  /**
   * How a run whose routes are in place ends: MaintainTunnel returns, its TLS configuration does not
   * parse and log.Fatalf ends the process, or the process is killed or crashes. With orphan the TUN
   * interface outlives the process.
   */
  datatype Ending = Returned | TlsFailed(orphan: bool) | Killed(orphan: bool)

  function Backwards(d: seq<Undo>): (r: seq<Undo>)
    ensures |r| == |d|
  {
    if d == [] then [] else [d[|d| - 1]] + Backwards(d[..|d| - 1])
  }

  /** Where a process leaves the table when it dies with table t. */
  function Abandoned(t: Table, orphan: bool): Table {
    if orphan then t else WithoutTun(t)
  }

  function AfterRun(t: Table, c: Setup, ending: Ending): Table
    requires Scripted(c)
  {
    match ending
    case Returned => Unwound(UpTable(t, c), Defers(t, c))
    case TlsFailed(orphan) => Abandoned(UpTable(t, c), orphan)
    case Killed(orphan) => Abandoned(UpTable(t, c), orphan)
  }
}
