// What a run of runMASQUE in full-tunnel mode does to the routing table, while it is up and afterwards.
module RouteTheorems {
  import opened Basics
  import opened Routes
  import opened FullTunnel

  // ---- endpoint pins ----

  /** The endpoint pins that this run adds. */
  function NewPins(t: Table, c: Setup): set<Prefix>
    requires Scripted(c)
  {
    PinsAdded(t, c.endpoints, c.refusesPin, |c.endpoints|)
  }

  function PinsAdded(t: Table, pins: seq<Prefix>, refuses: seq<bool>, k: nat): set<Prefix>
    requires k <= |pins| == |refuses|
  {
    set i | 0 <= i < k && pins[i] !in t && !refuses[i] :: pins[i]
  }

  function WithRoutes(t: Table, ps: set<Prefix>, gw: string): Table {
    t + map p | p in ps :: Via(gw)
  }

  lemma PinsAddedSnoc(t: Table, pins: seq<Prefix>, refuses: seq<bool>, k: nat)
    requires k < |pins| == |refuses| && DistinctPins(pins)
    ensures pins[k] !in PinsAdded(t, pins, refuses, k)
    ensures PinsAdded(t, pins, refuses, k + 1)
         == PinsAdded(t, pins, refuses, k) + (if pins[k] !in t && !refuses[k] then {pins[k]} else {})
  {
  }

  lemma WithRoutesSnoc(t: Table, ps: set<Prefix>, p: Prefix, gw: string)
    ensures WithRoutes(t, ps + {p}, gw) == WithRoutes(t, ps, gw)[p := Via(gw)]
    ensures p in WithRoutes(t, ps, gw) <==> p in t || p in ps
  {
  }

  /** One more pin, on a table that already has those before it. */
  lemma PinStep(t: Table, pins: seq<Prefix>, gw: string, refuses: seq<bool>, k: nat)
    requires k < |pins| == |refuses| && DistinctPins(pins)
    ensures Added(WithRoutes(t, PinsAdded(t, pins, refuses, k), gw), pins[k], Via(gw), refuses[k])
         == WithRoutes(t, PinsAdded(t, pins, refuses, k + 1), gw)
  {
    var before := PinsAdded(t, pins, refuses, k);
    PinsAddedSnoc(t, pins, refuses, k);
    WithRoutesSnoc(t, before, pins[k], gw);
    assert before + {} == before;
  }

  lemma {:induction false} PinnedAddsNewPins(t: Table, pins: seq<Prefix>, gw: string, refuses: seq<bool>, k: nat)
    requires k <= |pins| == |refuses| && DistinctPins(pins)
    ensures Pinned(t, pins, Some(gw), refuses, k) == WithRoutes(t, PinsAdded(t, pins, refuses, k), gw)
  {
    if k == 0 {
      assert PinsAdded(t, pins, refuses, 0) == {};
      assert WithRoutes(t, {}, gw) == t;
    } else {
      PinnedAddsNewPins(t, pins, gw, refuses, k - 1);
      PinStep(t, pins, gw, refuses, k - 1);
    }
  }

  // ---- host routes ----

  ghost predicate NewHosts(t: Table, hosts: seq<Address>) {
    && (forall i :: 0 <= i < |hosts| ==> hosts[i] !in t)
    && (forall i, j :: 0 <= i < j < |hosts| ==> hosts[i] != hosts[j])
  }

  /** Only hosts without a route are added, each once. */
  lemma {:induction false} AddedHostsAreNew(t: Table, servers: seq<Address>, refuses: seq<bool>, k: nat)
    requires k <= |servers| == |refuses|
    ensures NewHosts(t, AddedHosts(t, servers, refuses, k))
  {
    if k == 0 {
    } else {
      AddedHostsAreNew(t, servers, refuses, k - 1);
      var before, after := AddedHosts(t, servers, refuses, k - 1), AddedHosts(t, servers, refuses, k);
      if after != before {
        assert after == before + [servers[k - 1]];
        assert servers[k - 1] !in t && servers[k - 1] !in before;
      }
    }
  }

  lemma DeleteLastHost(t: Table, init: seq<Address>, h: Address, gw: string)
    requires h !in t && h !in init
    ensures Deleted(WithHosts(t, init + [h], gw), h) == WithHosts(t, init, gw)
  {
    WithHostsSnoc(t, init, h, gw);
  }

  /** Deleting the added hosts in reverse gives back the table they were added to. */
  lemma {:induction false} DeletesUndoHosts(t: Table, hosts: seq<Address>, gw: string, pre: seq<Undo>)
    requires NewHosts(t, hosts)
    ensures Unwound(WithHosts(t, hosts, gw), pre + Deletes(hosts)) == Unwound(t, pre)
    decreases |hosts|
  {
    if hosts == [] {
      assert WithHosts(t, hosts, gw) == t;
      assert pre + Deletes(hosts) == pre;
    } else {
      var init, h := hosts[..|hosts| - 1], hosts[|hosts| - 1];
      assert hosts == init + [h];
      DeletesSnoc(init, h);
      DeleteLastHost(t, init, h, gw);
      UnwindSnoc(WithHosts(t, hosts, gw), pre + Deletes(init), DeleteHost(h));
      assert pre + Deletes(hosts) == pre + Deletes(init) + [DeleteHost(h)];
      DeletesUndoHosts(t, init, gw, pre);
    }
  }

  // ---- undo ----

  lemma UnwindSnoc(t: Table, defers: seq<Undo>, u: Undo)
    ensures Unwound(t, defers + [u]) == Unwound(Undone(t, u), defers)
  {
    assert (defers + [u])[..|defers|] == defers;
  }

  /** The host deletions come first and bring the table back to what it was before the host routes. */
  lemma UnwindsToBase(t: Table, c: Setup, u: seq<Undo>)
    requires Scripted(c) && c.full && DefaultGateway(t).Some?
    ensures Unwound(UpTable(t, c), u + Deletes(HostsOf(t, c))) == Unwound(Base(t, c), u)
  {
    AddedHostsAreNew(Base(t, c), c.servers, c.refusesServer, |c.servers|);
    DeletesUndoHosts(Base(t, c), HostsOf(t, c), DefaultGateway(t).value, u);
  }

  lemma DefaultIsNoPin(t: Table, c: Setup)
    requires Scripted(c)
    ensures DEFAULT !in NewPins(t, c) && forall p :: p in NewPins(t, c) ==> p !in t
  {
  }

  lemma BaseIs(t: Table, c: Setup)
    requires Scripted(c) && c.full && DefaultGateway(t).Some?
    ensures Base(t, c) == WithRoutes(t, NewPins(t, c), DefaultGateway(t).value)[DEFAULT := Tun]
  {
    PinnedAddsNewPins(t, c.endpoints, DefaultGateway(t).value, c.refusesPin, |c.endpoints|);
  }

  lemma RestoreUndoesBase(t: Table, c: Setup)
    requires Scripted(c) && c.full && DefaultGateway(t).Some?
    ensures Undone(Base(t, c), RestoreDefault(DefaultGateway(t).value)) == WithRoutes(t, NewPins(t, c), DefaultGateway(t).value)
  {
    BaseIs(t, c);
    DefaultIsNoPin(t, c);
    var gw := DefaultGateway(t).value;
    var pinned := WithRoutes(t, NewPins(t, c), gw);
    assert pinned[DEFAULT] == Via(gw);
    assert pinned[DEFAULT := Tun][DEFAULT := Via(gw)] == pinned;
  }

  /**
   * Route undo. Whatever the table, the DNS servers (repeated, or routed already) and the refused
   * adds: once MaintainTunnel has returned and every deferred call but the last, Close, has run,
   * the table is the initial one, default route included, plus the endpoint pins this run added.
   */
  lemma RestoredBeforeClose(t: Table, c: Setup)
    requires Scripted(c) && c.full && DefaultGateway(t).Some?
    ensures Defers(t, c)[0] == CloseTun
    ensures Unwound(UpTable(t, c), Defers(t, c)[1..]) == WithRoutes(t, NewPins(t, c), DefaultGateway(t).value)
    ensures AfterRun(t, c, Returned) == WithoutTun(WithRoutes(t, NewPins(t, c), DefaultGateway(t).value))
  {
    var gw := DefaultGateway(t).value;
    var pinned := WithRoutes(t, NewPins(t, c), gw);
    var r, deletes := RestoreDefault(gw), Deletes(HostsOf(t, c));
    assert Defers(t, c) == [CloseTun, RemoveStateFile, r] + deletes;
    assert Defers(t, c)[1..] == [RemoveStateFile, r] + deletes;
    RestoreUndoesBase(t, c);
    UnwindsToBase(t, c, [CloseTun, RemoveStateFile, r]);
    UnwindsToBase(t, c, [RemoveStateFile, r]);
    UnwindThree(Base(t, c), CloseTun, RemoveStateFile, r);
  }

  lemma UnwindThree(t: Table, x: Undo, y: Undo, z: Undo)
    ensures Unwound(t, [y, z]) == Undone(Undone(t, z), y)
    ensures Unwound(t, [x, y]) == Undone(Undone(t, y), x)
    ensures Unwound(t, [x, y, z]) == Undone(Undone(Undone(t, z), y), x)
  {
    assert [x, y, z] == [x, y] + [z] && [y, z] == [y] + [z] && [x, y] == [x] + [y] && [x] == [] + [x] && [y] == [] + [y];
    UnwindSnoc(t, [x, y], z);
    UnwindSnoc(Undone(t, z), [x], y);
    UnwindSnoc(Undone(Undone(t, z), y), [], x);
    UnwindSnoc(t, [y], z);
    UnwindSnoc(Undone(t, z), [], y);
    UnwindSnoc(t, [x], y);
    UnwindSnoc(Undone(t, y), [], x);
  }

  /** In the other tunnel mode a run leaves the table alone, but for routes through its own interface. */
  lemma SplitModeLeavesTable(t: Table, c: Setup, ending: Ending)
    requires Scripted(c) && !c.full
    ensures UpTable(t, c) == t
    ensures AfterRun(t, c, ending) == Abandoned(t, !ending.Returned? && ending.orphan)
  {
    assert Defers(t, c) == [CloseTun, RemoveStateFile];
    UnwindThree(t, CloseTun, RemoveStateFile, RemoveStateFile);
  }

  /** What a run leaves behind: the pins it found or added, and the default route it found. */
  lemma AfterRunIs(t: Table, c: Setup)
    requires Scripted(c) && c.full && DefaultGateway(t).Some?
    ensures var t' := AfterRun(t, c, Returned);
            && WithoutTun(t') == t' && DefaultGateway(t') == DefaultGateway(t)
            && (forall p :: p in t' <==> (p in t && t[p] != Tun) || p in NewPins(t, c))
  {
    RestoredBeforeClose(t, c);
    DefaultIsNoPin(t, c);
    assert AfterRun(t, c, Returned)[DEFAULT] == t[DEFAULT];
  }

  lemma NoNewPins(t: Table, c: Setup)
    requires Scripted(c)
    ensures NewPins(t, c) == {} <==> forall i :: 0 <= i < |c.endpoints| ==> c.endpoints[i] in t || c.refusesPin[i]
  {
    forall i | 0 <= i < |c.endpoints| && c.endpoints[i] !in t && !c.refusesPin[i] ensures c.endpoints[i] in NewPins(t, c) {
    }
  }

  /**
   * A further run, with other servers and refusals, saves the same gateway and leaves the table as it
   * is exactly when it adds no pin: every endpoint has a route, or is refused again.
   */
  lemma SecondRunChangesNothing(t: Table, c: Setup, c': Setup)
    requires Scripted(c) && Scripted(c') && c.full && c'.full
    requires DefaultGateway(t).Some?
    ensures var t' := AfterRun(t, c, Returned);
            && DefaultGateway(t') == DefaultGateway(t)
            && (AfterRun(t', c', Returned) == t' <==> forall i :: 0 <= i < |c'.endpoints| ==> c'.endpoints[i] in t' || c'.refusesPin[i])
  {
    var t' := AfterRun(t, c, Returned);
    AfterRunIs(t, c);
    UnchangedExactlyWhen(t', c');
    NoNewPins(t', c');
  }

  /** A run on a table without tunnel routes changes it exactly when it adds a pin. */
  lemma UnchangedExactlyWhen(t: Table, c: Setup)
    requires Scripted(c) && c.full && DefaultGateway(t).Some? && WithoutTun(t) == t
    ensures AfterRun(t, c, Returned) == t <==> NewPins(t, c) == {}
  {
    if NewPins(t, c) == {} {
      RestoredBeforeClose(t, c);
      assert WithRoutes(t, {}, DefaultGateway(t).value) == t;
    } else {
      AfterRunIs(t, c);
      DefaultIsNoPin(t, c);
      var p :| p in NewPins(t, c);
      assert p in AfterRun(t, c, Returned) && p !in t;
    }
  }

  /** In particular the very next run with the same endpoints changes nothing if no pin of the first was refused or shadowed by a tunnel route. */
  lemma SettledAfterOneRun(t: Table, c: Setup, c': Setup)
    requires Scripted(c) && Scripted(c') && c.full && c'.full && c.endpoints == c'.endpoints
    requires DefaultGateway(t).Some?
    requires forall i :: 0 <= i < |c.endpoints| ==> if c.endpoints[i] in t then t[c.endpoints[i]] != Tun else !c.refusesPin[i]
    ensures AfterRun(AfterRun(t, c, Returned), c', Returned) == AfterRun(t, c, Returned)
  {
    AfterRunIs(t, c);
    forall i | 0 <= i < |c.endpoints| ensures c.endpoints[i] in AfterRun(t, c, Returned) {
      assert c.endpoints[i] !in t ==> c.endpoints[i] in NewPins(t, c);
    }
    SecondRunChangesNothing(t, c, c');
  }

  /** t' has the default route that t has. */
  predicate KeepsDefault(t: Table, t': Table)
    requires DEFAULT in t
  {
    DEFAULT in t' && t'[DEFAULT] == t[DEFAULT]
  }

  /**
   * A full-tunnel run whose routes came into place gives the default route back exactly when
   * MaintainTunnel returned, which takes a TLS configuration that parses and a process that is not
   * killed, and that route had a gateway address to save. Otherwise there is none, or a dead one.
   */
  lemma DefaultSurvivesExactlyWhen(t: Table, c: Setup, ending: Ending)
    requires Scripted(c) && c.full && DEFAULT in t && t[DEFAULT] != Tun
    ensures KeepsDefault(t, AfterRun(t, c, ending)) <==> ending.Returned? && t[DEFAULT].Via? && t[DEFAULT].gateway != ""
    ensures !KeepsDefault(t, AfterRun(t, c, ending)) && DEFAULT in AfterRun(t, c, ending) ==>
              !ending.Returned? && ending.orphan && AfterRun(t, c, ending)[DEFAULT] == Tun
  {
    if DefaultGateway(t).Some? {
      DefaultIsNoPin(t, c);
      if ending.Returned? {
        RestoredBeforeClose(t, c);
      } else {
        UpTableIs(t, c, DEFAULT);
      }
    } else {
      NoGatewayNoPins(t, c, |c.endpoints|);
      assert UpTable(t, c) == t[DEFAULT := Tun];
      assert Defers(t, c) == [CloseTun, RemoveStateFile];
      UnwindThree(UpTable(t, c), CloseTun, RemoveStateFile, RemoveStateFile);
    }
  }

  /** A process that dies while the tunnel is up leaves every old route but the default, its new pins and its DNS host routes. */
  lemma DeathLeaves(t: Table, c: Setup, ending: Ending, p: Prefix)
    requires Scripted(c) && c.full && DefaultGateway(t).Some? && !ending.Returned? && !ending.orphan
    ensures var t' := AfterRun(t, c, ending);
            && (p in t' <==> (p in t && t[p] != Tun && p != DEFAULT) || Exception(t, c, p))
            && (p in t' ==> t'[p] == if p in t then t[p] else Via(DefaultGateway(t).value))
  {
    UpTableIs(t, c, p);
    UpTableIs(t, c, DEFAULT);
  }

  /** Once the default is lost no run brings it back: with no gateway to read there is nothing to save. */
  lemma LostForGood(t: Table, c: Setup, ending: Ending)
    requires Scripted(c) && (DEFAULT in t ==> t[DEFAULT] == Tun)
    ensures DEFAULT in AfterRun(t, c, ending) ==> AfterRun(t, c, ending)[DEFAULT] == Tun
  {
    assert DefaultGateway(t).None?;
    if c.full {
      NoGatewayNoPins(t, c, |c.endpoints|);
    }
    assert Defers(t, c) == [CloseTun, RemoveStateFile];
    UnwindThree(UpTable(t, c), CloseTun, RemoveStateFile, RemoveStateFile);
  }

  lemma {:induction false} NoGatewayNoPins(t: Table, c: Setup, k: nat)
    requires Scripted(c) && k <= |c.endpoints|
    ensures Pinned(t, c.endpoints, None, c.refusesPin, k) == t
  {
    if k == 0 {
    } else {
      NoGatewayNoPins(t, c, k - 1);
    }
  }

  // ---- while up ----

  predicate NoTunRoutes(t: Table) {
    forall p :: p in t ==> t[p] != Tun
  }

  /** p is one of the routes the tunnel adds beside its default: a new pin or a new host, via the saved gateway. */
  predicate Exception(t: Table, c: Setup, p: Prefix)
    requires Scripted(c)
  {
    p in NewPins(t, c) || p in HostsOf(t, c)
  }

  lemma UpTableIs(t: Table, c: Setup, p: Prefix)
    requires Scripted(c) && c.full && DefaultGateway(t).Some?
    ensures p in UpTable(t, c) <==> p in t || Exception(t, c, p)
    ensures Exception(t, c, p) ==> p !in t && p != DEFAULT && UpTable(t, c)[p] == Via(DefaultGateway(t).value)
    ensures p in t && p != DEFAULT ==> UpTable(t, c)[p] == t[p]
    ensures DEFAULT in UpTable(t, c) && UpTable(t, c)[DEFAULT] == Tun
  {
    BaseIs(t, c);
    DefaultIsNoPin(t, c);
    AddedHostsAreNew(Base(t, c), c.servers, c.refusesServer, |c.servers|);
    assert DEFAULT in Base(t, c);
  }

  /** An address goes into the tunnel exactly when its only route was the default and no exception covers it. */
  lemma IntoTunnelExactlyWhen(t: Table, c: Setup, a: Address)
    requires Scripted(c) && c.full && DefaultGateway(t).Some? && NoTunRoutes(t)
    ensures Lookup(UpTable(t, c), a) == Some(Tun)
       <==> forall p :: Covers(p, a) && (p in t || Exception(t, c, p)) ==> p == []
  {
    var up := UpTable(t, c);
    LookupIsLongestMatch(up, a);
    UpTableIs(t, c, DEFAULT);
    assert Covers(DEFAULT, a);
    var p :| MostSpecific(up, a, p);
    UpTableIs(t, c, p);
    forall q: Prefix | p == DEFAULT && Covers(q, a) && (q in t || Exception(t, c, q)) ensures q == DEFAULT {
      UpTableIs(t, c, q);
    }
  }

  /** With the last endpoint in place, nothing that it covers goes into the tunnel. */
  lemma EndpointsOutsideTunnel(t: Table, c: Setup, a: Address, i: nat)
    requires Scripted(c) && c.full && DefaultGateway(t).Some? && NoTunRoutes(t)
    requires i < |c.endpoints| && Covers(c.endpoints[i], a)
    requires c.endpoints[i] in t || !c.refusesPin[i]
    ensures Lookup(UpTable(t, c), a) != Some(Tun)
  {
    IntoTunnelExactlyWhen(t, c, a);
    assert c.endpoints[i] !in t ==> c.endpoints[i] in NewPins(t, c);
  }

  /** An address with a route of its own before, and outside every exception, resolves as before. */
  lemma SpecificRoutesKept(t: Table, c: Setup, a: Address, q: Prefix)
    requires Scripted(c) && c.full && DefaultGateway(t).Some?
    requires q in t && Covers(q, a) && q != DEFAULT
    requires forall p :: Exception(t, c, p) ==> !Covers(p, a)
    ensures Lookup(UpTable(t, c), a) == Lookup(t, a)
  {
    var up := UpTable(t, c);
    LookupIsLongestMatch(up, a);
    LookupIsLongestMatch(t, a);
    var p :| MostSpecific(t, a, p);
    assert |p| >= |q| > 0;
    UpTableIs(t, c, p);
    forall r | r in up && Covers(r, a) ensures |r| <= |p| {
      UpTableIs(t, c, r);
    }
    assert MostSpecific(up, a, p);
  }

  /** An address inside an exception resolves through the saved gateway unless an older route is more specific. */
  lemma ExceptionsViaGateway(t: Table, c: Setup, a: Address, e: Prefix)
    requires Scripted(c) && c.full && DefaultGateway(t).Some?
    requires Exception(t, c, e) && Covers(e, a)
    requires forall p :: p in t && Covers(p, a) ==> |p| < |e|
    ensures Lookup(UpTable(t, c), a) == Some(Via(DefaultGateway(t).value))
  {
    var up := UpTable(t, c);
    LookupIsLongestMatch(up, a);
    UpTableIs(t, c, e);
    var p :| MostSpecific(up, a, p);
    UpTableIs(t, c, p);
    assert |p| >= |e|;
  }

  /** Every DNS server whose host route was added resolves through the saved gateway. */
  lemma AddedServersViaGateway(t: Table, c: Setup, a: Address)
    requires Scripted(c) && c.full && DefaultGateway(t).Some?
    requires a in HostsOf(t, c)
    ensures Lookup(UpTable(t, c), a) == Some(Via(DefaultGateway(t).value))
  {
    var h: Prefix := a;
    assert Exception(t, c, h);
    UpTableIs(t, c, h);
    forall p | p in t && Covers(p, a) ensures |p| < |h| {
      assert p == a[..|p|];
      assert a[..|a|] == a;
    }
    ExceptionsViaGateway(t, c, a, h);
  }

  // ---- the default through the tunnel ----

  /**
   * In full mode the default goes through the tunnel, whether there was a default to change or one had
   * to be added; there is none only when there was none and route(8) refused the add.
   */
  lemma DefaultIntoTunnelExactlyWhen(t: Table, c: Setup)
    requires Scripted(c) && c.full
    ensures [] in UpTable(t, c) <==> [] in t || !c.refusesDefault
    ensures [] in UpTable(t, c) ==> UpTable(t, c)[[]] == Tun
  {
    if DefaultGateway(t).Some? {
      UpTableIs(t, c, DEFAULT);
    } else {
      NoGatewayNoPins(t, c, |c.endpoints|);
    }
  }

  /** With no gateway to save, the other routes are as before: no pins, no host routes. */
  lemma NoGatewayUpTable(t: Table, c: Setup, p: Prefix)
    requires Scripted(c) && c.full && DefaultGateway(t).None? && p != []
    ensures p in UpTable(t, c) <==> p in t
    ensures p in t ==> UpTable(t, c)[p] == t[p]
  {
    NoGatewayNoPins(t, c, |c.endpoints|);
  }

  /** So an address goes into the tunnel exactly when no other route covers it, the endpoints' addresses too. */
  lemma IntoTunnelWithoutGateway(t: Table, c: Setup, a: Address)
    requires Scripted(c) && c.full && DefaultGateway(t).None?
    requires forall p :: p in t && p != [] ==> t[p] != Tun
    ensures Lookup(UpTable(t, c), a) == Some(Tun)
       <==> ([] in t || !c.refusesDefault) && forall p :: p in t && Covers(p, a) ==> p == []
  {
    var up := UpTable(t, c);
    LookupIsLongestMatch(up, a);
    DefaultIntoTunnelExactlyWhen(t, c);
    assert Covers(DEFAULT, a);
    if Lookup(up, a).Some? {
      var p :| MostSpecific(up, a, p);
      if p != [] {
        NoGatewayUpTable(t, c, p);
      } else {
        forall q | q in t && Covers(q, a) ensures q == [] {
          if q != [] {
            NoGatewayUpTable(t, c, q);
          }
        }
      }
    }
  }

  // ---- DNS servers ----

  /** Every DNS server whose add was not refused has a host route of its own while the tunnel is up. */
  lemma {:induction false} ServerAdded(t: Table, servers: seq<Address>, refuses: seq<bool>, k: nat, i: nat)
    requires i < k <= |servers| == |refuses| && !refuses[i]
    ensures servers[i] in t || servers[i] in AddedHosts(t, servers, refuses, k)
    decreases k
  {
    if i < k - 1 {
      ServerAdded(t, servers, refuses, k - 1, i);
    }
  }

  lemma {:induction false} AddedAreServers(t: Table, servers: seq<Address>, refuses: seq<bool>, k: nat, a: Address)
    requires k <= |servers| == |refuses| && a in AddedHosts(t, servers, refuses, k)
    ensures exists i :: 0 <= i < k && servers[i] == a && !refuses[i]
  {
    if k > 0 && a in AddedHosts(t, servers, refuses, k - 1) {
      AddedAreServers(t, servers, refuses, k - 1, a);
    }
  }

  /**
   * In system DNS mode every configured DNS server whose add was not refused resolves outside the
   * tunnel: by its old host route if it had one, else through the saved gateway.
   */
  lemma ServersOutsideTunnel(t: Table, c: Setup, i: nat)
    requires Scripted(c) && c.full && DefaultGateway(t).Some? && NoTunRoutes(t)
    requires c.systemDns && i < |c.servers| && !c.refusesServer[i]
    ensures var a := c.servers[i];
            Lookup(UpTable(t, c), a) == Some(if a in t then t[a] else Via(DefaultGateway(t).value))
  {
    var a := c.servers[i];
    var h: Prefix := a;
    var up := UpTable(t, c);
    ServerAdded(Base(t, c), c.servers, c.refusesServer, |c.servers|, i);
    BaseIs(t, c);
    UpTableIs(t, c, h);
    LookupIsLongestMatch(up, a);
    assert Covers(h, a) && MostSpecific(up, a, h);
  }

  /** In any other DNS mode no host route is added at all. */
  lemma NoHostsOtherwise(t: Table, c: Setup, p: Prefix)
    requires Scripted(c) && c.full && DefaultGateway(t).Some? && !c.systemDns
    ensures p in UpTable(t, c) && p !in t ==> p in c.endpoints || p == []
  {
    UpTableIs(t, c, p);
  }

  // ---- order of the undo ----

  /** The state file is removed and then the interface closed, after every route has been put back. */
  lemma UndoEnds(t: Table, c: Setup)
    requires Scripted(c)
    ensures var ran := Backwards(Defers(t, c));
            && |ran| >= 2 && ran[|ran| - 2..] == [RemoveStateFile, CloseTun]
            && forall i :: 0 <= i < |ran| - 2 ==> ran[i].RestoreDefault? || ran[i].DeleteHost?
  {
    var d := Defers(t, c);
    BackwardsIs(d);
  }

  lemma {:induction false} BackwardsIs(d: seq<Undo>)
    ensures forall i :: 0 <= i < |d| ==> Backwards(d)[i] == d[|d| - 1 - i]
  {
    if d != [] {
      BackwardsIs(d[..|d| - 1]);
    }
  }
}
