// The endpoint list of AddDefaultRoute in tun/tun_freebsd.go. `route add -net` with a host address
// and no mask makes a host route.
module Endpoints {
  import opened Basics
  import opened Routes
  import opened FullTunnel
  import opened RouteTheorems

  /** The low n bits of v, most significant first. */
  function Bits(v: nat, n: nat): (b: seq<bool>)
    ensures |b| == n
  {
    if n == 0 then [] else Bits(v / 2, n - 1) + [v % 2 == 1]
  }

  /** 162.159.198.0/24 */
  function EndpointNet(): (p: Prefix)
    ensures |p| == 24
  {
    Bits(162, 8) + Bits(159, 8) + Bits(198, 8)
  }

  function SourceList(): (pins: seq<Prefix>)
    ensures |pins| == 3
  {
    [EndpointNet() + Bits(1, 8), EndpointNet() + Bits(2, 8), EndpointNet()]
  }

  /** The list meets what the theorems ask of it, and its last entry covers the other two. */
  lemma SourceListDistinct()
    ensures DistinctPins(SourceList())
    ensures forall i :: 0 <= i < 3 ==> SourceList()[2] <= SourceList()[i]
  {
    var pins := SourceList();
    assert Bits(1, 8)[7] && !Bits(2, 8)[7];
    assert pins[0][31] && !pins[1][31];
  }

  /** The number that some bits spell, most significant first. */
  function Number(b: seq<bool>): nat {
    if b == [] then 0 else 2 * Number(b[..|b| - 1]) + (if b[|b| - 1] then 1 else 0)
  }

  /** The k-th number of an address in dotted notation. */
  function Octet(a: Address, k: nat): nat
    requires k < 4
  {
    Number(a[8 * k..8 * k + 8])
  }

  function Pow(n: nat): nat {
    if n == 0 then 1 else 2 * Pow(n - 1)
  }

  lemma {:induction false} NumberOfBits(v: nat, n: nat)
    requires v < Pow(n)
    ensures Number(Bits(v, n)) == v
  {
    if n > 0 {
      NumberOfBits(v / 2, n - 1);
      assert Bits(v, n)[..n - 1] == Bits(v / 2, n - 1);
    }
  }

  /** Two stretches of the same length that spell the same number are the same. */
  lemma {:induction false} NumberTells(b: seq<bool>, c: seq<bool>)
    requires |b| == |c|
    ensures Number(b) == Number(c) <==> b == c
  {
    if b != [] {
      NumberTells(b[..|b| - 1], c[..|c| - 1]);
      assert b == b[..|b| - 1] + [b[|b| - 1]] && c == c[..|c| - 1] + [c[|c| - 1]];
    }
  }

  /** A byte in its eight bits. */
  function Byte8(v: nat): (b: seq<bool>)
    requires v < 256
    ensures |b| == 8 && b == Bits(v, 8)
  {
    Bits(v, 8)
  }

  lemma NumberOfByte(v: nat)
    requires v < 256
    ensures Number(Byte8(v)) == v
  {
    assert Pow(8) == 256;
    NumberOfBits(v, 8);
  }

  /** The k-th eight bits of an address spell v exactly when they are v's. */
  lemma OctetTells(a: Address, k: nat, v: nat)
    requires k < 4 && v < 256
    ensures Octet(a, k) == v <==> a[8 * k..8 * k + 8] == Byte8(v)
  {
    NumberOfByte(v);
    NumberTells(a[8 * k..8 * k + 8], Byte8(v));
  }

  /** The network of the endpoints, in dotted notation 162.159.198.0/24. */
  predicate InEndpointNet(a: Address) {
    Octet(a, 0) == 162 && Octet(a, 1) == 159 && Octet(a, 2) == 198
  }

  lemma ThreeBytes(a: Address, x: seq<bool>, y: seq<bool>, z: seq<bool>)
    requires |x| == |y| == |z| == 8
    ensures x + y + z <= a <==> a[0..8] == x && a[8..16] == y && a[16..24] == z
  {
    var p := x + y + z;
    assert a[..24] == a[0..8] + a[8..16] + a[16..24];
    assert p[0..8] == x && p[8..16] == y && p[16..24] == z;
    if p <= a {
      assert forall i :: 0 <= i < 24 ==> a[i] == p[i];
    }
  }

  /** The third endpoint covers exactly the addresses 162.159.198.x. */
  lemma EndpointNetCovers(a: Address)
    ensures Covers(EndpointNet(), a) <==> InEndpointNet(a)
  {
    OctetTells(a, 0, 162);
    OctetTells(a, 1, 159);
    OctetTells(a, 2, 198);
    ThreeBytes(a, Byte8(162), Byte8(159), Byte8(198));
    assert EndpointNet() == Byte8(162) + Byte8(159) + Byte8(198);
  }

  lemma HostCovers(a: Address, z: nat)
    requires z < 256
    ensures Covers(EndpointNet() + Byte8(z), a) <==> InEndpointNet(a) && Octet(a, 3) == z
  {
    EndpointNetCovers(a);
    OctetTells(a, 3, z);
    LastByte(a, EndpointNet(), Byte8(z));
  }

  lemma LastByte(a: Address, p: seq<bool>, b: seq<bool>)
    requires |p| == 24 && |b| == 8
    ensures p + b <= a <==> p <= a && a[24..32] == b
  {
    assert a == a[..24] + a[24..32];
    if p + b <= a {
      assert forall i :: 0 <= i < 24 ==> a[i] == (p + b)[i];
      assert forall i :: 0 <= i < 8 ==> a[24..32][i] == (p + b)[24 + i];
    }
  }

  /** The other two cover exactly 162.159.198.1 and 162.159.198.2. */
  lemma EndpointHostsCover(a: Address)
    ensures Covers(SourceList()[0], a) <==> InEndpointNet(a) && Octet(a, 3) == 1
    ensures Covers(SourceList()[1], a) <==> InEndpointNet(a) && Octet(a, 3) == 2
  {
    HostCovers(a, 1);
    HostCovers(a, 2);
  }

  /**
   * With the endpoints in the code and none of their adds refused: while the tunnel is up an address
   * goes into it exactly when its only route was the default, it lies outside 162.159.198.0/24, and it
   * is no DNS server whose host route was added.
   */
  lemma IntoTunnelWithSourceList(t: Table, c: Setup, a: Address)
    requires Scripted(c) && c.full && DefaultGateway(t).Some? && NoTunRoutes(t)
    requires c.endpoints == SourceList() && forall i :: 0 <= i < |c.refusesPin| ==> !c.refusesPin[i]
    ensures Lookup(UpTable(t, c), a) == Some(Tun)
       <==> && (forall p :: p in t && Covers(p, a) ==> p == [])
            && !InEndpointNet(a) && a !in HostsOf(t, c)
  {
    EndpointNetCovers(a);
    IntoTunnelExactlyWhen(t, c, a);
    SourceListDistinct();
    EndpointNetIsRoute(t, c);
    assert a[..32] == a;
    forall p: Prefix | Exception(t, c, p) && Covers(p, a) ensures Covers(EndpointNet(), a) || a in HostsOf(t, c) {
      ExceptionIs(t, c, a, p);
    }
    if a in HostsOf(t, c) {
      var h: Prefix := a;
      assert Exception(t, c, h) && Covers(h, a);
    }
  }

  lemma EndpointNetIsRoute(t: Table, c: Setup)
    requires Scripted(c) && c.endpoints == SourceList() && forall i :: 0 <= i < |c.refusesPin| ==> !c.refusesPin[i]
    ensures EndpointNet() in t || Exception(t, c, EndpointNet())
  {
    assert c.endpoints[2] == EndpointNet();
    assert EndpointNet() !in t ==> c.endpoints[2] in NewPins(t, c);
  }

  /** What covers a beside the old routes is one of the endpoints or a itself. */
  lemma ExceptionIs(t: Table, c: Setup, a: Address, p: Prefix)
    requires Scripted(c) && c.endpoints == SourceList() && Exception(t, c, p) && Covers(p, a)
    ensures Covers(EndpointNet(), a) || a in HostsOf(t, c)
  {
    SourceListDistinct();
    if p in NewPins(t, c) {
      var i :| 0 <= i < 3 && c.endpoints[i] == p;
      assert EndpointNet() <= p <= a;
    } else {
      assert p == a[..|p|] && a[..32] == a;
    }
  }
}
