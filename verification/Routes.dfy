// The IPv4 routing table as route(8) sees it: a map from prefixes to next hops, with longest-match
// lookup (section 5.2.4.3 of RFC 1812) and the add, change and delete operations.
module Routes {
  import opened Basics

  /** An address is 32 bits; a prefix of length n covers the addresses that start with its n bits. */
  type Address = a: seq<bool> | |a| == 32 witness seq(32, _ => false)
  type Prefix = p: seq<bool> | |p| <= 32

  const DEFAULT: Prefix := []

  datatype Hop =
    | Tun                    // -interface with the tunnel's own interface
    | Via(gateway: string)
    | Link(iface: string)    // a route with no gateway address

  type Table = map<Prefix, Hop>

  predicate Covers(p: Prefix, a: Address) {
    p <= a
  }

  /** The longest prefix of the table, of length at most n, that covers a. */
  function LongestUpTo(t: Table, a: Address, n: nat): Option<Prefix>
    requires n <= 32
  {
    if a[..n] in t then Some(a[..n])
    else if n == 0 then None
    else LongestUpTo(t, a, n - 1)
  }

  function Lookup(t: Table, a: Address): Option<Hop> {
    match LongestUpTo(t, a, 32)
    case None => None
    case Some(p) => if p in t then Some(t[p]) else None
  }

  ghost predicate MostSpecific(t: Table, a: Address, p: Prefix) {
    && p in t && Covers(p, a)
    && forall q :: q in t && Covers(q, a) ==> |q| <= |p|
  }

  lemma {:induction false} LongestFound(t: Table, a: Address, n: nat, p: Prefix)
    requires n <= 32 && |p| <= n && p in t && Covers(p, a)
    requires forall q :: q in t && Covers(q, a) && |q| <= n ==> |q| <= |p|
    ensures LongestUpTo(t, a, n) == Some(p)
    decreases n
  {
    if |p| == n {
      assert a[..n] == p;
    } else {
      var q: Prefix := a[..n];
      assert Covers(q, a);
      LongestFound(t, a, n - 1, p);
    }
  }

  lemma {:induction false} LongestAbsent(t: Table, a: Address, n: nat)
    requires n <= 32
    ensures match LongestUpTo(t, a, n)
            case None => forall q :: q in t && Covers(q, a) ==> |q| > n
            case Some(p) => p in t && Covers(p, a) && |p| <= n && forall q :: q in t && Covers(q, a) && |q| <= n ==> |q| <= |p|
    decreases n
  {
    if a[..n] in t {
    } else {
      if n > 0 {
        LongestAbsent(t, a, n - 1);
      }
      forall q | q in t && Covers(q, a) ensures |q| != n {
        assert q == a[..|q|];
      }
    }
  }

  /** Two covering routes of the same length are the same route. */
  lemma MostSpecificUnique(t: Table, a: Address, p: Prefix, q: Prefix)
    requires MostSpecific(t, a, p) && MostSpecific(t, a, q)
    ensures p == q
  {
    assert p == a[..|p|] && q == a[..|q|];
  }

  /** Lookup is the hop of the most specific covering route, and None exactly when no route covers a. */
  lemma LookupIsLongestMatch(t: Table, a: Address)
    ensures forall p :: MostSpecific(t, a, p) ==> Lookup(t, a) == Some(t[p])
    ensures Lookup(t, a).None? <==> forall p :: p in t ==> !Covers(p, a)
    ensures Lookup(t, a).Some? ==> exists p :: MostSpecific(t, a, p)
    ensures forall p, q :: MostSpecific(t, a, p) && MostSpecific(t, a, q) ==> p == q
  {
    forall p, q | MostSpecific(t, a, p) && MostSpecific(t, a, q) ensures p == q {
      MostSpecificUnique(t, a, p, q);
    }
    forall p | MostSpecific(t, a, p) ensures Lookup(t, a) == Some(t[p]) {
      LongestFound(t, a, 32, p);
    }
    LongestAbsent(t, a, 32);
    if LongestUpTo(t, a, 32).Some? {
      assert MostSpecific(t, a, LongestUpTo(t, a, 32).value);
    }
  }

  // ---- route(8) ----

  /** `route add`: refused when the prefix is present, and it may be refused for any other reason. */
  function Added(t: Table, p: Prefix, h: Hop, refused: bool): Table {
    if p in t || refused then t else t[p := h]
  }

  /** `route change`: fails when the prefix is absent. */
  function Changed(t: Table, p: Prefix, h: Hop): Table {
    if p in t then t[p := h] else t
  }

  /** `route delete`: fails when the prefix is absent. */
  function Deleted(t: Table, p: Prefix): Table {
    t - {p}
  }

  /** What the kernel does when the tunnel's interface goes away. */
  function WithoutTun(t: Table): Table {
    map p | p in t && t[p] != Tun :: t[p]
  }

  class Kernel {
    var routes: Table

    constructor (t: Table)
      ensures routes == t
    {
      routes := t;
    }

    method Add(p: Prefix, h: Hop, refused: bool) returns (ok: bool)
      modifies this
      ensures routes == Added(old(routes), p, h, refused)
      ensures ok == (p !in old(routes) && !refused)
    {
      ok := p !in routes && !refused;
      if ok {
        routes := routes[p := h];
      }
    }

    method Change(p: Prefix, h: Hop) returns (ok: bool)
      modifies this
      ensures routes == Changed(old(routes), p, h)
      ensures ok == (p in old(routes))
    {
      ok := p in routes;
      if ok {
        routes := routes[p := h];
      }
    }

    method Delete(p: Prefix) returns (ok: bool)
      modifies this
      ensures routes == Deleted(old(routes), p)
      ensures ok == (p in old(routes))
    {
      ok := p in routes;
      routes := routes - {p};
    }

    method InterfaceGone()
      modifies this
      ensures routes == WithoutTun(old(routes))
    {
      routes := map p | p in routes && routes[p] != Tun :: routes[p];
    }
  }
}
