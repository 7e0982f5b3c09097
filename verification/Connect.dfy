// api/masque.go in QUIC mode: ConnectMASQUE with its two attempts, the clean-up on every failing
// path of connectH3, and closeResult of daemon/tunnel.go. What is opened and closed is kept in a log.
module Connect {
  import opened Basics

  datatype Kind = Udp | Transport | IpConn

  /** One operating-system or library object; n is the number of the connectH3 call that made it. */
  datatype Handle = Handle(kind: Kind, n: nat)

  datatype Event = Opened(h: Handle) | Closed(h: Handle)

  /** What the network answers to one connectH3 call. */
  datatype Reply = ListenFailed | QuicFailed | DialFailed | Answered(status: int)

  /** The events of one connectH3 call. */
  function Attempt(n: nat, r: Reply): seq<Event> {
    match r
    case ListenFailed => []
    case QuicFailed => [Opened(Handle(Udp, n)), Closed(Handle(Udp, n))]
    case DialFailed => [Opened(Handle(Udp, n)), Opened(Handle(Transport, n)),
                        Closed(Handle(Transport, n)), Closed(Handle(Udp, n))]
    case Answered(_) => [Opened(Handle(Udp, n)), Opened(Handle(Transport, n)), Opened(Handle(IpConn, n))]
  }

  /** The events of ConnectMASQUE when its calls are numbered from n on. */
  function Attempts(n: nat, first: Reply, second: Reply): seq<Event> {
    if first.Answered? then Attempt(n, first)
    else Attempt(n, first) + Attempt(n + 1, second)
  }

  /** The HTTP status and the number of the call that got it, unless both calls fail. */
  function Answer(n: nat, first: Reply, second: Reply): Option<(int, nat)> {
    match first
    case Answered(status) => Some((status, n))
    case _ =>
      match second
      case Answered(status) => Some((status, n + 1))
      case _ => None
  }

  function Calls(first: Reply): nat {
    if first.Answered? then 1 else 2
  }

  function CloseConn(n: nat): seq<Event> {
    [Closed(Handle(IpConn, n))]
  }

  function CloseResult(n: nat): seq<Event> {
    [Closed(Handle(Transport, n)), Closed(Handle(Udp, n))]
  }

  class Network {
    var log: seq<Event>
    var calls: nat

    constructor ()
      ensures log == [] && calls == 0
    {
      log, calls := [], 0;
    }

    method ConnectH3(reply: Reply) returns (ok: bool)
      modifies this
      ensures calls == old(calls) + 1
      ensures log == old(log) + Attempt(old(calls), reply)
      ensures ok == reply.Answered?
    {
      var n := calls;
      calls := calls + 1;
      if reply.ListenFailed? {
        return false;
      }
      log := log + [Opened(Handle(Udp, n))];
      if reply.QuicFailed? {
        log := log + [Closed(Handle(Udp, n))];
        return false;
      }
      log := log + [Opened(Handle(Transport, n))];
      if reply.DialFailed? {
        log := log + [Closed(Handle(Transport, n))];
        log := log + [Closed(Handle(Udp, n))];
        return false;
      }
      log := log + [Opened(Handle(IpConn, n))];
      return true;
    }

    method ConnectMASQUE(first: Reply, second: Reply) returns (r: Option<(int, nat)>)
      modifies this
      ensures log == old(log) + Attempts(old(calls), first, second)
      ensures calls == old(calls) + Calls(first)
      ensures r == Answer(old(calls), first, second)
    {
      r := None;
      for attempt := 0 to 2
        invariant r == None && calls == old(calls) + attempt
        invariant attempt >= 1 ==> !first.Answered?
        invariant attempt >= 2 ==> !second.Answered?
        invariant log == old(log) + (if attempt == 0 then []
                                     else if attempt == 1 then Attempt(old(calls), first)
                                     else Attempts(old(calls), first, second))
      {
        var reply := if attempt == 0 then first else second;
        var n := calls;
        var ok := ConnectH3(reply);
        if ok {
          return Some((reply.status, n));
        }
      }
    }
  }

  /** The handles that are open, and every handle that was ever opened. */
  datatype Holdings = Holdings(open: set<Handle>, seen: set<Handle>)

  const NOTHING_OPEN := Holdings({}, {})

  /** The object that a handle is built on. */
  function Base(h: Handle): Option<Handle> {
    match h.kind
    case Udp => None
    case Transport => Some(Handle(Udp, h.n))
    case IpConn => Some(Handle(Transport, h.n))
  }

  /**
   * Replays one event. It is refused when a handle is opened a second time, while another of its kind
   * is open, or on something that is not open; and when what is closed is not open or still has
   * something built on it.
   */
  function Replay(g: Holdings, e: Event): Option<Holdings> {
    match e
    case Opened(h) =>
      if h in g.seen || exists x :: x in g.open && x.kind == h.kind then None
      else if Base(h).Some? && Base(h).value !in g.open then None
      else Some(Holdings(g.open + {h}, g.seen + {h}))
    case Closed(h) =>
      if h in g.open && !exists x :: x in g.open && Base(x) == Some(h) then Some(g.(open := g.open - {h})) else None
  }

  function ReplayAll(g: Holdings, log: seq<Event>): Option<Holdings>
    decreases |log|
  {
    if log == [] then Some(g)
    else
      match Replay(g, log[0])
      case None => None
      case Some(g') => ReplayAll(g', log[1..])
  }

  lemma {:induction false} ReplayConcat(g: Holdings, a: seq<Event>, b: seq<Event>)
    ensures ReplayAll(g, a + b)
         == match ReplayAll(g, a) case None => None case Some(g') => ReplayAll(g', b)
    decreases |a|
  {
    if a == [] {
      assert a + b == b;
    } else {
      assert (a + b)[1..] == a[1..] + b;
      if Replay(g, a[0]).Some? {
        ReplayConcat(Replay(g, a[0]).value, a[1..], b);
      }
    }
  }

  /** The three handles of call n. */
  function Bundle(n: nat): set<Handle> {
    {Handle(Udp, n), Handle(Transport, n), Handle(IpConn, n)}
  }

  /** Nothing is open and every handle seen has a number below n. */
  predicate Clean(g: Holdings, n: nat) {
    g.open == {} && forall h :: h in g.seen ==> h.n < n
  }

  /** Exactly the handles of call m are open and every handle seen has a number below n. */
  predicate Holding(g: Holdings, m: nat, n: nat) {
    g.open == Bundle(m) && (forall h :: h in g.seen ==> h.n < n)
  }

  lemma ReplayTwo(g: Holdings, x: Event, y: Event)
    requires Replay(g, x).Some?
    ensures ReplayAll(g, [x]) == Replay(g, x)
    ensures ReplayAll(g, [x, y]) == Replay(Replay(g, x).value, y)
  {
    assert [x][1..] == [] && [x, y][1..] == [y] && [y][1..] == [];
    assert ReplayAll(g, [x, y]) == ReplayAll(Replay(g, x).value, [y]);
  }

  /** closeResult closes the transport and the socket that are open. */
  lemma CloseResultReplays(g: Holdings, n: nat)
    requires g.open == {Handle(Udp, n), Handle(Transport, n)}
    ensures ReplayAll(g, CloseResult(n)) == Some(g.(open := {}))
  {
    var u, t := Handle(Udp, n), Handle(Transport, n);
    assert {u, t} - {t} == {u} && {u} - {u} == {};
    ReplayTwo(g, Closed(t), Closed(u));
  }

  /** IPConn.Close from the open triple leaves the transport and the socket for closeResult. */
  lemma CloseConnReplays(g: Holdings, n: nat)
    requires g.open == Bundle(n)
    ensures ReplayAll(g, CloseConn(n)) == Some(g.(open := {Handle(Udp, n), Handle(Transport, n)}))
  {
    assert CloseConn(n)[1..] == [];
    assert g.open - {Handle(IpConn, n)} == {Handle(Udp, n), Handle(Transport, n)};
  }

  /** The socket and the transport are opened from nothing open. */
  lemma OpenTwo(g: Holdings, n: nat)
    requires Clean(g, n)
    ensures var u, t := Handle(Udp, n), Handle(Transport, n);
            && Replay(g, Opened(u)) == Some(Holdings({u}, g.seen + {u}))
            && ReplayAll(g, [Opened(u), Opened(t)]) == Some(Holdings({u, t}, g.seen + {u, t}))
  {
    var u, t := Handle(Udp, n), Handle(Transport, n);
    assert g.open + {u} == {u} && {u} + {t} == {u, t} && g.seen + {u} + {t} == g.seen + {u, t};
    ReplayTwo(g, Opened(u), Opened(t));
  }

  lemma QuicFailureReplays(g: Holdings, n: nat)
    requires Clean(g, n)
    ensures var g' := ReplayAll(g, Attempt(n, QuicFailed)); g'.Some? && Clean(g'.value, n + 1)
  {
    var u := Handle(Udp, n);
    OpenTwo(g, n);
    ReplayTwo(g, Opened(u), Closed(u));
    assert {u} - {u} == {};
  }

  lemma DialFailureReplays(g: Holdings, n: nat)
    requires Clean(g, n)
    ensures var g' := ReplayAll(g, Attempt(n, DialFailed)); g'.Some? && Clean(g'.value, n + 1)
  {
    var u, t := Handle(Udp, n), Handle(Transport, n);
    OpenTwo(g, n);
    CloseResultReplays(Holdings({u, t}, g.seen + {u, t}), n);
    ReplayConcat(g, [Opened(u), Opened(t)], CloseResult(n));
    assert Attempt(n, DialFailed) == [Opened(u), Opened(t)] + CloseResult(n);
  }

  lemma AnswerReplays(g: Holdings, n: nat, status: int)
    requires Clean(g, n)
    ensures var g' := ReplayAll(g, Attempt(n, Answered(status))); g'.Some? && Holding(g'.value, n, n + 1)
  {
    var u, t, c := Handle(Udp, n), Handle(Transport, n), Handle(IpConn, n);
    var g2 := Holdings({u, t}, g.seen + {u, t});
    OpenTwo(g, n);
    ReplayConcat(g, [Opened(u), Opened(t)], [Opened(c)]);
    assert Attempt(n, Answered(status)) == [Opened(u), Opened(t)] + [Opened(c)];
    assert {u, t} + {c} == Bundle(n);
    assert Replay(g2, Opened(c)) == Some(Holdings(Bundle(n), g2.seen + {c}));
    ReplayTwo(g2, Opened(c), Closed(c));
  }

  /** One connectH3 call from nothing open: a failed one leaves nothing open, an answered one all three. */
  lemma AttemptReplays(g: Holdings, n: nat, r: Reply)
    requires Clean(g, n)
    ensures var g' := ReplayAll(g, Attempt(n, r));
            g'.Some? && if r.Answered? then Holding(g'.value, n, n + 1) else Clean(g'.value, n + 1)
  {
    match r
    case ListenFailed =>
    case QuicFailed => QuicFailureReplays(g, n);
    case DialFailed => DialFailureReplays(g, n);
    case Answered(status) => AnswerReplays(g, n, status);
  }

  /** What an attempt opens tells how far it got. */
  lemma AttemptOpens(n: nat, r: Reply, h: Handle)
    ensures Opened(h) in Attempt(n, r)
       <==> h.n == n && (h.kind.Udp? ==> !r.ListenFailed?)
            && (h.kind.Transport? ==> r.DialFailed? || r.Answered?) && (h.kind.IpConn? ==> r.Answered?)
  {
    match h.kind
    case Udp => assert r.QuicFailed? || r.DialFailed? || r.Answered? ==> Attempt(n, r)[0] == Opened(Handle(Udp, n));
    case Transport => assert r.DialFailed? || r.Answered? ==> Attempt(n, r)[1] == Opened(Handle(Transport, n));
    case IpConn => assert r.Answered? ==> Attempt(n, r)[2] == Opened(Handle(IpConn, n));
  }

  /** ConnectMASQUE leaves either nothing open or exactly what IPConn.Close and closeResult will close. */
  lemma AttemptsReplay(g: Holdings, n: nat, first: Reply, second: Reply)
    requires Clean(g, n)
    ensures var g' := ReplayAll(g, Attempts(n, first, second));
            && g'.Some?
            && match Answer(n, first, second)
               case None => Clean(g'.value, n + Calls(first))
               case Some((_, m)) => Holding(g'.value, m, n + Calls(first))
  {
    AttemptReplays(g, n, first);
    if !first.Answered? {
      AttemptReplays(ReplayAll(g, Attempt(n, first)).value, n + 1, second);
      ReplayConcat(g, Attempt(n, first), Attempt(n + 1, second));
    }
  }

  /** Every open handle stands on an open one. */
  predicate Nested(open: set<Handle>) {
    forall h :: h in open && Base(h).Some? ==> Base(h).value in open
  }

  lemma {:induction false} ReplayNests(g: Holdings, log: seq<Event>)
    requires Nested(g.open) && ReplayAll(g, log).Some?
    ensures Nested(ReplayAll(g, log).value.open)
    decreases |log|
  {
    if log != [] {
      ReplayNests(Replay(g, log[0]).value, log[1..]);
    }
  }

  /** In a log that replays, every handle is opened at most once, and closed once unless it is still open. */
  lemma {:induction false} ReplayBalances(g: Holdings, log: seq<Event>, h: Handle)
    requires g.open <= g.seen && ReplayAll(g, log).Some?
    ensures var g' := ReplayAll(g, log).value;
            && g'.open <= g'.seen
            && multiset(log)[Opened(h)] + One(h in g.seen) == One(h in g'.seen)
            && multiset(log)[Closed(h)] + One(h in g'.open) == multiset(log)[Opened(h)] + One(h in g.open)
    decreases |log|
  {
    if log == [] {
    } else {
      ReplayBalances(Replay(g, log[0]).value, log[1..], h);
      assert log == [log[0]] + log[1..];
    }
  }
}
