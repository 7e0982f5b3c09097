// A full-tunnel run that dies at an arbitrary statement: the statements of runMASQUE that touch the
// routing table, in the order in which they are executed, and what a prefix of them leaves.
module RouteDeaths {
  import opened Basics
  import opened Routes
  import opened FullTunnel
  import opened RouteTheorems

  datatype Statement = AddPin(k: nat) | SetDefault | AddHost(k: nat) | RunDefer(u: Undo)

  function Effect(t: Table, c: Setup, gw: Option<string>, s: Statement): Table
    requires Scripted(c)
  {
    match s
    case AddPin(k) =>
      if gw.None? || k >= |c.endpoints| then t else Added(t, c.endpoints[k], Via(gw.value), c.refusesPin[k])
    case SetDefault => Defaulted(t, Tun, c.refusesDefault)
    case AddHost(k) =>
      if gw.None? || k >= |c.servers| then t else Added(t, c.servers[k], Via(gw.value), c.refusesServer[k])
    case RunDefer(u) => Undone(t, u)
  }

  function Performed(t: Table, c: Setup, gw: Option<string>, ss: seq<Statement>): Table
    requires Scripted(c)
  {
    if ss == [] then t else Effect(Performed(t, c, gw, ss[..|ss| - 1]), c, gw, ss[|ss| - 1])
  }

  function Pins(n: nat): (ss: seq<Statement>)
    ensures |ss| == n && forall i :: 0 <= i < n ==> ss[i] == AddPin(i)
  {
    seq(n, i requires 0 <= i < n => AddPin(i))
  }

  function Hosts(n: nat): (ss: seq<Statement>)
    ensures |ss| == n && forall i :: 0 <= i < n ==> ss[i] == AddHost(i)
  {
    seq(n, i requires 0 <= i < n => AddHost(i))
  }

  function Defer(d: seq<Undo>): (ss: seq<Statement>)
    ensures |ss| == |d| && forall i :: 0 <= i < |d| ==> ss[i] == RunDefer(d[i])
  {
    seq(|d|, i requires 0 <= i < |d| => RunDefer(d[i]))
  }

  /** What a run executes before MaintainTunnel. */
  function Prelude(t: Table, c: Setup): seq<Statement> {
    if !c.full then []
    else Pins(|c.endpoints|) + [SetDefault] + (if c.systemDns && DefaultGateway(t).Some? then Hosts(|c.servers|) else [])
  }

  /** All that a run executes when it is left to return. */
  function Statements(t: Table, c: Setup): seq<Statement>
    requires Scripted(c)
  {
    Prelude(t, c) + Defer(Backwards(Defers(t, c)))
  }

  /** The table after a death behind the first n of these statements. */
  function Died(t: Table, c: Setup, n: nat, orphan: bool): Table
    requires Scripted(c) && n <= |Statements(t, c)|
  {
    Abandoned(Performed(t, c, DefaultGateway(t), Statements(t, c)[..n]), orphan)
  }

  // ---- the statements are those of the run ----

  lemma PerformedSnoc(t: Table, c: Setup, gw: Option<string>, ss: seq<Statement>, s: Statement)
    requires Scripted(c)
    ensures Performed(t, c, gw, ss + [s]) == Effect(Performed(t, c, gw, ss), c, gw, s)
  {
    assert (ss + [s])[..|ss|] == ss;
  }

  lemma {:induction false} PerformedConcat(t: Table, c: Setup, gw: Option<string>, a: seq<Statement>, b: seq<Statement>)
    requires Scripted(c)
    ensures Performed(t, c, gw, a + b) == Performed(Performed(t, c, gw, a), c, gw, b)
    decreases |b|
  {
    if b == [] {
      assert a + b == a;
    } else {
      var init, last := b[..|b| - 1], b[|b| - 1];
      assert a + b == a + init + [last] && b == init + [last];
      PerformedConcat(t, c, gw, a, init);
      PerformedSnoc(t, c, gw, a + init, last);
    }
  }

  lemma {:induction false} PinsPerformed(t: Table, c: Setup, gw: Option<string>, k: nat)
    requires Scripted(c) && k <= |c.endpoints|
    ensures Performed(t, c, gw, Pins(k)) == Pinned(t, c.endpoints, gw, c.refusesPin, k)
  {
    if k == 0 {
    } else {
      assert Pins(k) == Pins(k - 1) + [AddPin(k - 1)];
      PinsPerformed(t, c, gw, k - 1);
      PerformedSnoc(t, c, gw, Pins(k - 1), AddPin(k - 1));
    }
  }

  lemma {:induction false} HostsPerformed(t: Table, c: Setup, gw: string, k: nat)
    requires Scripted(c) && k <= |c.servers|
    ensures Performed(t, c, Some(gw), Hosts(k)) == WithHosts(t, AddedHosts(t, c.servers, c.refusesServer, k), gw)
  {
    if k == 0 {
      assert WithHosts(t, [], gw) == t;
    } else {
      HostsPerformed(t, c, gw, k - 1);
      NextHost(t, c, gw, k - 1);
    }
  }

  lemma NextHost(t: Table, c: Setup, gw: string, k: nat)
    requires Scripted(c) && k < |c.servers|
    requires Performed(t, c, Some(gw), Hosts(k)) == WithHosts(t, AddedHosts(t, c.servers, c.refusesServer, k), gw)
    ensures Performed(t, c, Some(gw), Hosts(k + 1)) == WithHosts(t, AddedHosts(t, c.servers, c.refusesServer, k + 1), gw)
  {
    assert Hosts(k + 1) == Hosts(k) + [AddHost(k)];
    PerformedSnoc(t, c, Some(gw), Hosts(k), AddHost(k));
    HostStep(t, c.servers, c.refusesServer, k, gw);
  }

  lemma {:induction false} DefersPerformed(t: Table, c: Setup, gw: Option<string>, d: seq<Undo>)
    requires Scripted(c)
    ensures Performed(t, c, gw, Defer(Backwards(d))) == Unwound(t, d)
    decreases |d|
  {
    if d == [] {
    } else {
      var init, last := d[..|d| - 1], d[|d| - 1];
      assert Defer(Backwards(d)) == [RunDefer(last)] + Defer(Backwards(init));
      PerformedConcat(t, c, gw, [RunDefer(last)], Defer(Backwards(init)));
      PerformedSnoc(t, c, gw, [], RunDefer(last));
      assert [] + [RunDefer(last)] == [RunDefer(last)];
      DefersPerformed(Undone(t, last), c, gw, init);
    }
  }

  lemma PreludePerformed(t: Table, c: Setup)
    requires Scripted(c)
    ensures Performed(t, c, DefaultGateway(t), Prelude(t, c)) == UpTable(t, c)
  {
    if c.full {
      var gw, pins := DefaultGateway(t), Pins(|c.endpoints|);
      PinsPerformed(t, c, gw, |c.endpoints|);
      PerformedSnoc(t, c, gw, pins, SetDefault);
      if c.systemDns && gw.Some? {
        PerformedConcat(t, c, gw, pins + [SetDefault], Hosts(|c.servers|));
        HostsPerformed(Base(t, c), c, gw.value, |c.servers|);
      } else {
        assert pins + [SetDefault] + [] == pins + [SetDefault];
        assert gw.Some? ==> WithHosts(Base(t, c), [], gw.value) == Base(t, c);
      }
    }
  }

  /** A run left to return ends as AfterRun says. */
  lemma WholeRunReturns(t: Table, c: Setup)
    requires Scripted(c)
    ensures Performed(t, c, DefaultGateway(t), Statements(t, c)) == AfterRun(t, c, Returned)
  {
    var gw, d := DefaultGateway(t), Defers(t, c);
    PreludePerformed(t, c);
    PerformedConcat(t, c, gw, Prelude(t, c), Defer(Backwards(d)));
    DefersPerformed(UpTable(t, c), c, gw, d);
  }

  lemma PrefixOf(a: seq<Statement>, b: seq<Statement>)
    ensures (a + b)[..|a|] == a
  {
  }

  /** A death between prelude and defers is one while the tunnel is up. */
  lemma DeathWhileUp(t: Table, c: Setup, orphan: bool)
    requires Scripted(c)
    ensures Died(t, c, |Prelude(t, c)|, orphan) == AfterRun(t, c, Killed(orphan))
  {
    PrefixOf(Prelude(t, c), Defer(Backwards(Defers(t, c))));
    PreludePerformed(t, c);
  }

  // ---- the default route at any moment ----

  predicate Restores(s: Statement) {
    s.RunDefer? && s.u.RestoreDefault?
  }

  /** The last of the statements that set the default route is one that restores it, or there is none. */
  predicate Kept(ss: seq<Statement>) {
    if ss == [] then true
    else if ss[|ss| - 1].SetDefault? then false
    else Restores(ss[|ss| - 1]) || Kept(ss[..|ss| - 1])
  }

  /** Every restoring statement restores the saved gateway. */
  predicate RestoresOnly(ss: seq<Statement>, gw: Option<string>) {
    forall i :: 0 <= i < |ss| && Restores(ss[i]) ==> gw == Some(ss[i].u.gateway)
  }

  predicate DefaultIs(t: Table, now: Table, kept: bool)
    requires DEFAULT in t
  {
    if kept then KeepsDefault(t, now) else DEFAULT in now ==> now[DEFAULT] == Tun
  }

  lemma EffectOnDefault(t: Table, now: Table, c: Setup, s: Statement, kept: bool)
    requires Scripted(c) && DEFAULT in t && t[DEFAULT] != Tun && DefaultIs(t, now, kept)
    requires Restores(s) ==> DefaultGateway(t) == Some(s.u.gateway)
    ensures DefaultIs(t, Effect(now, c, DefaultGateway(t), s), if s.SetDefault? then false else Restores(s) || kept)
  {
    match s
    case AddPin(k) =>
    case SetDefault =>
    case AddHost(k) =>
    case RunDefer(u) =>
      match u {
        case CloseTun =>
        case RemoveStateFile =>
        case RestoreDefault(gw) =>
        case DeleteHost(h) =>
      }
  }

  lemma {:induction false} DefaultThroughout(t: Table, c: Setup, ss: seq<Statement>)
    requires Scripted(c) && DEFAULT in t && t[DEFAULT] != Tun && RestoresOnly(ss, DefaultGateway(t))
    ensures DefaultIs(t, Performed(t, c, DefaultGateway(t), ss), Kept(ss))
  {
    if ss == [] {
    } else {
      var init, last := ss[..|ss| - 1], ss[|ss| - 1];
      DefaultThroughout(t, c, init);
      EffectOnDefault(t, Performed(t, c, DefaultGateway(t), init), c, last, Kept(init));
    }
  }

  lemma PreludeSetsOnce(t: Table, c: Setup)
    requires c.full
    ensures |Prelude(t, c)| > |c.endpoints|
    ensures forall i :: 0 <= i < |Prelude(t, c)| ==> (Prelude(t, c)[i].SetDefault? <==> i == |c.endpoints|) && !Prelude(t, c)[i].RunDefer?
  {
  }

  lemma DefersRestoreSaved(t: Table, c: Setup)
    requires Scripted(c)
    ensures forall i :: 0 <= i < |Backwards(Defers(t, c))| && Backwards(Defers(t, c))[i].RestoreDefault? ==>
              DefaultGateway(t) == Some(Backwards(Defers(t, c))[i].gateway)
  {
    var d := Defers(t, c);
    BackwardsIs(d);
    assert forall i :: 0 <= i < |d| && d[i].RestoreDefault? ==> DefaultGateway(t) == Some(d[i].gateway);
  }

  /** Where the statements about the default route stand. */
  lemma DefaultStatements(t: Table, c: Setup)
    requires Scripted(c) && c.full
    ensures |Statements(t, c)| > |c.endpoints|
    ensures forall i :: 0 <= i < |Statements(t, c)| ==>
              && (Statements(t, c)[i].SetDefault? <==> i == |c.endpoints|)
              && (Restores(Statements(t, c)[i]) ==> i > |c.endpoints|)
    ensures RestoresOnly(Statements(t, c), DefaultGateway(t))
  {
    PreludeSetsOnce(t, c);
    DefersRestoreSaved(t, c);
    StatementsOf(Prelude(t, c), Backwards(Defers(t, c)), |c.endpoints|, DefaultGateway(t));
  }

  lemma StatementsOf(pre: seq<Statement>, d: seq<Undo>, a: nat, gw: Option<string>)
    requires |pre| > a && forall i :: 0 <= i < |pre| ==> (pre[i].SetDefault? <==> i == a) && !pre[i].RunDefer?
    requires forall i :: 0 <= i < |d| && d[i].RestoreDefault? ==> gw == Some(d[i].gateway)
    ensures var ss := pre + Defer(d);
            && (forall i :: 0 <= i < |ss| ==> (ss[i].SetDefault? <==> i == a) && (Restores(ss[i]) ==> i > a))
            && RestoresOnly(ss, gw)
  {
    var ss := pre + Defer(d);
    assert forall i :: |pre| <= i < |ss| ==> ss[i] == RunDefer(d[i - |pre|]);
  }

  lemma {:induction false} KeptExactlyWhen(ss: seq<Statement>, a: nat, n: nat)
    requires n <= |ss|
    requires forall i :: 0 <= i < |ss| ==> (ss[i].SetDefault? <==> i == a) && (Restores(ss[i]) ==> i > a)
    ensures Kept(ss[..n]) <==> n <= a || exists i :: 0 <= i < n && Restores(ss[i])
  {
    if n > 0 {
      assert ss[..n][..n - 1] == ss[..n - 1];
      KeptExactlyWhen(ss, a, n - 1);
    }
  }

  /**
   * Wherever a full-tunnel run dies, and whether or not its interface stays behind: the default route
   * survives exactly when it was not changed yet or the deferred call that restores it had run.
   */
  lemma DefaultSurvivesDeathExactlyWhen(t: Table, c: Setup, n: nat, orphan: bool)
    requires Scripted(c) && c.full && DEFAULT in t && t[DEFAULT] != Tun && n <= |Statements(t, c)|
    ensures KeepsDefault(t, Died(t, c, n, orphan))
       <==> n <= |c.endpoints| || exists i :: 0 <= i < n && Restores(Statements(t, c)[i])
  {
    var ss := Statements(t, c);
    DefaultStatements(t, c);
    KeptExactlyWhen(ss, |c.endpoints|, n);
    assert RestoresOnly(ss[..n], DefaultGateway(t));
    DefaultThroughout(t, c, ss[..n]);
  }
}
