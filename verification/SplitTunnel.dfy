// ApplySplitTunnelRules of tun/tun_freebsd.go: include prefixes through the TUN, exclude prefixes
// through the original gateway, with the failed adds reported together.
module SplitTunnel {
  import opened Basics
  import opened Routes

  datatype RuleError = Include(prefix: Prefix) | Exclude(prefix: Prefix)

  function Refused(t: Table, p: Prefix, refuses: bool): bool {
    p in t || refuses
  }

  /** One loop of adds: the table and the prefixes whose add failed, after the first k rules. */
  function Applied(t: Table, ps: seq<Prefix>, h: Hop, refuses: seq<bool>, k: nat): (Table, seq<Prefix>)
    requires k <= |ps| == |refuses|
  {
    if k == 0 then (t, [])
    else
      var (before, failed) := Applied(t, ps, h, refuses, k - 1);
      (Added(before, ps[k - 1], h, refuses[k - 1]),
       if ps[k - 1] in before || refuses[k - 1] then failed + [ps[k - 1]] else failed)
  }

  function Includes(ps: seq<Prefix>): (e: seq<RuleError>)
    ensures |e| == |ps| && forall i :: 0 <= i < |ps| ==> e[i] == Include(ps[i])
  {
    seq(|ps|, i requires 0 <= i < |ps| => Include(ps[i]))
  }

  function Excludes(ps: seq<Prefix>): (e: seq<RuleError>)
    ensures |e| == |ps| && forall i :: 0 <= i < |ps| ==> e[i] == Exclude(ps[i])
  {
    seq(|ps|, i requires 0 <= i < |ps| => Exclude(ps[i]))
  }

  /** The two loops in a row. */
  function Rules(t: Table, includes: seq<Prefix>, excludes: seq<Prefix>, gw: string,
                 refusesIn: seq<bool>, refusesEx: seq<bool>): (Table, seq<RuleError>)
    requires |includes| == |refusesIn| && |excludes| == |refusesEx|
  {
    var (mid, failedIn) := Applied(t, includes, Tun, refusesIn, |includes|);
    var (end, failedEx) := Applied(mid, excludes, Via(gw), refusesEx, |excludes|);
    (end, Includes(failedIn) + Excludes(failedEx))
  }

  /** The source returns nil exactly when no error was collected. */
  method ApplySplitTunnelRules(kernel: Kernel, includes: seq<Prefix>, excludes: seq<Prefix>, gw: string,
                               refusesIn: seq<bool>, refusesEx: seq<bool>)
    returns (errs: seq<RuleError>)
    requires |includes| == |refusesIn| && |excludes| == |refusesEx|
    modifies kernel
    ensures (kernel.routes, errs) == Rules(old(kernel.routes), includes, excludes, gw, refusesIn, refusesEx)
  {
    errs := [];
    ghost var t := kernel.routes;
    for k := 0 to |includes|
      invariant kernel.routes == Applied(t, includes, Tun, refusesIn, k).0
      invariant errs == Includes(Applied(t, includes, Tun, refusesIn, k).1)
    {
      var ok := kernel.Add(includes[k], Tun, refusesIn[k]);
      if !ok {
        errs := errs + [Include(includes[k])];
      }
    }
    ghost var mid, first := kernel.routes, errs;
    for k := 0 to |excludes|
      invariant kernel.routes == Applied(mid, excludes, Via(gw), refusesEx, k).0
      invariant errs == first + Excludes(Applied(mid, excludes, Via(gw), refusesEx, k).1)
    {
      var ok := kernel.Add(excludes[k], Via(gw), refusesEx[k]);
      if !ok {
        errs := errs + [Exclude(excludes[k])];
      }
    }
  }

  /** One loop keeps every old route, and afterwards has a route for p exactly if it had one or added one. */
  lemma {:induction false} AppliedKeeps(t: Table, ps: seq<Prefix>, h: Hop, refuses: seq<bool>, k: nat, p: Prefix)
    requires k <= |ps| == |refuses|
    ensures var (t', failed) := Applied(t, ps, h, refuses, k);
            && (p in t ==> p in t' && t'[p] == t[p])
            && (p in t' && p !in t ==> t'[p] == h && exists i :: 0 <= i < k && ps[i] == p && !refuses[i])
            && (p in failed ==> p in ps)
  {
    if k == 0 {
    } else {
      AppliedKeeps(t, ps, h, refuses, k - 1, p);
    }
  }

  /** Nothing failed exactly when no add was refused, the prefixes differ and none had a route before. */
  lemma {:induction false} AppliedAll(t: Table, ps: seq<Prefix>, h: Hop, refuses: seq<bool>, k: nat)
    requires k <= |ps| == |refuses|
    ensures var (t', failed) := Applied(t, ps, h, refuses, k);
            failed == [] <==> && (forall i :: 0 <= i < k ==> !refuses[i] && ps[i] !in t)
                              && (forall i, j :: 0 <= i < j < k ==> ps[i] != ps[j])
    ensures var (t', failed) := Applied(t, ps, h, refuses, k);
            failed == [] ==> forall i :: 0 <= i < k ==> ps[i] in t' && t'[ps[i]] == h
  {
    if k == 0 {
    } else {
      AppliedAll(t, ps, h, refuses, k - 1);
      AppliedKeeps(t, ps, h, refuses, k - 1, ps[k - 1]);
      var (before, failed) := Applied(t, ps, h, refuses, k - 1);
      var (after, failed') := Applied(t, ps, h, refuses, k);
      if failed == [] && ps[k - 1] in before && ps[k - 1] !in t {
        var i :| 0 <= i < k - 1 && ps[i] == ps[k - 1];
      }
      if i :| 0 <= i < k - 1 && ps[i] == ps[k - 1] && failed == [] {
        assert ps[k - 1] in before;
      }
    }
  }

  ghost predicate Distinct(ps: seq<Prefix>) {
    forall i, j :: 0 <= i < j < |ps| ==> ps[i] != ps[j]
  }

  /** nil is returned exactly when the rules are all different, all new, and no add was refused. */
  lemma NilExactlyWhen(t: Table, includes: seq<Prefix>, excludes: seq<Prefix>, gw: string,
                       refusesIn: seq<bool>, refusesEx: seq<bool>)
    requires |includes| == |refusesIn| && |excludes| == |refusesEx|
    ensures Rules(t, includes, excludes, gw, refusesIn, refusesEx).1 == []
       <==> && Distinct(includes) && (forall i :: 0 <= i < |includes| ==> !refusesIn[i] && includes[i] !in t)
            && Distinct(excludes) && (forall i :: 0 <= i < |excludes| ==> !refusesEx[i] && excludes[i] !in t && excludes[i] !in includes)
  {
    var (mid, failedIn) := Applied(t, includes, Tun, refusesIn, |includes|);
    AppliedAll(t, includes, Tun, refusesIn, |includes|);
    AppliedAll(mid, excludes, Via(gw), refusesEx, |excludes|);
    if failedIn == [] {
      forall i | 0 <= i < |excludes| ensures excludes[i] in mid <==> excludes[i] in t || excludes[i] in includes {
        AppliedKeeps(t, includes, Tun, refusesIn, |includes|, excludes[i]);
      }
    }
  }

  /**
   * When nil is returned, every address follows the most specific of the rules and old routes that
   * cover it: an include into the TUN, an exclude to the gateway, and an old route as before.
   */
  lemma RulesRoute(t: Table, includes: seq<Prefix>, excludes: seq<Prefix>, gw: string,
                   refusesIn: seq<bool>, refusesEx: seq<bool>, a: Address, p: Prefix)
    requires |includes| == |refusesIn| && |excludes| == |refusesEx|
    requires Rules(t, includes, excludes, gw, refusesIn, refusesEx).1 == []
    requires Covers(p, a) && (p in includes || p in excludes || p in t)
    requires forall q :: Covers(q, a) && (q in includes || q in excludes || q in t) ==> |q| <= |p|
    ensures Lookup(Rules(t, includes, excludes, gw, refusesIn, refusesEx).0, a)
         == Some(if p in includes then Tun else if p in excludes then Via(gw) else t[p])
  {
    var (mid, failedIn) := Applied(t, includes, Tun, refusesIn, |includes|);
    var (end, failedEx) := Applied(mid, excludes, Via(gw), refusesEx, |excludes|);
    AppliedAll(t, includes, Tun, refusesIn, |includes|);
    AppliedAll(mid, excludes, Via(gw), refusesEx, |excludes|);
    AppliedKeeps(t, includes, Tun, refusesIn, |includes|, p);
    AppliedKeeps(mid, excludes, Via(gw), refusesEx, |excludes|, p);
    forall q | q in end && Covers(q, a) ensures |q| <= |p| {
      AppliedKeeps(t, includes, Tun, refusesIn, |includes|, q);
      AppliedKeeps(mid, excludes, Via(gw), refusesEx, |excludes|, q);
    }
    LookupIsLongestMatch(end, a);
    assert MostSpecific(end, a, p);
  }

  // ---- which rules fail, and what is left when some do ----

  /** The add of rule i fails: it is refused, had a route before, or has one from an earlier rule of the loop. */
  ghost predicate FailsAt(t: Table, ps: seq<Prefix>, refuses: seq<bool>, i: nat)
    requires i < |ps| == |refuses|
  {
    refuses[i] || ps[i] in t || exists j :: 0 <= j < i && ps[j] == ps[i] && !refuses[j]
  }

  /** The failing rules among the first k, in order. */
  ghost function Failing(t: Table, ps: seq<Prefix>, refuses: seq<bool>, k: nat): seq<Prefix>
    requires k <= |ps| == |refuses|
  {
    if k == 0 then [] else Failing(t, ps, refuses, k - 1) + if FailsAt(t, ps, refuses, k - 1) then [ps[k - 1]] else []
  }

  /** After k rules exactly the old prefixes and those of unrefused rules have a route. */
  lemma {:induction false} AppliedHas(t: Table, ps: seq<Prefix>, h: Hop, refuses: seq<bool>, k: nat, p: Prefix)
    requires k <= |ps| == |refuses|
    ensures var t' := Applied(t, ps, h, refuses, k).0;
            && (p in t' <==> p in t || exists i :: 0 <= i < k && ps[i] == p && !refuses[i])
            && (p in t ==> t'[p] == t[p]) && (p in t' && p !in t ==> t'[p] == h)
  {
    if k > 0 {
      AppliedHas(t, ps, h, refuses, k - 1, p);
    }
  }

  lemma {:induction false} FailedAre(t: Table, ps: seq<Prefix>, h: Hop, refuses: seq<bool>, k: nat)
    requires k <= |ps| == |refuses|
    ensures Applied(t, ps, h, refuses, k).1 == Failing(t, ps, refuses, k)
  {
    if k > 0 {
      FailedAre(t, ps, h, refuses, k - 1);
      AppliedHas(t, ps, h, refuses, k - 1, ps[k - 1]);
    }
  }

  /**
   * What is reported: the failing includes as includes, and then the failing excludes as excludes,
   * each list in its order. An include that took its prefix makes an exclude of the same prefix fail.
   */
  lemma RulesReport(t: Table, includes: seq<Prefix>, excludes: seq<Prefix>, gw: string, refusesIn: seq<bool>, refusesEx: seq<bool>)
    requires |includes| == |refusesIn| && |excludes| == |refusesEx|
    ensures var mid := Applied(t, includes, Tun, refusesIn, |includes|).0;
            Rules(t, includes, excludes, gw, refusesIn, refusesEx).1
            == Includes(Failing(t, includes, refusesIn, |includes|)) + Excludes(Failing(mid, excludes, refusesEx, |excludes|))
  {
    FailedAre(t, includes, Tun, refusesIn, |includes|);
    FailedAre(Applied(t, includes, Tun, refusesIn, |includes|).0, excludes, Via(gw), refusesEx, |excludes|);
  }

  /** What the table is in any case, failures or not: nothing old is touched and nothing is rolled back. */
  lemma RulesTable(t: Table, includes: seq<Prefix>, excludes: seq<Prefix>, gw: string,
                   refusesIn: seq<bool>, refusesEx: seq<bool>, p: Prefix)
    requires |includes| == |refusesIn| && |excludes| == |refusesEx|
    ensures var end := Rules(t, includes, excludes, gw, refusesIn, refusesEx).0;
            var included := exists i :: 0 <= i < |includes| && includes[i] == p && !refusesIn[i];
            var excluded := exists i :: 0 <= i < |excludes| && excludes[i] == p && !refusesEx[i];
            && (p in end <==> p in t || included || excluded)
            && (p in end ==> end[p] == if p in t then t[p] else if included then Tun else Via(gw))
  {
    var mid := Applied(t, includes, Tun, refusesIn, |includes|).0;
    AppliedHas(t, includes, Tun, refusesIn, |includes|, p);
    AppliedHas(mid, excludes, Via(gw), refusesEx, |excludes|, p);
  }

  /** A prefix in both lists that had no route: the include wins and the exclude is reported. */
  lemma IncludeWins(t: Table, includes: seq<Prefix>, excludes: seq<Prefix>, gw: string,
                    refusesIn: seq<bool>, refusesEx: seq<bool>, i: nat, p: Prefix)
    requires |includes| == |refusesIn| && |excludes| == |refusesEx|
    requires i < |includes| && includes[i] == p && !refusesIn[i] && p in excludes && p !in t
    ensures var (end, errs) := Rules(t, includes, excludes, gw, refusesIn, refusesEx);
            p in end && end[p] == Tun && Exclude(p) in errs
  {
    var (mid, failedIn) := Applied(t, includes, Tun, refusesIn, |includes|);
    PresentAfter(t, includes, Tun, refusesIn, |includes|, i);
    AppliedKeeps(t, includes, Tun, refusesIn, |includes|, p);
    AppliedKeeps(mid, excludes, Via(gw), refusesEx, |excludes|, p);
    var j :| 0 <= j < |excludes| && excludes[j] == p;
    PresentFails(mid, excludes, Via(gw), refusesEx, |excludes|, j);
    var failedEx := Applied(mid, excludes, Via(gw), refusesEx, |excludes|).1;
    var x :| 0 <= x < |failedEx| && failedEx[x] == p;
    assert (Includes(failedIn) + Excludes(failedEx))[|failedIn| + x] == Exclude(p);
  }

  lemma {:induction false} PresentAfter(t: Table, ps: seq<Prefix>, h: Hop, refuses: seq<bool>, k: nat, i: nat)
    requires i < k <= |ps| == |refuses| && !refuses[i]
    ensures ps[i] in Applied(t, ps, h, refuses, k).0
    decreases k
  {
    if i < k - 1 {
      PresentAfter(t, ps, h, refuses, k - 1, i);
    }
  }

  lemma {:induction false} PresentFails(t: Table, ps: seq<Prefix>, h: Hop, refuses: seq<bool>, k: nat, i: nat)
    requires i < k <= |ps| == |refuses| && ps[i] in t
    ensures ps[i] in Applied(t, ps, h, refuses, k).1
    decreases k
  {
    AppliedKeeps(t, ps, h, refuses, k - 1, ps[i]);
    if i < k - 1 {
      PresentFails(t, ps, h, refuses, k - 1, i);
    }
  }
}
