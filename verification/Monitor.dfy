// cfzt_monitor.py: polling, the per-connection memory of the last observation, restarts and notices.
module Monitor {
  import opened Basics

  /** One entry of the configuration, with what its pid file and process showed when the loop reached it. */
  datatype Conn = Conn(uuid: Uuid, enabled: bool, registered: bool, running: bool)

  datatype Poll =
    | ConfigFailed
    | ServiceDisabled
    | Polled(conns: seq<Conn>, interval: int, notifyFailure: bool, notifyRecovery: bool)

  datatype Act = NotifyDown(uuid: Uuid) | NotifyUp(uuid: Uuid) | Restart(uuid: Uuid)

  /** The configuration is a dictionary: no uuid occurs twice. */
  predicate Keyed(p: Poll) {
    p.Polled? ==> forall i, j :: 0 <= i < j < |p.conns| ==> p.conns[i].uuid != p.conns[j].uuid
  }

  function Get(m: map<Uuid, bool>, u: Uuid): Option<bool> {
    if u in m then Some(m[u]) else None
  }

  /** The body of the loop over connections. */
  function Reaction(was: Option<bool>, c: Conn, notifyFailure: bool, notifyRecovery: bool): seq<Act> {
    if !c.running && c.registered then
      if was == Some(true) then (if notifyFailure then [NotifyDown(c.uuid)] else []) + [Restart(c.uuid)]
      else if was.None? then [Restart(c.uuid)]
      else []
    else if c.running && was == Some(false) then
      if notifyRecovery then [NotifyUp(c.uuid)] else []
    else []
  }

  /** last_status after the first k connections of a poll. */
  function Status(m: map<Uuid, bool>, conns: seq<Conn>, k: nat): map<Uuid, bool>
    requires k <= |conns|
  {
    if k == 0 then m
    else
      var before := Status(m, conns, k - 1);
      if conns[k - 1].enabled then before[conns[k - 1].uuid := conns[k - 1].running] else before
  }

  /** The acts of the first k connections of a poll. */
  function Acts(m: map<Uuid, bool>, p: Poll, k: nat): seq<Act>
    requires p.Polled? && k <= |p.conns|
  {
    if k == 0 then []
    else
      var c := p.conns[k - 1];
      Acts(m, p, k - 1)
      + if c.enabled then Reaction(Get(Status(m, p.conns, k - 1), c.uuid), c, p.notifyFailure, p.notifyRecovery) else []
  }

  function StatusAfter(m: map<Uuid, bool>, p: Poll): map<Uuid, bool> {
    if p.Polled? then Status(m, p.conns, |p.conns|) else m
  }

  function ActsOf(m: map<Uuid, bool>, p: Poll): seq<Act> {
    if p.Polled? then Acts(m, p, |p.conns|) else []
  }

  /** last_status at the start of poll j. */
  function StatusAt(polls: seq<Poll>, j: nat): map<Uuid, bool>
    requires j <= |polls|
  {
    if j == 0 then map[] else StatusAfter(StatusAt(polls, j - 1), polls[j - 1])
  }

  function Trace(polls: seq<Poll>, j: nat): seq<seq<Act>>
    requires j <= |polls|
  {
    if j == 0 then [] else Trace(polls, j - 1) + [ActsOf(StatusAt(polls, j - 1), polls[j - 1])]
  }

  class Daemon {
    var lastStatus: map<Uuid, bool>

    constructor ()
      ensures lastStatus == map[]
    {
      lastStatus := map[];
    }

    method PollOnce(p: Poll) returns (acts: seq<Act>)
      modifies this
      ensures lastStatus == StatusAfter(old(lastStatus), p)
      ensures acts == ActsOf(old(lastStatus), p)
    {
      acts := [];
      if !p.Polled? {
        return;
      }
      ghost var m := lastStatus;
      for k := 0 to |p.conns|
        invariant lastStatus == Status(m, p.conns, k)
        invariant acts == Acts(m, p, k)
      {
        var c := p.conns[k];
        if c.enabled {
          var was := Get(lastStatus, c.uuid);
          if !c.running && c.registered {
            if was == Some(true) {
              if p.notifyFailure {
                acts := acts + [NotifyDown(c.uuid)];
              }
              acts := acts + [Restart(c.uuid)];
            } else if was.None? {
              acts := acts + [Restart(c.uuid)];
            }
          } else if c.running && was == Some(false) {
            if p.notifyRecovery {
              acts := acts + [NotifyUp(c.uuid)];
            }
          }
          lastStatus := lastStatus[c.uuid := c.running];
        }
      }
    }

    /** run_monitor from start-up, for as many polls as it lives. */
    method RunMonitor(polls: seq<Poll>) returns (trace: seq<seq<Act>>)
      requires lastStatus == map[]
      modifies this
      ensures trace == Trace(polls, |polls|)
    {
      trace := [];
      for j := 0 to |polls|
        invariant lastStatus == StatusAt(polls, j)
        invariant trace == Trace(polls, j)
      {
        var acts := PollOnce(polls[j]);
        trace := trace + [acts];
      }
    }
  }

  /** The pause between polls, with SIGTERM arriving during nap number stopAt. */
  method Pause(configured: int, stopAt: nat) returns (slept: int, naps: nat)
    ensures naps <= stopAt
    ensures naps < stopAt ==> slept == (if configured > 5 then configured else 5)
    ensures 5 * naps - 4 <= slept <= 5 * naps || naps == slept == 0
  {
    var interval := if configured > 5 then configured else 5;
    var elapsed := 0;
    slept, naps := 0, 0;
    while naps < stopAt && elapsed < interval
      invariant elapsed == 5 * naps && naps <= stopAt
      invariant slept == if elapsed <= interval then elapsed else interval
      invariant elapsed < interval + 5
    {
      slept := slept + if interval - elapsed < 5 then interval - elapsed else 5;
      elapsed := elapsed + 5;
      naps := naps + 1;
    }
  }

  // ---- the edge detector, stated on one connection's observations ----

  /** What one poll shows of connection u, if u is enabled in it and the configuration could be read. */
  function Seen(p: Poll, u: Uuid): Option<Conn> {
    if p.Polled? then Find(p.conns, u, |p.conns|) else None
  }

  function Find(conns: seq<Conn>, u: Uuid, k: nat): Option<Conn>
    requires k <= |conns|
  {
    if k == 0 then None
    else if conns[k - 1].enabled && conns[k - 1].uuid == u then Some(conns[k - 1])
    else Find(conns, u, k - 1)
  }

  /** The observations of u in the first j polls, polls that skip u left out. */
  function Observations(polls: seq<Poll>, u: Uuid, j: nat): seq<Conn>
    requires j <= |polls|
  {
    if j == 0 then []
    else
      var before := Observations(polls, u, j - 1);
      match Seen(polls[j - 1], u)
      case None => before
      case Some(c) => before + [c]
  }

  function Previous(obs: seq<Conn>): Option<bool> {
    if obs == [] then None else Some(obs[|obs| - 1].running)
  }

  function About(acts: seq<Act>, u: Uuid): seq<Act> {
    if acts == [] then []
    else About(acts[..|acts| - 1], u) + if acts[|acts| - 1].uuid == u then [acts[|acts| - 1]] else []
  }

  lemma {:induction false} AboutConcat(a: seq<Act>, b: seq<Act>, u: Uuid)
    ensures About(a + b, u) == About(a, u) + About(b, u)
  {
    if b == [] {
      assert a + b == a;
    } else {
      assert (a + b)[..|a + b| - 1] == a + b[..|b| - 1];
      AboutConcat(a, b[..|b| - 1], u);
    }
  }

  lemma AboutOne(a: Act, u: Uuid)
    ensures About([a], u) == if a.uuid == u then [a] else []
  {
    assert [a][..0] == [];
  }

  lemma AboutReaction(was: Option<bool>, c: Conn, f: bool, r: bool, u: Uuid)
    ensures About(Reaction(was, c, f, r), u) == if c.uuid == u then Reaction(was, c, f, r) else []
  {
    AboutOne(NotifyDown(c.uuid), u);
    AboutOne(NotifyUp(c.uuid), u);
    AboutOne(Restart(c.uuid), u);
    AboutConcat(if f then [NotifyDown(c.uuid)] else [], [Restart(c.uuid)], u);
  }

  /** Before the entry of u in a poll, and without one, the memory of u is untouched. */
  lemma {:induction false} OneStatus(m: map<Uuid, bool>, conns: seq<Conn>, u: Uuid, k: nat)
    requires k <= |conns|
    ensures Get(Status(m, conns, k), u) == match Find(conns, u, k) case None => Get(m, u) case Some(c) => Some(c.running)
  {
    if k == 0 {
    } else {
      OneStatus(m, conns, u, k - 1);
    }
  }

  lemma {:induction false} FoundIsU(conns: seq<Conn>, u: Uuid, k: nat)
    requires k <= |conns|
    ensures Find(conns, u, k).Some? ==> Find(conns, u, k).value.uuid == u && Find(conns, u, k).value.enabled
    ensures Find(conns, u, k).Some? ==> exists i :: 0 <= i < k && conns[i].uuid == u
  {
    if k > 0 {
      FoundIsU(conns, u, k - 1);
    }
  }

  /** One more connection of a poll, as far as u is concerned. */
  lemma OneMore(m: map<Uuid, bool>, p: Poll, u: Uuid, k: nat)
    requires p.Polled? && k < |p.conns|
    ensures var c, was := p.conns[k], Get(Status(m, p.conns, k), u);
            var more := if c.enabled && c.uuid == u then Reaction(was, c, p.notifyFailure, p.notifyRecovery) else [];
            About(Acts(m, p, k + 1), u) == About(Acts(m, p, k), u) + more
  {
    var c := p.conns[k];
    var reaction := Reaction(Get(Status(m, p.conns, k), c.uuid), c, p.notifyFailure, p.notifyRecovery);
    AboutConcat(Acts(m, p, k), if c.enabled then reaction else [], u);
    AboutReaction(Get(Status(m, p.conns, k), c.uuid), c, p.notifyFailure, p.notifyRecovery, u);
  }

  lemma OnlyEntry(p: Poll, u: Uuid, k: nat)
    requires p.Polled? && Keyed(p) && k < |p.conns| && p.conns[k].uuid == u
    ensures Find(p.conns, u, k).None?
  {
    FoundIsU(p.conns, u, k);
  }

  /** What the first k entries of a poll do about u. */
  function Own(m: map<Uuid, bool>, p: Poll, u: Uuid, k: nat): seq<Act>
    requires p.Polled? && k <= |p.conns|
  {
    match Find(p.conns, u, k)
    case None => []
    case Some(c) => Reaction(Get(m, u), c, p.notifyFailure, p.notifyRecovery)
  }

  lemma OwnStep(m: map<Uuid, bool>, p: Poll, u: Uuid, k: nat)
    requires p.Polled? && Keyed(p) && k < |p.conns|
    ensures var c, was := p.conns[k], Get(Status(m, p.conns, k), u);
            var more := if c.enabled && c.uuid == u then Reaction(was, c, p.notifyFailure, p.notifyRecovery) else [];
            Own(m, p, u, k + 1) == Own(m, p, u, k) + more
  {
    if p.conns[k].enabled && p.conns[k].uuid == u {
      OnlyEntry(p, u, k);
      OneStatus(m, p.conns, u, k);
      assert Find(p.conns, u, k + 1) == Some(p.conns[k]);
    } else {
      assert Find(p.conns, u, k + 1) == Find(p.conns, u, k);
    }
  }

  /** Within one poll only u's own entry acts on u. */
  lemma {:induction false} OnePoll(m: map<Uuid, bool>, p: Poll, u: Uuid, k: nat)
    requires p.Polled? && Keyed(p) && k <= |p.conns|
    ensures About(Acts(m, p, k), u) == Own(m, p, u, k)
  {
    if k == 0 {
    } else {
      OnePoll(m, p, u, k - 1);
      OneMoreOwn(m, p, u, k - 1);
    }
  }

  lemma OneMoreOwn(m: map<Uuid, bool>, p: Poll, u: Uuid, k: nat)
    requires p.Polled? && Keyed(p) && k < |p.conns| && About(Acts(m, p, k), u) == Own(m, p, u, k)
    ensures About(Acts(m, p, k + 1), u) == Own(m, p, u, k + 1)
  {
    OneMore(m, p, u, k);
    OwnStep(m, p, u, k);
  }

  /** The memory holds the last observation, however many polls in between skipped the connection. */
  lemma {:induction false} MemoryIsLastObservation(polls: seq<Poll>, u: Uuid, j: nat)
    requires j <= |polls| && forall i :: 0 <= i < |polls| ==> Keyed(polls[i])
    ensures Get(StatusAt(polls, j), u) == Previous(Observations(polls, u, j))
  {
    if j == 0 {
    } else {
      MemoryIsLastObservation(polls, u, j - 1);
      if polls[j - 1].Polled? {
        OneStatus(StatusAt(polls, j - 1), polls[j - 1].conns, u, |polls[j - 1].conns|);
      }
    }
  }

  lemma ReactionIs(was: Option<bool>, c: Conn, f: bool, r: bool)
    ensures var acts, u := Reaction(was, c, f, r), c.uuid;
            && (Restart(u) in acts <==> c.registered && !c.running && was != Some(false))
            && (NotifyDown(u) in acts <==> c.registered && !c.running && was == Some(true) && f)
            && (NotifyUp(u) in acts <==> c.running && was == Some(false) && r)
            && |acts| <= 2 && (NotifyDown(u) in acts ==> acts == [NotifyDown(u), Restart(u)])
  {
    var acts := Reaction(was, c, f, r);
    match was {
      case None =>
      case Some(b) => assert if b then was == Some(true) else was == Some(false);
    }
    if c.registered && !c.running && was != Some(false) {
      assert was.None? || was == Some(true);
      assert acts[|acts| - 1] == Restart(c.uuid);
    }
  }

  /**
   * The monitor refines an edge detector: what poll j does about u is decided by this observation
   * of u and the one before it alone. A restart is issued exactly when a registered connection is
   * seen down and was last seen up or never seen; a notice exactly on a change.
   */
  lemma RefinesEdgeDetector(polls: seq<Poll>, u: Uuid, j: nat)
    requires j < |polls| && forall i :: 0 <= i < |polls| ==> Keyed(polls[i])
    ensures j < |Trace(polls, |polls|)|
    ensures var acts, was := About(Trace(polls, |polls|)[j], u), Previous(Observations(polls, u, j));
            match Seen(polls[j], u)
            case None => acts == []
            case Some(c) =>
              && (Restart(u) in acts <==> c.registered && !c.running && was != Some(false))
              && (NotifyDown(u) in acts <==> c.registered && !c.running && was == Some(true) && polls[j].notifyFailure)
              && (NotifyUp(u) in acts <==> c.running && was == Some(false) && polls[j].notifyRecovery)
              && |acts| <= 2 && (NotifyDown(u) in acts ==> acts == [NotifyDown(u), Restart(u)])
  {
    TraceAt(polls, |polls|, j);
    MemoryIsLastObservation(polls, u, j);
    if polls[j].Polled? {
      OnePoll(StatusAt(polls, j), polls[j], u, |polls[j].conns|);
      FoundIsU(polls[j].conns, u, |polls[j].conns|);
      if Seen(polls[j], u).Some? {
        ReactionIs(Get(StatusAt(polls, j), u), Seen(polls[j], u).value, polls[j].notifyFailure, polls[j].notifyRecovery);
      }
    }
  }

  lemma {:induction false} TraceAt(polls: seq<Poll>, n: nat, j: nat)
    requires j < n <= |polls|
    ensures |Trace(polls, n)| == n && Trace(polls, n)[j] == ActsOf(StatusAt(polls, j), polls[j])
  {
    if j < n - 1 {
      TraceAt(polls, n - 1, j);
    } else if j > 0 {
      TraceAt(polls, n - 1, j - 1);
    }
  }

  // ---- restarts and edges over a run of polls ----

  ghost predicate AllKeyed(polls: seq<Poll>) {
    forall i :: 0 <= i < |polls| ==> Keyed(polls[i])
  }

  /** The acts of poll j about u. */
  function ActsAt(polls: seq<Poll>, u: Uuid, j: nat): seq<Act>
    requires j < |polls|
  {
    TraceAt(polls, |polls|, j);
    About(Trace(polls, |polls|)[j], u)
  }

  /** Poll m sees u enabled and in the given state. */
  predicate SeenAs(polls: seq<Poll>, u: Uuid, m: nat, running: bool)
    requires m < |polls|
  {
    Seen(polls[m], u).Some? && Seen(polls[m], u).value.running == running
  }

  lemma StatusStep(polls: seq<Poll>, u: Uuid, j: nat)
    requires j < |polls|
    ensures Get(StatusAt(polls, j + 1), u)
         == match Seen(polls[j], u) case None => Get(StatusAt(polls, j), u) case Some(c) => Some(c.running)
  {
    if polls[j].Polled? {
      OneStatus(StatusAt(polls, j), polls[j].conns, u, |polls[j].conns|);
    }
  }

  /** Once u has been seen in one state, a memory of the other state comes from a poll that saw the change. */
  lemma {:induction false} ChangeBetween(polls: seq<Poll>, u: Uuid, j: nat, l: nat, x: bool)
    requires j <= l <= |polls|
    requires Get(StatusAt(polls, j), u) == Some(x) && Get(StatusAt(polls, l), u) != Some(x)
    ensures exists m :: j <= m < l && SeenAs(polls, u, m, !x) && Get(StatusAt(polls, m), u) == Some(x)
    decreases l
  {
    StatusStep(polls, u, l - 1);
    if Get(StatusAt(polls, l - 1), u) == Some(x) {
      assert SeenAs(polls, u, l - 1, !x);
    } else {
      ChangeBetween(polls, u, j, l - 1, x);
    }
  }

  /** What poll j does about u, from the memory it finds. */
  lemma ActsAtIs(polls: seq<Poll>, u: Uuid, j: nat)
    requires j < |polls| && AllKeyed(polls)
    ensures ActsAt(polls, u, j)
         == match Seen(polls[j], u)
            case None => []
            case Some(c) => Reaction(Get(StatusAt(polls, j), u), c, polls[j].notifyFailure, polls[j].notifyRecovery)
  {
    TraceAt(polls, |polls|, j);
    if polls[j].Polled? {
      OnePoll(StatusAt(polls, j), polls[j], u, |polls[j].conns|);
    }
  }

  /** Between two restarts of a connection some poll saw it up: a restart that does not take is never repeated. */
  lemma RestartsNeedUp(polls: seq<Poll>, u: Uuid, j: nat, l: nat)
    requires j < l < |polls| && AllKeyed(polls)
    requires Restart(u) in ActsAt(polls, u, j) && Restart(u) in ActsAt(polls, u, l)
    ensures exists m :: j < m < l && SeenAs(polls, u, m, true)
  {
    RefinesEdgeDetector(polls, u, j);
    RefinesEdgeDetector(polls, u, l);
    MemoryIsLastObservation(polls, u, l);
    StatusStep(polls, u, j);
    ChangeBetween(polls, u, j + 1, l, false);
  }

  /**
   * Failure and recovery notices over a run with the recovery flag on: between two failure notices
   * lies a recovery notice, and between two recovery notices a poll that saw the connection go down,
   * which gives a failure notice exactly when it was registered and the failure flag was on.
   */
  lemma EdgesAlternate(polls: seq<Poll>, u: Uuid, j: nat, l: nat)
    requires j < l < |polls| && AllKeyed(polls)
    requires forall i :: 0 <= i < |polls| && polls[i].Polled? ==> polls[i].notifyRecovery
    ensures NotifyDown(u) in ActsAt(polls, u, j) && NotifyDown(u) in ActsAt(polls, u, l) ==>
              exists m :: j < m < l && NotifyUp(u) in ActsAt(polls, u, m)
    ensures NotifyUp(u) in ActsAt(polls, u, j) && NotifyUp(u) in ActsAt(polls, u, l) ==>
              exists m :: j < m < l && SeenAs(polls, u, m, false)
                       && (NotifyDown(u) in ActsAt(polls, u, m) <==> Seen(polls[m], u).value.registered && polls[m].notifyFailure)
  {
    RefinesEdgeDetector(polls, u, j);
    RefinesEdgeDetector(polls, u, l);
    MemoryIsLastObservation(polls, u, l);
    StatusStep(polls, u, j);
    if NotifyDown(u) in ActsAt(polls, u, j) && NotifyDown(u) in ActsAt(polls, u, l) {
      ChangeSeen(polls, u, j, l, false);
    }
    if NotifyUp(u) in ActsAt(polls, u, j) && NotifyUp(u) in ActsAt(polls, u, l) {
      ChangeSeen(polls, u, j, l, true);
    }
  }

  lemma ChangeSeen(polls: seq<Poll>, u: Uuid, j: nat, l: nat, x: bool)
    requires j < l < |polls| && AllKeyed(polls)
    requires Get(StatusAt(polls, j + 1), u) == Some(x) && Get(StatusAt(polls, l), u) != Some(x)
    ensures exists m :: j < m < l && SeenAs(polls, u, m, !x)
                     && (if x then NotifyDown(u) in ActsAt(polls, u, m) <==> Seen(polls[m], u).value.registered && polls[m].notifyFailure
                         else NotifyUp(u) in ActsAt(polls, u, m) <==> polls[m].notifyRecovery)
  {
    ChangeBetween(polls, u, j + 1, l, x);
    var m :| j + 1 <= m < l && SeenAs(polls, u, m, !x) && Get(StatusAt(polls, m), u) == Some(x);
    RefinesEdgeDetector(polls, u, m);
    MemoryIsLastObservation(polls, u, m);
  }

  // ---- notices over a run of polls ----

  /** The notices among some acts: true for a failure, false for a recovery. */
  function NoticesIn(acts: seq<Act>): seq<bool> {
    if acts == [] then []
    else
      NoticesIn(acts[..|acts| - 1])
      + match acts[|acts| - 1]
        case NotifyDown(_) => [true]
        case NotifyUp(_) => [false]
        case Restart(_) => []
  }

  /** All notices about u that the first j polls send, in order. */
  function NoticesSent(polls: seq<Poll>, u: Uuid, j: nat): seq<bool>
    requires j <= |polls|
  {
    if j == 0 then [] else NoticesSent(polls, u, j - 1) + NoticesIn(ActsAt(polls, u, j - 1))
  }

  /** Down edge of a connection already seen. */
  predicate FallsAt(obs: seq<Conn>, k: nat)
    requires k < |obs|
  {
    k > 0 && obs[k - 1].running && !obs[k].running
  }

  /** Up edge of a connection already seen. */
  predicate RisesAt(obs: seq<Conn>, k: nat)
    requires k < |obs|
  {
    k > 0 && !obs[k - 1].running && obs[k].running
  }

  /** The notices that the first n observations call for: one for each registered fall and each rise. */
  function Notices(obs: seq<Conn>, n: nat): seq<bool>
    requires n <= |obs|
  {
    if n == 0 then []
    else
      Notices(obs, n - 1)
      + if FallsAt(obs, n - 1) && obs[n - 1].registered then [true] else if RisesAt(obs, n - 1) then [false] else []
  }

  lemma {:induction false} NoticesOfStart(obs: seq<Conn>, c: Conn, n: nat)
    requires n <= |obs|
    ensures Notices(obs + [c], n) == Notices(obs, n)
  {
    if n > 0 {
      NoticesOfStart(obs, c, n - 1);
    }
  }

  lemma NoticesInShort(a: Act, b: Act)
    ensures NoticesIn([a]) == match a case NotifyDown(_) => [true] case NotifyUp(_) => [false] case Restart(_) => []
    ensures NoticesIn([a, b]) == NoticesIn([a]) + NoticesIn([b])
  {
    assert [a][..0] == [] && [b][..0] == [] && [a, b][..1] == [a];
  }

  lemma NoticesOfReaction(was: Option<bool>, c: Conn)
    ensures NoticesIn(Reaction(was, c, true, true))
         == if !c.running && c.registered && was == Some(true) then [true]
            else if c.running && was == Some(false) then [false] else []
  {
    var u := c.uuid;
    NoticesInShort(NotifyDown(u), Restart(u));
    NoticesInShort(NotifyUp(u), Restart(u));
    NoticesInShort(Restart(u), Restart(u));
    if was == Some(true) {
      assert [NotifyDown(u)] + [Restart(u)] == [NotifyDown(u), Restart(u)];
    }
  }

  /** Both flags are on in every poll. */
  predicate AllNotify(polls: seq<Poll>) {
    forall i :: 0 <= i < |polls| && polls[i].Polled? ==> polls[i].notifyFailure && polls[i].notifyRecovery
  }

  /** One more observation of u, and the notices of the poll that made it. */
  lemma OneObservation(before: seq<Conn>, c: Conn)
    ensures Notices(before + [c], |before| + 1)
         == Notices(before, |before|) + NoticesIn(Reaction(Previous(before), c, true, true))
  {
    NoticesOfStart(before, c, |before|);
    NoticesOfReaction(Previous(before), c);
  }

  lemma NoticesOfPoll(polls: seq<Poll>, u: Uuid, j: nat)
    requires j < |polls| && AllKeyed(polls) && AllNotify(polls)
    ensures NoticesIn(ActsAt(polls, u, j))
         == match Seen(polls[j], u)
            case None => []
            case Some(c) => NoticesIn(Reaction(Previous(Observations(polls, u, j)), c, true, true))
  {
    ActsAtIs(polls, u, j);
    MemoryIsLastObservation(polls, u, j);
  }

  lemma NoticesStep(polls: seq<Poll>, u: Uuid, j: nat)
    requires j < |polls| && AllKeyed(polls) && AllNotify(polls)
    ensures var before, after := Observations(polls, u, j), Observations(polls, u, j + 1);
            Notices(after, |after|) == Notices(before, |before|) + NoticesIn(ActsAt(polls, u, j))
  {
    NoticesOfPoll(polls, u, j);
    var before := Observations(polls, u, j);
    if Seen(polls[j], u).Some? {
      var c := Seen(polls[j], u).value;
      OneObservation(before, c);
      assert Observations(polls, u, j + 1) == before + [c];
    } else {
      assert Observations(polls, u, j + 1) == before;
    }
  }

  lemma SentStep(polls: seq<Poll>, u: Uuid, j: nat)
    requires j < |polls|
    ensures NoticesSent(polls, u, j + 1) == NoticesSent(polls, u, j) + NoticesIn(ActsAt(polls, u, j))
  {
  }

  /** The notices sent by the first j polls are those that the observations so far call for. */
  predicate SentAsCalledFor(polls: seq<Poll>, u: Uuid, j: nat)
    requires j <= |polls|
  {
    NoticesSent(polls, u, j) == Notices(Observations(polls, u, j), |Observations(polls, u, j)|)
  }

  lemma SentStepAsCalledFor(polls: seq<Poll>, u: Uuid, j: nat)
    requires j < |polls| && AllKeyed(polls) && AllNotify(polls) && SentAsCalledFor(polls, u, j)
    ensures SentAsCalledFor(polls, u, j + 1)
  {
    SentStep(polls, u, j);
    NoticesStep(polls, u, j);
  }

  /** The notices sent about u are those that its observations call for, polls that skip u left out. */
  lemma {:induction false} NoticesSentAre(polls: seq<Poll>, u: Uuid, j: nat)
    requires j <= |polls| && AllKeyed(polls) && AllNotify(polls)
    ensures SentAsCalledFor(polls, u, j)
  {
    if j == 0 {
    } else {
      NoticesSentAre(polls, u, j - 1);
      SentStepAsCalledFor(polls, u, j - 1);
    }
  }

  predicate Alternates(s: seq<bool>) {
    forall i :: 0 < i < |s| ==> s[i] != s[i - 1]
  }

  /** One of the first n observations is a recovery. */
  predicate Rose(obs: seq<Conn>, n: nat)
    requires n <= |obs|
  {
    n > 0 && (Rose(obs, n - 1) || RisesAt(obs, n - 1))
  }

  /** After a recovery, a fall without a notice because the connection was not registered. */
  predicate SilentFall(obs: seq<Conn>, n: nat)
    requires n <= |obs|
  {
    n > 0 && (SilentFall(obs, n - 1) || (FallsAt(obs, n - 1) && !obs[n - 1].registered && Rose(obs, n - 1)))
  }

  /** And after that, a recovery. */
  predicate RisesAgain(obs: seq<Conn>, n: nat)
    requires n <= |obs|
  {
    n > 0 && (RisesAgain(obs, n - 1) || (RisesAt(obs, n - 1) && SilentFall(obs, n - 1)))
  }

  lemma {:induction false} RoseIs(obs: seq<Conn>, n: nat)
    requires n <= |obs|
    ensures Rose(obs, n) <==> exists i :: 0 <= i < n && RisesAt(obs, i)
  {
    if n > 0 {
      RoseIs(obs, n - 1);
    }
  }

  lemma {:induction false} SilentFallIs(obs: seq<Conn>, n: nat)
    requires n <= |obs|
    ensures SilentFall(obs, n) <==> exists k :: 0 <= k < n && FallsAt(obs, k) && !obs[k].registered && Rose(obs, k)
  {
    if n > 0 {
      SilentFallIs(obs, n - 1);
    }
  }

  lemma {:induction false} RisesAgainIs(obs: seq<Conn>, n: nat)
    requires n <= |obs|
    ensures RisesAgain(obs, n) <==> exists l :: 0 <= l < n && RisesAt(obs, l) && SilentFall(obs, l)
  {
    if n > 0 {
      RisesAgainIs(obs, n - 1);
    }
  }

  /** A connection recovered, fell unregistered, and recovered again. */
  ghost predicate RecoversTwiceInARow(obs: seq<Conn>) {
    exists i, k, l :: 0 <= i < k < l < |obs| && RisesAt(obs, i) && FallsAt(obs, k) && !obs[k].registered && RisesAt(obs, l)
  }

  lemma RisesAgainInOne(obs: seq<Conn>)
    ensures RisesAgain(obs, |obs|) <==> RecoversTwiceInARow(obs)
  {
    RisesAgainIs(obs, |obs|);
    if RisesAgain(obs, |obs|) {
      var l :| 0 <= l < |obs| && RisesAt(obs, l) && SilentFall(obs, l);
      SilentFallIs(obs, l);
      var k :| 0 <= k < l && FallsAt(obs, k) && !obs[k].registered && Rose(obs, k);
      RoseIs(obs, k);
    }
    if RecoversTwiceInARow(obs) {
      var i, k, l :| 0 <= i < k < l < |obs| && RisesAt(obs, i) && FallsAt(obs, k) && !obs[k].registered && RisesAt(obs, l);
      RoseIs(obs, k);
      SilentFallIs(obs, l);
    }
  }

  /** A connection that is up after a silent fall has risen again. */
  lemma {:induction false} UpAgain(obs: seq<Conn>, n: nat)
    requires 0 < n <= |obs| && obs[n - 1].running && SilentFall(obs, n)
    ensures RisesAgain(obs, n)
  {
    if n > 1 && obs[n - 2].running {
      UpAgain(obs, n - 1);
    }
  }

  lemma {:induction false} AgainWasSilent(obs: seq<Conn>, n: nat)
    requires n <= |obs| && RisesAgain(obs, n)
    ensures SilentFall(obs, n)
  {
    if RisesAgain(obs, n - 1) {
      AgainWasSilent(obs, n - 1);
    }
  }

  predicate EndsIn(s: seq<bool>, b: bool) {
    s != [] && s[|s| - 1] == b
  }

  /** What the notices so far tell of recoveries, and of how a connection last seen up or down got there. */
  predicate Tells(sent: seq<bool>, up: bool, down: bool, rose: bool, silent: bool, again: bool) {
    && (false in sent <==> rose)
    && (!up && !down ==> sent == [] && !silent)
    && (!down ==> !EndsIn(sent, true))
    && (down && !again ==> (EndsIn(sent, false) <==> silent))
    && (Alternates(sent) <==> !again)
  }

  predicate NoticesTell(obs: seq<Conn>, n: nat)
    requires n <= |obs|
  {
    Tells(Notices(obs, n), n > 0 && obs[n - 1].running, n > 0 && !obs[n - 1].running,
          Rose(obs, n), SilentFall(obs, n), RisesAgain(obs, n))
  }

  lemma AlternatesSnoc(s: seq<bool>, b: bool)
    ensures Alternates(s + [b]) <==> Alternates(s) && !EndsIn(s, b)
  {
    var t := s + [b];
    if Alternates(t) {
      forall i | 0 < i < |s| ensures s[i] != s[i - 1] {
        assert t[i] != t[i - 1];
      }
      assert s != [] ==> t[|s|] != t[|s| - 1];
    }
  }

  /** One more observation, as far as the notices go. */
  lemma TellsStep(sent: seq<bool>, up: bool, down: bool, rose: bool, silent: bool, again: bool, running: bool, registered: bool)
    requires Tells(sent, up, down, rose, silent, again) && !(up && down)
    requires (again ==> silent) && (up && silent ==> again)
    ensures var falls, rises := up && !running, down && running;
            var more := if falls && registered then [true] else if rises then [false] else [];
            Tells(sent + more, running, !running, rose || rises, silent || (falls && !registered && rose), again || (rises && silent))
  {
    AlternatesSnoc(sent, true);
    AlternatesSnoc(sent, false);
    assert sent + [] == sent;
    assert EndsIn(sent, false) ==> false in sent;
  }

  lemma {:induction false} TellAlways(obs: seq<Conn>, n: nat)
    requires n <= |obs|
    ensures NoticesTell(obs, n)
  {
    if n > 0 {
      TellAlways(obs, n - 1);
      if RisesAgain(obs, n - 1) {
        AgainWasSilent(obs, n - 1);
      }
      var up, down := n > 1 && obs[n - 2].running, n > 1 && !obs[n - 2].running;
      if up && SilentFall(obs, n - 1) {
        UpAgain(obs, n - 1);
      }
      TellsStep(Notices(obs, n - 1), up, down, Rose(obs, n - 1), SilentFall(obs, n - 1), RisesAgain(obs, n - 1),
                obs[n - 1].running, obs[n - 1].registered);
    }
  }

  /**
   * The notices that a run of polls sends about u strictly alternate exactly when u was not seen to
   * recover, fall while unregistered, and recover again.
   */
  lemma NoticesAlternateExactlyWhen(polls: seq<Poll>, u: Uuid, j: nat)
    requires j <= |polls| && AllKeyed(polls) && AllNotify(polls)
    ensures Alternates(NoticesSent(polls, u, j)) <==> !RecoversTwiceInARow(Observations(polls, u, j))
  {
    var obs := Observations(polls, u, j);
    NoticesSentAre(polls, u, j);
    TellAlways(obs, |obs|);
    RisesAgainInOne(obs);
  }

  lemma RegisteredNeverSilent(obs: seq<Conn>)
    requires forall k :: 0 <= k < |obs| ==> obs[k].registered
    ensures !SilentFall(obs, |obs|) && !RisesAgain(obs, |obs|)
  {
    SilentFallIs(obs, |obs|);
    if RisesAgain(obs, |obs|) {
      AgainWasSilent(obs, |obs|);
    }
  }

  /** In particular while u stays registered; and then the last notice tells u's last observed state. */
  lemma NoticesAlternate(polls: seq<Poll>, u: Uuid, j: nat)
    requires j <= |polls| && AllKeyed(polls) && AllNotify(polls)
    requires forall k :: 0 <= k < |Observations(polls, u, j)| ==> Observations(polls, u, j)[k].registered
    ensures Alternates(NoticesSent(polls, u, j))
    ensures var obs, sent := Observations(polls, u, j), NoticesSent(polls, u, j);
            sent != [] ==> obs != [] && sent[|sent| - 1] == !obs[|obs| - 1].running
  {
    var obs := Observations(polls, u, j);
    NoticesSentAre(polls, u, j);
    TellAlways(obs, |obs|);
    RegisteredNeverSilent(obs);
  }

  /** One poll that sees u alone. */
  function PollOf(u: Uuid, registered: bool, running: bool): Poll {
    Polled([Conn(u, true, registered, running)], 30, true, true)
  }

  lemma OnePollOf(polls: seq<Poll>, u: Uuid, j: nat, registered: bool, running: bool)
    requires j < |polls| && polls[j] == PollOf(u, registered, running)
    ensures Observations(polls, u, j + 1) == Observations(polls, u, j) + [Conn(u, true, registered, running)]
  {
    assert Find(polls[j].conns, u, 1) == Some(polls[j].conns[0]);
  }

  /** Four polls of an unregistered connection, down, up, down, up, send two recovery notices in a row. */
  lemma UnregisteredRecoversTwice(u: Uuid)
    ensures var polls := [PollOf(u, false, false), PollOf(u, false, true), PollOf(u, false, false), PollOf(u, false, true)];
            AllKeyed(polls) && AllNotify(polls) && !Alternates(NoticesSent(polls, u, 4))
  {
    var polls := [PollOf(u, false, false), PollOf(u, false, true), PollOf(u, false, false), PollOf(u, false, true)];
    OnePollOf(polls, u, 0, false, false);
    OnePollOf(polls, u, 1, false, true);
    OnePollOf(polls, u, 2, false, false);
    OnePollOf(polls, u, 3, false, true);
    var obs := Observations(polls, u, 4);
    assert RisesAt(obs, 1) && FallsAt(obs, 2) && !obs[2].registered && RisesAt(obs, 3);
    NoticesAlternateExactlyWhen(polls, u, 4);
  }
}
