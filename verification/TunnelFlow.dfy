// Where every statement of the tunnel leads, counted over whole runs: each answer of the network, the
// device and a connection has its one consequence, and each consequence its cause.
module TunnelFlow {
  import opened Basics
  import opened Delays
  import opened Connect
  import opened Tunnel
  import opened TunnelSessions
  import opened TunnelBuffers
  import opened TunnelTheorems

  // ---- runs from their end ----

  lemma {:induction false} RunSnoc(c: Config, s: State, run: seq<Action>, a: Action)
    ensures Run(c, s, run + [a]).Some? ==>
              && Run(c, s, run).Some? && Enabled(c, Run(c, s, run).value, a)
              && Run(c, s, run + [a]).value == Apply(c, Run(c, s, run).value, a)
    decreases |run|
  {
    var all := run + [a];
    if run == [] {
      assert all[1..] == [];
    } else {
      assert all[1..] == run[1..] + [a];
      if Enabled(c, s, run[0]) {
        RunSnoc(c, Apply(c, s, run[0]), run[1..], a);
      }
    }
  }

  // ---- the main loop ----

  /** The statements of main, told apart by what the environment answers. */
  datatype MainKind =
    | Heads | Gets | Wakes | ReadFails | Puts | Selects | SelectFails
    | Got200 | GotOther | GotNone | Rejects
    | Starts | Receives | Cancels | Closes | Awaits | Releases
    | Resumes | Cuts

  /** The HTTP status of the first reply that is an answer. */
  function StatusGot(first: Reply, second: Reply): Option<int> {
    if first.Answered? then Some(first.status)
    else if second.Answered? then Some(second.status)
    else None
  }

  function KindOf(m: MainAct): MainKind {
    match m
    case MHead => Heads
    case MGet(_) => Gets
    case MRead(_) => Wakes
    case MReadError => ReadFails
    case MPut => Puts
    case MSelect(ok) => if ok then Selects else SelectFails
    case MConnect(first, second) =>
      if StatusGot(first, second).None? then GotNone else if StatusGot(first, second) == Some(200) then Got200 else GotOther
    case MReject => Rejects
    case MStart => Starts
    case MReceive => Receives
    case MCancel => Cancels
    case MClose => Closes
    case MAwait(_) => Awaits
    case MRelease => Releases
    case MWake(cut) => if cut then Cuts else Resumes
  }

  function MainCount(run: seq<Action>, k: MainKind): nat {
    if run == [] then 0
    else
      var a := run[|run| - 1];
      MainCount(run[..|run| - 1], k) + One(a.Main? && KindOf(a.m) == k)
  }

  /** Rounds of the loop: with AlwaysReconnect no round touches the TUN, without it each waits for one packet or fails to. */
  predicate Rounds(c: Config, m: MainPc, n: MainKind -> nat) {
    && n(Resumes) + 1 == n(Heads) + One(m.Head?)
    && n(Cuts) <= One(m.Returned?)
    && if c.alwaysReconnect then
         && n(Gets) == 0 && n(Wakes) == 0 && n(ReadFails) == 0 && !m.IdleGet? && !m.IdleRead? && !m.IdlePut?
         && n(Heads) + n(Cuts) == n(Selects) + n(SelectFails) + One(m.Selecting?) + One(m.Returned?)
       else
         && n(Heads) + n(Cuts) == n(Gets) + One(m.IdleGet?) + One(m.Returned?)
         && n(Gets) == n(Wakes) + n(ReadFails) + One(m.IdleRead?)
         && n(Wakes) == n(Selects) + n(SelectFails) + One(m.Selecting? || (m.IdlePut? && m.ok))
  }

  /** Every selected endpoint is dialled once, every 200 starts one session, and every other status is rejected. */
  predicate Dials(m: MainPc, n: MainKind -> nat) {
    && n(Selects) == n(Got200) + n(GotOther) + n(GotNone) + One(m.Connecting?)
    && n(Got200) == n(Starts) + One(m.Starting?)
    && n(GotOther) == n(Rejects) + One(m.Rejected?)
  }

  /** Every session runs through receive, cancel, close, wait and release, in this order. */
  predicate Sessions(m: MainPc, sessions: nat, n: MainKind -> nat) {
    && sessions == n(Starts)
    && n(Starts) == n(Receives) + One(m.Waiting?)
    && n(Receives) == n(Cancels) + One(m.Cancelling?)
    && n(Cancels) == n(Closes) + One(m.Closing?)
    && n(Closes) == n(Awaits) + One(m.Awaiting?)
    && n(Awaits) == n(Releases) + One(m.Releasing?)
  }

  /** Every failure and every lost session has its one sleep, and every sleep ends in a new round or the return. */
  predicate Naps(m: MainPc, history: seq<Outcome>, n: MainKind -> nat) {
    && n(ReadFails) == multiset(history)[IdleFailed] + One(m.IdlePut? && !m.ok)
    && n(SelectFails) == multiset(history)[EndpointFailed]
    && n(GotNone) + n(Rejects) == multiset(history)[ConnectFailed]
    && n(Releases) == multiset(history)[SessionLost]
    && |history| == n(Resumes) + n(Cuts) + One(m.Sleeping?)
  }

  predicate OneMore(n: MainKind -> nat, n': MainKind -> nat, k: MainKind) {
    forall x: MainKind :: n'(x) == n(x) + One(x == k)
  }

  /** From which statement of main to which an answer leads. */
  predicate Moves(c: Config, done: bool, pc: MainPc, k: MainKind, pc': MainPc) {
    match k
    case Heads => pc.Head? && (if done then pc'.Returned? else if c.alwaysReconnect then pc'.Selecting? else pc'.IdleGet?)
    case Gets => pc.IdleGet? && pc'.IdleRead?
    case Wakes => pc.IdleRead? && pc'.IdlePut? && pc'.ok
    case ReadFails => pc.IdleRead? && pc'.IdlePut? && !pc'.ok
    case Puts => pc.IdlePut? && (if pc.ok then pc'.Selecting? else pc'.Sleeping?)
    case Selects => pc.Selecting? && pc'.Connecting?
    case SelectFails => pc.Selecting? && pc'.Sleeping?
    case Got200 => pc.Connecting? && pc'.Starting?
    case GotOther => pc.Connecting? && pc'.Rejected?
    case GotNone => pc.Connecting? && pc'.Sleeping?
    case Rejects => pc.Rejected? && pc'.Sleeping?
    case Starts => pc.Starting? && pc'.Waiting?
    case Receives => pc.Waiting? && pc'.Cancelling?
    case Cancels => pc.Cancelling? && pc'.Closing?
    case Closes => pc.Closing? && pc'.Awaiting?
    case Awaits => pc.Awaiting? && pc'.Releasing?
    case Releases => pc.Releasing? && pc'.Sleeping?
    case Resumes => pc.Sleeping? && pc'.Head?
    case Cuts => pc.Sleeping? && pc'.Returned?
  }

  /** The sleeps that begin with it. */
  function NapOf(pc: MainPc, k: MainKind): seq<Outcome> {
    match k
    case Puts => if pc.IdlePut? && !pc.ok then [IdleFailed] else []
    case SelectFails => [EndpointFailed]
    case GotNone => [ConnectFailed]
    case Rejects => [ConnectFailed]
    case Releases => [SessionLost]
    case _ => []
  }

  lemma ConnectMoves(c: Config, s: State, first: Reply, second: Reply)
    requires MainEnabled(c, s, MConnect(first, second))
    ensures var s', k := MainApply(c, s, MConnect(first, second)), KindOf(MConnect(first, second));
            Moves(c, s.ctxDone, s.main, k, s'.main) && s'.history == s.history + NapOf(s.main, k)
  {
  }

  lemma PoolMoves(c: Config, s: State, m: MainAct)
    requires MainEnabled(c, s, m) && (m.MGet? || m.MPut?)
    ensures var s' := MainApply(c, s, m);
            Moves(c, s.ctxDone, s.main, KindOf(m), s'.main) && s'.history == s.history + NapOf(s.main, KindOf(m))
  {
  }

  lemma MainMoves(c: Config, s: State, m: MainAct)
    requires MainEnabled(c, s, m)
    ensures Moves(c, s.ctxDone, s.main, KindOf(m), MainApply(c, s, m).main)
  {
    if m.MConnect? {
      ConnectMoves(c, s, m.first, m.second);
    } else if m.MGet? || m.MPut? {
      PoolMoves(c, s, m);
    }
  }

  lemma MainNaps(c: Config, s: State, m: MainAct)
    requires MainEnabled(c, s, m)
    ensures MainApply(c, s, m).history == s.history + NapOf(s.main, KindOf(m))
  {
    if m.MConnect? {
      ConnectMoves(c, s, m.first, m.second);
    } else if m.MGet? || m.MPut? {
      PoolMoves(c, s, m);
    }
  }

  lemma RoundsStep(c: Config, done: bool, pc: MainPc, k: MainKind, pc': MainPc, n: MainKind -> nat, n': MainKind -> nat)
    requires Moves(c, done, pc, k, pc') && Rounds(c, pc, n) && OneMore(n, n', k)
    ensures Rounds(c, pc', n')
  {
  }

  lemma DialsStep(c: Config, done: bool, pc: MainPc, k: MainKind, pc': MainPc, n: MainKind -> nat, n': MainKind -> nat)
    requires Moves(c, done, pc, k, pc') && Dials(pc, n) && OneMore(n, n', k)
    ensures Dials(pc', n')
  {
  }

  lemma SessionsCountStep(c: Config, done: bool, pc: MainPc, k: MainKind, pc': MainPc, sessions: nat, n: MainKind -> nat, n': MainKind -> nat)
    requires Moves(c, done, pc, k, pc') && Sessions(pc, sessions, n) && OneMore(n, n', k)
    ensures Sessions(pc', sessions + One(k.Starts?), n')
  {
  }

  lemma NapsStep(c: Config, done: bool, pc: MainPc, k: MainKind, pc': MainPc, history: seq<Outcome>, n: MainKind -> nat, n': MainKind -> nat)
    requires Moves(c, done, pc, k, pc') && Naps(pc, history, n) && OneMore(n, n', k)
    ensures Naps(pc', history + NapOf(pc, k), n')
  {
  }

  lemma StartsSessions(c: Config, s: State, m: MainAct)
    requires MainEnabled(c, s, m)
    ensures |MainApply(c, s, m).sessions| == |s.sessions| + One(m.MStart?)
  {
    if !ChangesSession(m) {
      MainLeavesSessions(c, s, m);
    }
  }

  lemma OthersLeaveMain(c: Config, s: State, a: Action)
    requires Enabled(c, s, a) && !a.Main?
    ensures var s' := Apply(c, s, a);
            s'.main == s.main && s'.history == s.history && s'.calls == s.calls && |s'.sessions| == |s.sessions|
  {
    match a
    case Out(i, o) => OutKeepsMain(c, s, i, o);
    case _ =>
  }

  /** All of it. */
  predicate Balanced(c: Config, s: State, n: MainKind -> nat) {
    Rounds(c, s.main, n) && Dials(s.main, n) && Sessions(s.main, |s.sessions|, n) && Naps(s.main, s.history, n)
  }

  lemma BalancedMove(c: Config, s: State, s': State, k: MainKind, n: MainKind -> nat, n': MainKind -> nat)
    requires Balanced(c, s, n) && OneMore(n, n', k)
    requires Moves(c, s.ctxDone, s.main, k, s'.main)
    requires s'.history == s.history + NapOf(s.main, k) && |s'.sessions| == |s.sessions| + One(k.Starts?)
    ensures Balanced(c, s', n')
  {
    RoundsStep(c, s.ctxDone, s.main, k, s'.main, n, n');
    DialsStep(c, s.ctxDone, s.main, k, s'.main, n, n');
    SessionsCountStep(c, s.ctxDone, s.main, k, s'.main, |s.sessions|, n, n');
    NapsStep(c, s.ctxDone, s.main, k, s'.main, s.history, n, n');
  }

  lemma KindOfStart(m: MainAct)
    ensures KindOf(m).Starts? <==> m.MStart?
  {
  }

  lemma BalancedStep(c: Config, s: State, m: MainAct, n: MainKind -> nat, n': MainKind -> nat)
    requires MainEnabled(c, s, m) && Balanced(c, s, n) && OneMore(n, n', KindOf(m))
    ensures Balanced(c, MainApply(c, s, m), n')
  {
    MainMoves(c, s, m);
    MainNaps(c, s, m);
    StartsSessions(c, s, m);
    KindOfStart(m);
    BalancedMove(c, s, MainApply(c, s, m), KindOf(m), n, n');
  }

  function Counts(run: seq<Action>): MainKind -> nat {
    k => MainCount(run, k)
  }

  lemma CountsSnoc(run: seq<Action>, a: Action)
    ensures if a.Main? then OneMore(Counts(run), Counts(run + [a]), KindOf(a.m))
            else forall k: MainKind :: Counts(run + [a])(k) == Counts(run)(k)
  {
    assert (run + [a])[..|run|] == run;
  }

  lemma SameCounts(c: Config, s: State, s': State, n: MainKind -> nat, n': MainKind -> nat)
    requires Balanced(c, s, n) && forall k: MainKind :: n'(k) == n(k)
    requires s'.main == s.main && s'.history == s.history && |s'.sessions| == |s.sessions|
    ensures Balanced(c, s', n')
  {
  }

  /**
   * The control flow of the main loop over every run: which statement follows which answer, by counts.
   * In particular a session is started for exactly the connects that were answered 200.
   */
  lemma {:induction false} MainFlow(c: Config, run: seq<Action>)
    requires Run(c, Initial(c), run).Some?
    ensures Balanced(c, Run(c, Initial(c), run).value, Counts(run))
    decreases |run|
  {
    if run == [] {
    } else {
      var init, a := run[..|run| - 1], run[|run| - 1];
      assert run == init + [a];
      RunSnoc(c, Initial(c), init, a);
      MainFlow(c, init);
      var s := Run(c, Initial(c), init).value;
      CountsSnoc(init, a);
      if a.Main? {
        BalancedStep(c, s, a.m, Counts(init), Counts(run));
      } else {
        OthersLeaveMain(c, s, a);
        SameCounts(c, s, Apply(c, s, a), Counts(init), Counts(run));
      }
    }
  }

  // ---- which call a session belongs to ----

  /** connectH3 calls made in a run. */
  function CallsIn(run: seq<Action>): nat {
    if run == [] then 0
    else
      var a := run[|run| - 1];
      CallsIn(run[..|run| - 1])
      + if a.Main? && a.m.MConnect? then (if a.m.first.Answered? then 1 else 2) else 0
  }

  /** Action j of the run is a connect whose call number `call` was answered with the status. */
  predicate AnsweredAt(run: seq<Action>, j: nat, call: nat, status: int)
    requires j < |run|
  {
    && run[j].Main? && run[j].m.MConnect?
    && var n := CallsIn(run[..j]);
       || (run[j].m.first == Answered(status) && call == n)
       || (!run[j].m.first.Answered? && run[j].m.second == Answered(status) && call == n + 1)
  }

  ghost predicate WasAnswered(run: seq<Action>, call: nat, status: int) {
    exists j :: 0 <= j < |run| && AnsweredAt(run, j, call, status)
  }

  ghost predicate CallsTraced(run: seq<Action>, s: State) {
    && s.calls == CallsIn(run)
    && (s.main.Starting? ==> WasAnswered(run, s.main.call, 200))
    && (s.main.Rejected? ==> exists status :: status != 200 && WasAnswered(run, s.main.call, status))
    && (forall i :: 0 <= i < |s.sessions| ==> WasAnswered(run, s.sessions[i].call, 200))
  }

  lemma AnswerStays(run: seq<Action>, a: Action, call: nat, status: int)
    requires WasAnswered(run, call, status)
    ensures WasAnswered(run + [a], call, status)
  {
    var j :| 0 <= j < |run| && AnsweredAt(run, j, call, status);
    assert (run + [a])[..j] == run[..j];
    assert AnsweredAt(run + [a], j, call, status);
  }

  lemma LastAnswered(run: seq<Action>, first: Reply, second: Reply, call: nat, status: int)
    requires || (first == Answered(status) && call == CallsIn(run))
             || (!first.Answered? && second == Answered(status) && call == CallsIn(run) + 1)
    ensures WasAnswered(run + [Main(MConnect(first, second))], call, status)
  {
    var all := run + [Main(MConnect(first, second))];
    assert all[..|run|] == run;
    assert AnsweredAt(all, |run|, call, status);
  }

  /** A connect leads to the session of its first answer when that is 200, to its rejection when it is another, and to a sleep when there is none. */
  lemma ConnectDecides(c: Config, s: State, first: Reply, second: Reply)
    requires MainEnabled(c, s, MConnect(first, second))
    ensures var s' := MainApply(c, s, MConnect(first, second));
            && s'.calls == s.calls + (if first.Answered? then 1 else 2) && s'.sessions == s.sessions
            && (s'.main.Starting? <==> first == Answered(200) || (!first.Answered? && second == Answered(200)))
            && (s'.main.Rejected? <==> (first.Answered? && first.status != 200) || (!first.Answered? && second.Answered? && second.status != 200))
            && (s'.main.Starting? || s'.main.Rejected? ==> s'.main.call == s.calls + (if first.Answered? then 0 else 1))
            && (!first.Answered? && !second.Answered? ==> s'.main == Sleeping(false))
  {
  }

  lemma ConnectTraced(c: Config, run: seq<Action>, s: State, first: Reply, second: Reply)
    requires CallsTraced(run, s) && MainEnabled(c, s, MConnect(first, second))
    ensures CallsTraced(run + [Main(MConnect(first, second))], MainApply(c, s, MConnect(first, second)))
  {
    var a := Main(MConnect(first, second));
    var s' := MainApply(c, s, MConnect(first, second));
    ConnectDecides(c, s, first, second);
    assert (run + [a])[..|run|] == run;
    forall i | 0 <= i < |s'.sessions| ensures WasAnswered(run + [a], s'.sessions[i].call, 200) {
      AnswerStays(run, a, s.sessions[i].call, 200);
    }
    if s'.main.Starting? {
      LastAnswered(run, first, second, s'.main.call, 200);
    }
    if s'.main.Rejected? {
      var status := if first.Answered? then first.status else second.status;
      LastAnswered(run, first, second, s'.main.call, status);
    }
  }

  /** What the other steps do to the calls that main and the sessions hold. */
  lemma OthersKeepCalls(c: Config, s: State, a: Action)
    requires Enabled(c, s, a) && !(a.Main? && a.m.MConnect?)
    ensures var s' := Apply(c, s, a);
            && s'.calls == s.calls
            && (s'.main.Starting? ==> s'.main == s.main) && (s'.main.Rejected? ==> s'.main == s.main)
            && |s'.sessions| >= |s.sessions|
            && (forall i :: 0 <= i < |s.sessions| ==> s'.sessions[i].call == s.sessions[i].call)
            && (forall i :: |s.sessions| <= i < |s'.sessions| ==> s.main.Starting? && s'.sessions[i].call == s.main.call)
  {
    match a
    case Out(i, o) => OutKeepsMain(c, s, i, o);
    case Main(m) => MainKeepsCalls(c, s, m);
    case _ =>
  }

  lemma MainKeepsCalls(c: Config, s: State, m: MainAct)
    requires MainEnabled(c, s, m) && !m.MConnect?
    ensures var s' := MainApply(c, s, m);
            && s'.calls == s.calls && !s'.main.Starting? && !s'.main.Rejected?
            && |s'.sessions| >= |s.sessions|
            && (forall i :: 0 <= i < |s.sessions| ==> s'.sessions[i].call == s.sessions[i].call)
            && (forall i :: |s.sessions| <= i < |s'.sessions| ==> s.main.Starting? && s'.sessions[i].call == s.main.call)
  {
    if !ChangesSession(m) {
      MainLeavesSessions(c, s, m);
    }
  }

  lemma OtherTraced(c: Config, run: seq<Action>, s: State, a: Action)
    requires CallsTraced(run, s) && Enabled(c, s, a) && !(a.Main? && a.m.MConnect?)
    ensures CallsTraced(run + [a], Apply(c, s, a))
  {
    var s' := Apply(c, s, a);
    OthersKeepCalls(c, s, a);
    assert (run + [a])[..|run|] == run;
    forall i | 0 <= i < |s'.sessions| ensures WasAnswered(run + [a], s'.sessions[i].call, 200) {
      AnswerStays(run, a, s'.sessions[i].call, 200);
    }
    if s'.main.Starting? {
      AnswerStays(run, a, s.main.call, 200);
    }
    if s'.main.Rejected? {
      var status :| status != 200 && WasAnswered(run, s.main.call, status);
      AnswerStays(run, a, s.main.call, status);
    }
  }

  lemma {:induction false} RunTraced(c: Config, run: seq<Action>)
    requires Run(c, Initial(c), run).Some?
    ensures CallsTraced(run, Run(c, Initial(c), run).value)
    decreases |run|
  {
    if run == [] {
    } else {
      var init, a := run[..|run| - 1], run[|run| - 1];
      assert run == init + [a];
      RunSnoc(c, Initial(c), init, a);
      RunTraced(c, init);
      var s := Run(c, Initial(c), init).value;
      if a.Main? && a.m.MConnect? {
        ConnectTraced(c, init, s, a.m.first, a.m.second);
      } else {
        OtherTraced(c, init, s, a);
      }
    }
  }

  /** Every session of every run belongs to a call that was answered 200, and what main rejects to one that was not. */
  lemma SessionsWereAnswered200(c: Config, run: seq<Action>, i: nat)
    requires Run(c, Initial(c), run).Some?
    ensures var s := Run(c, Initial(c), run).value;
            && (i < |s.sessions| ==> WasAnswered(run, s.sessions[i].call, 200))
            && (s.main.Rejected? ==> exists status :: status != 200 && WasAnswered(run, s.main.call, status))
  {
    RunTraced(c, run);
  }

  // ---- return and progress ----

  /** MaintainTunnel returns only after its context was cancelled. */
  lemma {:induction false} ReturnsOnlyCancelled(c: Config, run: seq<Action>)
    requires Run(c, Initial(c), run).Some?
    ensures Run(c, Initial(c), run).value.main.Returned? ==> CancelContext in run
    ensures Run(c, Initial(c), run).value.ctxDone <==> CancelContext in run
    decreases |run|
  {
    if run == [] {
    } else {
      var init, a := run[..|run| - 1], run[|run| - 1];
      assert run == init + [a];
      RunSnoc(c, Initial(c), init, a);
      ReturnsOnlyCancelled(c, init);
      ContextStep(c, Run(c, Initial(c), init).value, a);
    }
  }

  lemma ContextStep(c: Config, s: State, a: Action)
    requires Enabled(c, s, a)
    ensures Apply(c, s, a).ctxDone <==> s.ctxDone || a.CancelContext?
    ensures Apply(c, s, a).main.Returned? ==> s.main.Returned? || s.ctxDone
  {
    match a
    case Main(m) =>
      MainMoves(c, s, m);
      MainKeepsContext(c, s, m);
    case Out(i, o) => OutFrame(c, s, i, o);
    case _ =>
  }

  lemma MainKeepsContext(c: Config, s: State, m: MainAct)
    requires MainEnabled(c, s, m)
    ensures MainApply(c, s, m).ctxDone == s.ctxDone
    ensures MainApply(c, s, m).main.Returned? ==> s.ctxDone
  {
    if !ChangesSession(m) {
      MainLeavesSessions(c, s, m);
    }
  }

  /** The next statement of main, with the answers of the environment. */
  function NextOfMain(s: State, read: Option<Packet>, ok: bool, first: Reply, second: Reply): MainAct
    requires !s.main.Returned?
  {
    match s.main
    case Head => MHead
    case IdleGet => MGet(None)
    case IdleRead(_) => if read.Some? then MRead(read.value) else MReadError
    case IdlePut(_, _) => MPut
    case Selecting => MSelect(ok)
    case Connecting => MConnect(first, second)
    case Rejected(_) => MReject
    case Starting(_) => MStart
    case Waiting => MReceive
    case Cancelling => MCancel
    case Closing => MClose
    case Awaiting => MAwait(true)
    case Releasing => MRelease
    case Sleeping(_) => MWake(s.ctxDone)
  }

  lemma MainHasWhatItNeeds(c: Config, s: State)
    requires Reachable(c, s)
    ensures s.main.IdleRead? ==> s.main.buf < |s.mem| && |s.mem[s.main.buf]| == c.mtu + HEADROOM
    ensures Current(s.main) ==> s.sessions != []
  {
    InvReachable(c, s);
    assert s.main.IdleRead? ==> MainHolds(s.main) == Some(s.main.buf);
  }

  lemma NextIsEnabled(c: Config, s: State, read: Option<Packet>, ok: bool, first: Reply, second: Reply)
    requires !s.main.Returned? && (read.Some? ==> |read.value| <= c.mtu)
    requires s.main.IdleRead? ==> s.main.buf < |s.mem| && |s.mem[s.main.buf]| == c.mtu + HEADROOM
    requires Current(s.main) ==> s.sessions != []
    ensures MainEnabled(c, s, NextOfMain(s, read, ok, first, second))
       <==> !(s.main.Waiting? && s.sessions[|s.sessions| - 1].errCh == [])
  {
  }

  /** Whatever the environment answers, main can take its next statement, unless it waits at an empty channel. */
  lemma MainStuckOnlyAtReceive(c: Config, s: State, read: Option<Packet>, ok: bool, first: Reply, second: Reply)
    requires Reachable(c, s) && !s.main.Returned?
    requires read.Some? ==> |read.value| <= c.mtu
    ensures s.main.Waiting? ==> s.sessions != []
    ensures MainEnabled(c, s, NextOfMain(s, read, ok, first, second))
       <==> !(s.main.Waiting? && s.sessions[|s.sessions| - 1].errCh == [])
  {
    MainHasWhatItNeeds(c, s);
    NextIsEnabled(c, s, read, ok, first, second);
  }
}
