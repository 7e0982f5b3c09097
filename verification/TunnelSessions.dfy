// Which sessions are alive, what their error channels hold, and how a cancelled pump winds down.
module TunnelSessions {
  import opened Basics
  import opened Tunnel

  /** Main has a running session: it is at one of the statements from <-errCh to closeResult. */
  predicate Current(m: MainPc) {
    m.Waiting? || m.Cancelling? || m.Closing? || m.Awaiting? || m.Releasing?
  }

  function OutReports(out: OutPc): nat {
    if out == Exited(true) then 1 else 0
  }

  function InReports(inb: InPc): nat {
    if inb.Ended? then 1 else 0
  }

  /** Every report a pump has sent is in the channel or was taken, and a silent exit follows a cancellation. */
  predicate ChannelOk(s: State, e: Session) {
    && |e.errCh| + e.taken == OutReports(e.out) + InReports(e.inb)
    && (e.out == Exited(false) || e.out.Discarding? ==> PumpCancelled(s, e))
  }

  predicate FlagsOk(m: MainPc, e: Session, last: bool) {
    if last && Current(m) then
      && e.cancelled == (m.Closing? || m.Awaiting? || m.Releasing?)
      && e.closed == (m.Awaiting? || m.Releasing?)
      && e.taken == (if m.Waiting? then 0 else 1)
    else
      e.cancelled && e.closed && e.taken == 1
  }

  ghost predicate SessionsInv(s: State) {
    && (Current(s.main) ==> s.sessions != [])
    && forall i :: 0 <= i < |s.sessions| ==>
         ChannelOk(s, s.sessions[i]) && FlagsOk(s.main, s.sessions[i], i == |s.sessions| - 1)
  }

  lemma SessionsStart(c: Config)
    ensures SessionsInv(Initial(c))
  {
  }

  lemma SessionsStep(c: Config, s: State, a: Action)
    requires SessionsInv(s) && Enabled(c, s, a)
    ensures SessionsInv(Apply(c, s, a))
  {
    match a
    case Main(m) => SessionsMainStep(c, s, m);
    case Out(i, o) => SessionsOutStep(c, s, i, o);
    case In(i, n) => SessionsInStep(s, i, n);
    case _ =>
      assert forall j :: 0 <= j < |s.sessions| ==> Apply(c, s, a).sessions[j] == s.sessions[j];
  }

  lemma SessionsInStep(s: State, i: nat, n: InAct)
    requires SessionsInv(s) && InEnabled(s, i, n)
    ensures SessionsInv(InApply(s, i, n))
  {
    var s' := InApply(s, i, n);
    assert forall j :: 0 <= j < |s.sessions| && j != i ==> s'.sessions[j] == s.sessions[j];
  }

  predicate ChangesSession(m: MainAct) {
    m.MStart? || m.MReceive? || m.MCancel? || m.MClose?
  }

  /** The other steps of main leave the sessions alone. */
  lemma MainLeavesSessions(c: Config, s: State, m: MainAct)
    requires MainEnabled(c, s, m) && !ChangesSession(m)
    ensures MainApply(c, s, m).sessions == s.sessions && MainApply(c, s, m).ctxDone == s.ctxDone
  {
    if m.MGet? || m.MPut? {
      PoolLeavesSessions(c, s, m);
    }
  }

  lemma PoolLeavesSessions(c: Config, s: State, m: MainAct)
    requires MainEnabled(c, s, m) && (m.MGet? || m.MPut?)
    ensures MainApply(c, s, m).sessions == s.sessions && MainApply(c, s, m).ctxDone == s.ctxDone
    ensures !Current(s.main) && !Current(MainApply(c, s, m).main)
  {
  }

  /** They stay among the statements of a session or outside them, but for its last one. */
  lemma MainStaysAround(c: Config, s: State, m: MainAct)
    requires MainEnabled(c, s, m) && !ChangesSession(m)
    ensures var pc, pc' := s.main, MainApply(c, s, m).main;
            && (Current(pc') ==> pc.Awaiting? && pc'.Releasing?)
            && (Current(pc) && !Current(pc') ==> pc.Releasing?)
  {
    if m.MGet? || m.MPut? {
      PoolLeavesSessions(c, s, m);
    }
  }

  lemma SessionsStartStep(c: Config, s: State)
    requires SessionsInv(s) && MainEnabled(c, s, MStart)
    ensures SessionsInv(MainApply(c, s, MStart))
  {
    assert forall j :: 0 <= j < |s.sessions| ==> MainApply(c, s, MStart).sessions[j] == s.sessions[j];
  }

  lemma SessionsReceiveStep(c: Config, s: State)
    requires SessionsInv(s) && MainEnabled(c, s, MReceive)
    ensures SessionsInv(MainApply(c, s, MReceive))
  {
    assert forall j :: 0 <= j < |s.sessions| - 1 ==> MainApply(c, s, MReceive).sessions[j] == s.sessions[j];
  }

  lemma SessionsMainStep(c: Config, s: State, m: MainAct)
    requires SessionsInv(s) && MainEnabled(c, s, m)
    ensures SessionsInv(MainApply(c, s, m))
  {
    if !ChangesSession(m) {
      MainLeavesSessions(c, s, m);
      MainStaysAround(c, s, m);
    } else if m.MStart? {
      SessionsStartStep(c, s);
    } else if m.MReceive? {
      SessionsReceiveStep(c, s);
    } else {
      assert forall j :: 0 <= j < |s.sessions| - 1 ==> MainApply(c, s, m).sessions[j] == s.sessions[j];
    }
  }

  /** A report is in the channel from the step in which the pump exits. */
  lemma OutChannelCount(c: Config, s: State, i: nat, o: OutAct)
    requires OutEnabled(c, s, i, o)
    ensures var e, e' := s.sessions[i], OutApply(c, s, i, o).sessions[i];
            |e'.errCh| - OutReports(e'.out) == |e.errCh| - OutReports(e.out)
  {
    match o
    case OGet(pick) =>
    case _ =>
  }

  lemma OutChannel(c: Config, s: State, i: nat, o: OutAct)
    requires OutEnabled(c, s, i, o) && ChannelOk(s, s.sessions[i])
    ensures ChannelOk(OutApply(c, s, i, o), OutApply(c, s, i, o).sessions[i])
  {
    OutFrame(c, s, i, o);
    OutChannelCount(c, s, i, o);
    match o
    case OGet(pick) =>
    case _ =>
  }

  lemma SessionsOutStep(c: Config, s: State, i: nat, o: OutAct)
    requires SessionsInv(s) && OutEnabled(c, s, i, o)
    ensures SessionsInv(OutApply(c, s, i, o))
  {
    OutFrame(c, s, i, o);
    OutChannel(c, s, i, o);
  }

  // ---- wind-down of a cancelled session ----

  /** Reads or writes that an outbound pump can still complete once it is cancelled. */
  function Budget(out: OutPc): nat {
    match out
    case Getting => 1
    case Reading(_) => 1
    case Passed(_, _, _) => 1
    case Writing(_, _) => 1
    case _ => 0
  }

  /** Steps that an outbound pump can still take once it is cancelled. */
  function OutRank(out: OutPc): nat {
    match out
    case Checking => 1
    case Getting => 4
    case Reading(_) => 3
    case Unread(_) => 2
    case Fetched(_, _, _) => 2
    case Discarding(_) => 1
    case Passed(_, _, _) => 5
    case Writing(_, _) => 4
    case Written(_, _) => 3
    case Echoing => 2
    case Sending(_) => 1
    case Exited(_) => 0
  }

  /** Steps that an inbound pump can still take once its connection is closed. */
  function InRank(inb: InPc): nat {
    match inb
    case Receiving => 2
    case Delivering => 3
    case Reporting(_) => 1
    case Ended => 0
  }

  predicate CompletesRead(a: Action, i: nat) {
    a.Out? && a.i == i && (a.o.ORead? || a.o.OReadError?)
  }

  predicate CompletesWrite(a: Action, i: nat) {
    a.Out? && a.i == i && a.o.OReturn?
  }

  predicate Delivers(a: Action, i: nat) {
    a.In? && a.i == i && a.n.IDeliver?
  }

  predicate StepOfOut(a: Action, i: nat) {
    a.Out? && a.i == i
  }

  predicate StepOfIn(a: Action, i: nat) {
    a.In? && a.i == i
  }

  /** Completed reads and writes of outbound pump i in a run. */
  function Completions(run: seq<Action>, i: nat): nat {
    if run == [] then 0
    else One(CompletesRead(run[0], i)) + One(CompletesWrite(run[0], i)) + Completions(run[1..], i)
  }

  function OutSteps(run: seq<Action>, i: nat): nat {
    if run == [] then 0 else One(StepOfOut(run[0], i)) + OutSteps(run[1..], i)
  }

  function Deliveries(run: seq<Action>, i: nat): nat {
    if run == [] then 0 else One(Delivers(run[0], i)) + Deliveries(run[1..], i)
  }

  function InSteps(run: seq<Action>, i: nat): nat {
    if run == [] then 0 else One(StepOfIn(run[0], i)) + InSteps(run[1..], i)
  }

  lemma MainPersists(c: Config, s: State, m: MainAct, i: nat)
    requires i < |s.sessions| && MainEnabled(c, s, m)
    ensures var s' := MainApply(c, s, m);
            && i < |s'.sessions|
            && (s.sessions[i].cancelled ==> s'.sessions[i].cancelled)
            && (s.sessions[i].closed ==> s'.sessions[i].closed)
            && s'.sessions[i].out == s.sessions[i].out && s'.sessions[i].inb == s.sessions[i].inb
            && s'.ctxDone == s.ctxDone
  {
    if !ChangesSession(m) {
      MainLeavesSessions(c, s, m);
    }
  }

  lemma SessionsPersist(c: Config, s: State, a: Action, i: nat)
    requires i < |s.sessions| && Enabled(c, s, a)
    ensures var s' := Apply(c, s, a);
            && i < |s'.sessions|
            && (s.sessions[i].cancelled ==> s'.sessions[i].cancelled)
            && (s.sessions[i].closed ==> s'.sessions[i].closed)
            && (!StepOfOut(a, i) ==> s'.sessions[i].out == s.sessions[i].out)
            && (!StepOfIn(a, i) ==> s'.sessions[i].inb == s.sessions[i].inb)
            && (s.ctxDone ==> s'.ctxDone)
  {
    match a
    case Main(m) => MainPersists(c, s, m, i);
    case Out(j, o) => OutFrame(c, s, j, o);
    case In(j, n) =>
    case _ =>
  }

  lemma GetRank(c: Config, s: State, i: nat, pick: Option<BufId>)
    requires OutEnabled(c, s, i, OGet(pick))
    ensures var out, out' := s.sessions[i].out, OutApply(c, s, i, OGet(pick)).sessions[i].out;
            OutRank(out') < OutRank(out) && Budget(out') <= Budget(out)
  {
  }

  lemma PutRank(c: Config, s: State, i: nat, o: OutAct)
    requires OutEnabled(c, s, i, o) && (o.OPutUnread? || o.ODiscard? || o.OPut?)
    ensures var out, out' := s.sessions[i].out, OutApply(c, s, i, o).sessions[i].out;
            OutRank(out') < OutRank(out) && Budget(out') <= Budget(out)
  {
  }

  lemma CancelledOutStep(c: Config, s: State, i: nat, o: OutAct)
    requires OutEnabled(c, s, i, o) && (s.sessions[i].cancelled || s.ctxDone)
    ensures var out, out' := s.sessions[i].out, OutApply(c, s, i, o).sessions[i].out;
            && OutRank(out') < OutRank(out)
            && Budget(out') + One(o.ORead? || o.OReadError?) + One(o.OReturn?) <= Budget(out)
  {
    if o.OGet? {
      GetRank(c, s, i, o.pick);
    } else if o.OPutUnread? || o.ODiscard? || o.OPut? {
      PutRank(c, s, i, o);
    }
  }

  lemma ClosedInStep(s: State, i: nat, n: InAct)
    requires InEnabled(s, i, n) && s.sessions[i].closed
    ensures var inb, inb' := s.sessions[i].inb, InApply(s, i, n).sessions[i].inb;
            && InRank(inb') < InRank(inb)
            && One(inb'.Delivering?) + One(n.IDeliver?) <= One(inb.Delivering?)
  {
  }

  /**
   * After cancelPumps or a cancellation of the context, whatever else happens: the outbound pump completes at most one more
   * Device.Read or one more WritePacketBuffer, never both, and takes at most five more steps.
   */
  lemma {:induction false} OutboundShutdown(c: Config, s: State, run: seq<Action>, i: nat)
    requires i < |s.sessions| && (s.sessions[i].cancelled || s.ctxDone)
    requires Run(c, s, run).Some?
    ensures Completions(run, i) <= Budget(s.sessions[i].out) <= 1
    ensures OutSteps(run, i) <= OutRank(s.sessions[i].out) <= 5
    decreases |run|
  {
    if run == [] {
    } else {
      var s' := Apply(c, s, run[0]);
      SessionsPersist(c, s, run[0], i);
      OutboundShutdown(c, s', run[1..], i);
      if StepOfOut(run[0], i) {
        CancelledOutStep(c, s, i, run[0].o);
      }
    }
  }

  /** After IPConn.Close the inbound pump writes at most one more packet and takes at most three more steps. */
  lemma {:induction false} InboundShutdown(c: Config, s: State, run: seq<Action>, i: nat)
    requires i < |s.sessions| && s.sessions[i].closed
    requires Run(c, s, run).Some?
    ensures Deliveries(run, i) <= One(s.sessions[i].inb.Delivering?) <= 1
    ensures InSteps(run, i) <= InRank(s.sessions[i].inb) <= 3
    decreases |run|
  {
    if run == [] {
    } else {
      var s' := Apply(c, s, run[0]);
      SessionsPersist(c, s, run[0], i);
      InboundShutdown(c, s', run[1..], i);
      if StepOfIn(run[0], i) {
        ClosedInStep(s, i, run[0].n);
      }
    }
  }
}
