// The statements of the two pumps of a session, counted over whole runs: what stops a pump, and that a
// soft failure does not.
module TunnelPumps {
  import opened Basics
  import opened Connect
  import opened Tunnel
  import opened TunnelSessions
  import opened TunnelTheorems
  import opened TunnelFlow

  /** The statements of an outbound pump, told apart by what it is answered. */
  datatype OutKind =
    | Checks | Gets | Reads | ReadFails | PutUnreads | Rechecks | Discards | Calls
    | SentPlain | SentIcmp | SoftFails | ClosedFails
    | Puts | Echoes | Sends

  function KindOfOut(o: OutAct): OutKind {
    match o
    case OCheck => Checks
    case OGet(_) => OutKind.Gets
    case ORead(_) => Reads
    case OReadError => OutKind.ReadFails
    case OPutUnread => PutUnreads
    case ORecheck => Rechecks
    case ODiscard => Discards
    case OCall => OutKind.Calls
    case OReturn(r) =>
      (match r
       case Sent(icmp) => if icmp then SentIcmp else SentPlain
       case SoftFailure => SoftFails
       case ConnClosed => ClosedFails)
    case OPut => OutKind.Puts
    case OEcho => Echoes
    case OSend => Sends
  }

  /** From which statement of an outbound pump to which an answer leads; stopped: its context is cancelled. */
  predicate OutMoves(stopped: bool, out: OutPc, k: OutKind, out': OutPc) {
    match k
    case Checks => out.Checking? && (if stopped then out' == Exited(false) else out'.Getting?)
    case Gets => out.Getting? && out'.Reading?
    case Reads => out.Reading? && out'.Fetched?
    case ReadFails => out.Reading? && out'.Unread?
    case PutUnreads => out.Unread? && out' == Sending(TunReadError)
    case Rechecks => out.Fetched? && (if stopped then out'.Discarding? else out'.Passed?)
    case Discards => out.Discarding? && out' == Exited(false)
    case Calls => out.Passed? && out'.Writing?
    case SentPlain => out.Writing? && out'.Written? && out'.result == Sent(false)
    case SentIcmp => out.Writing? && out'.Written? && out'.result == Sent(true)
    case SoftFails => out.Writing? && out'.Written? && out'.result == SoftFailure
    case ClosedFails => out.Writing? && out'.Written? && out'.result == ConnClosed
    case Puts =>
      out.Written? && (if out.result == ConnClosed then out' == Sending(MasqueWriteClosed)
                       else if out.result == Sent(true) then out'.Echoing? else out'.Checking?)
    case Echoes => out.Echoing? && out'.Checking?
    case Sends => out.Sending? && out' == Exited(true)
  }

  lemma GetMoves(c: Config, s: State, i: nat, pick: Option<BufId>)
    requires OutEnabled(c, s, i, OGet(pick))
    ensures var e' := OutApply(c, s, i, OGet(pick)).sessions[i];
            OutMoves(s.ctxDone || s.sessions[i].cancelled, s.sessions[i].out, OutKind.Gets, e'.out) && e'.errCh == s.sessions[i].errCh
  {
  }

  lemma PutMoves(c: Config, s: State, i: nat)
    requires OutEnabled(c, s, i, OPut)
    ensures var e' := OutApply(c, s, i, OPut).sessions[i];
            OutMoves(s.ctxDone || s.sessions[i].cancelled, s.sessions[i].out, OutKind.Puts, e'.out) && e'.errCh == s.sessions[i].errCh
  {
  }

  lemma OutStepMoves(c: Config, s: State, i: nat, o: OutAct)
    requires OutEnabled(c, s, i, o)
    ensures OutMoves(s.ctxDone || s.sessions[i].cancelled, s.sessions[i].out, KindOfOut(o), OutApply(c, s, i, o).sessions[i].out)
  {
    match o
    case OGet(pick) => GetMoves(c, s, i, pick);
    case OPut => PutMoves(c, s, i);
    case _ =>
  }

  function OutCount(run: seq<Action>, i: nat, k: OutKind): nat {
    if run == [] then 0
    else
      var a := run[|run| - 1];
      OutCount(run[..|run| - 1], i, k) + One(a.Out? && a.i == i && KindOfOut(a.o) == k)
  }

  predicate Finished(out: OutPc, r: WriteResult) {
    out.Written? && out.result == r
  }

  /** Reads, and what becomes of them up to the call of WritePacketBuffer. */
  predicate OutReads(out: OutPc, n: OutKind -> nat) {
    && n(OutKind.Gets) == n(Reads) + n(OutKind.ReadFails) + One(out.Reading?)
    && n(OutKind.ReadFails) == n(PutUnreads) + One(out.Unread?)
    && n(Reads) == n(Rechecks) + One(out.Fetched?)
    && n(Rechecks) == n(OutKind.Calls) + n(Discards) + One(out.Passed?) + One(out.Discarding?)
  }

  /**
   * Writes: an ICMP reply is echoed once; a failed read and a closed connection are reported once and
   * end the pump; a soft failure is neither, and the pump goes on.
   */
  predicate OutWrites(out: OutPc, n: OutKind -> nat) {
    WritesReturn(out, n) && WritesFollowed(out, n)
  }

  predicate WritesReturn(out: OutPc, n: OutKind -> nat) {
    && n(OutKind.Calls) == n(SentPlain) + n(SentIcmp) + n(SoftFails) + n(ClosedFails) + One(out.Writing?)
    && n(SentPlain) + n(SentIcmp) + n(SoftFails) + n(ClosedFails) == n(OutKind.Puts) + One(out.Written?)
  }

  predicate WritesFollowed(out: OutPc, n: OutKind -> nat) {
    && n(SentIcmp) == n(Echoes) + One(out.Echoing?) + One(Finished(out, Sent(true)))
    && n(PutUnreads) + n(ClosedFails) == n(Sends) + One(out.Sending?) + One(Finished(out, ConnClosed))
  }

  /** Rounds: a pump starts a round at the beginning and after every write but one on a closed connection. */
  predicate OutRounds(out: OutPc, n: OutKind -> nat) {
    && 1 + n(SentPlain) + n(SentIcmp) + n(SoftFails)
         == n(Checks) + One(out.Checking?) + One(out.Echoing?) + One(out.Written? && out.result != ConnClosed)
    && n(Checks) + n(Discards) == n(OutKind.Gets) + One(out.Getting?) + One(out == Exited(false))
    && n(Sends) == One(out == Exited(true))
    && n(Discards) <= One(out == Exited(false))
  }

  predicate OneMoreOut(n: OutKind -> nat, n': OutKind -> nat, k: OutKind) {
    forall x: OutKind :: n'(x) == n(x) + One(x == k)
  }

  lemma OutReadsStep(stopped: bool, out: OutPc, k: OutKind, out': OutPc, n: OutKind -> nat, n': OutKind -> nat)
    requires OutMoves(stopped, out, k, out') && OutReads(out, n) && OneMoreOut(n, n', k)
    ensures OutReads(out', n')
  {
  }

  lemma WritesReturnStep(stopped: bool, out: OutPc, k: OutKind, out': OutPc, n: OutKind -> nat, n': OutKind -> nat)
    requires OutMoves(stopped, out, k, out') && WritesReturn(out, n) && OneMoreOut(n, n', k)
    ensures WritesReturn(out', n')
  {
  }

  lemma WritesFollowedStep(stopped: bool, out: OutPc, k: OutKind, out': OutPc, n: OutKind -> nat, n': OutKind -> nat)
    requires OutMoves(stopped, out, k, out') && WritesFollowed(out, n) && OneMoreOut(n, n', k)
    ensures WritesFollowed(out', n')
  {
  }

  lemma OutWritesStep(stopped: bool, out: OutPc, k: OutKind, out': OutPc, n: OutKind -> nat, n': OutKind -> nat)
    requires OutMoves(stopped, out, k, out') && OutWrites(out, n) && OneMoreOut(n, n', k)
    ensures OutWrites(out', n')
  {
    WritesReturnStep(stopped, out, k, out', n, n');
    WritesFollowedStep(stopped, out, k, out', n, n');
  }

  lemma OutRoundsStep(stopped: bool, out: OutPc, k: OutKind, out': OutPc, n: OutKind -> nat, n': OutKind -> nat)
    requires OutMoves(stopped, out, k, out') && OutRounds(out, n) && OneMoreOut(n, n', k)
    ensures OutRounds(out', n')
  {
  }

  predicate OutBalanced(out: OutPc, n: OutKind -> nat) {
    OutReads(out, n) && OutWrites(out, n) && OutRounds(out, n)
  }

  lemma OutBalancedStep(stopped: bool, out: OutPc, k: OutKind, out': OutPc, n: OutKind -> nat, n': OutKind -> nat)
    requires OutMoves(stopped, out, k, out') && OutBalanced(out, n) && OneMoreOut(n, n', k)
    ensures OutBalanced(out', n')
  {
    OutReadsStep(stopped, out, k, out', n, n');
    OutWritesStep(stopped, out, k, out', n, n');
    OutRoundsStep(stopped, out, k, out', n, n');
  }

  function OutCounts(run: seq<Action>, i: nat): OutKind -> nat {
    k => OutCount(run, i, k)
  }

  // ---- inbound pumps ----

  datatype InKind = Packets | SoftReads | ClosedReads | Delivered | Undelivered | Reports

  function KindOfIn(n: InAct): InKind {
    match n
    case IPacket => Packets
    case ISoftError => SoftReads
    case IClosed => ClosedReads
    case IDeliver(ok) => if ok then Delivered else Undelivered
    case ISend => Reports
  }

  function InCount(run: seq<Action>, i: nat, k: InKind): nat {
    if run == [] then 0
    else
      var a := run[|run| - 1];
      InCount(run[..|run| - 1], i, k) + One(a.In? && a.i == i && KindOfIn(a.n) == k)
  }

  /**
   * Every packet from the connection is written to the TUN once; the pump ends, with one report, after
   * a closed connection or a failed TUN write, and not after a soft read error.
   */
  predicate InBalanced(inb: InPc, n: InKind -> nat) {
    && n(Packets) == n(Delivered) + n(Undelivered) + One(inb.Delivering?)
    && n(ClosedReads) + n(Undelivered) == n(Reports) + One(inb.Reporting?)
    && n(Reports) == One(inb.Ended?)
  }

  predicate OneMoreIn(n: InKind -> nat, n': InKind -> nat, k: InKind) {
    forall x: InKind :: n'(x) == n(x) + One(x == k)
  }

  lemma InBalancedStep(s: State, i: nat, a: InAct, n: InKind -> nat, n': InKind -> nat)
    requires InEnabled(s, i, a) && InBalanced(s.sessions[i].inb, n) && OneMoreIn(n, n', KindOfIn(a))
    ensures InBalanced(InApply(s, i, a).sessions[i].inb, n')
  {
  }

  function InCounts(run: seq<Action>, i: nat): InKind -> nat {
    k => InCount(run, i, k)
  }

  // ---- over a run ----

  /** The pumps of session i, or no action of theirs while there is no such session. */
  predicate PumpsBalanced(run: seq<Action>, s: State, i: nat) {
    if i < |s.sessions| then OutBalanced(s.sessions[i].out, OutCounts(run, i)) && InBalanced(s.sessions[i].inb, InCounts(run, i))
    else (forall k: OutKind :: OutCount(run, i, k) == 0) && (forall k: InKind :: InCount(run, i, k) == 0)
  }

  lemma SamePumps(out: OutPc, inb: InPc, n: OutKind -> nat, n': OutKind -> nat, m: InKind -> nat, m': InKind -> nat)
    requires OutBalanced(out, n) && forall k: OutKind :: n'(k) == n(k)
    requires InBalanced(inb, m) && forall k: InKind :: m'(k) == m(k)
    ensures OutBalanced(out, n') && InBalanced(inb, m')
  {
  }

  lemma CountsOfOthers(run: seq<Action>, a: Action, i: nat)
    ensures !StepOfOut(a, i) ==> forall k: OutKind :: OutCount(run + [a], i, k) == OutCount(run, i, k)
    ensures !StepOfIn(a, i) ==> forall k: InKind :: InCount(run + [a], i, k) == InCount(run, i, k)
    ensures StepOfOut(a, i) ==> OneMoreOut(OutCounts(run, i), OutCounts(run + [a], i), KindOfOut(a.o))
    ensures StepOfIn(a, i) ==> OneMoreIn(InCounts(run, i), InCounts(run + [a], i), KindOfIn(a.n))
  {
    assert (run + [a])[..|run|] == run;
  }

  lemma OutPumpStep(c: Config, run: seq<Action>, s: State, i: nat, o: OutAct)
    requires OutEnabled(c, s, i, o) && PumpsBalanced(run, s, i)
    ensures PumpsBalanced(run + [Out(i, o)], OutApply(c, s, i, o), i)
  {
    var a, s' := Out(i, o), OutApply(c, s, i, o);
    OutFrame(c, s, i, o);
    OutStepMoves(c, s, i, o);
    CountsOfOthers(run, a, i);
    OutBalancedStep(s.ctxDone || s.sessions[i].cancelled, s.sessions[i].out, KindOfOut(o), s'.sessions[i].out,
                    OutCounts(run, i), OutCounts(run + [a], i));
    InSame(s.sessions[i].inb, InCounts(run, i), InCounts(run + [a], i));
  }

  lemma InSame(inb: InPc, m: InKind -> nat, m': InKind -> nat)
    requires InBalanced(inb, m) && forall k: InKind :: m'(k) == m(k)
    ensures InBalanced(inb, m')
  {
  }

  lemma OutSame(out: OutPc, n: OutKind -> nat, n': OutKind -> nat)
    requires OutBalanced(out, n) && forall k: OutKind :: n'(k) == n(k)
    ensures OutBalanced(out, n')
  {
  }

  lemma InPumpStep(run: seq<Action>, s: State, i: nat, a: InAct)
    requires InEnabled(s, i, a) && PumpsBalanced(run, s, i)
    ensures PumpsBalanced(run + [In(i, a)], InApply(s, i, a), i)
  {
    CountsOfOthers(run, In(i, a), i);
    InBalancedStep(s, i, a, InCounts(run, i), InCounts(run + [In(i, a)], i));
    OutSame(s.sessions[i].out, OutCounts(run, i), OutCounts(run + [In(i, a)], i));
  }

  lemma NewPumps(n: OutKind -> nat, m: InKind -> nat)
    requires (forall k: OutKind :: n(k) == 0) && (forall k: InKind :: m(k) == 0)
    ensures OutBalanced(Checking, n) && InBalanced(Receiving, m)
  {
  }

  /** A step that is not of these pumps moves neither; main may start them. */
  lemma ForeignStep(c: Config, s: State, a: Action, i: nat)
    requires Enabled(c, s, a) && !StepOfOut(a, i) && !StepOfIn(a, i)
    ensures var s' := Apply(c, s, a);
            && |s'.sessions| >= |s.sessions|
            && (i < |s.sessions| ==> s'.sessions[i].out == s.sessions[i].out && s'.sessions[i].inb == s.sessions[i].inb)
            && (|s.sessions| <= i < |s'.sessions| ==> s'.sessions[i].out == Checking && s'.sessions[i].inb == Receiving)
  {
    if i < |s.sessions| {
      SessionsPersist(c, s, a, i);
    }
    match a
    case Main(m) => MainAddsFresh(c, s, m);
    case Out(j, o) => OutFrame(c, s, j, o);
    case _ =>
  }

  lemma MainAddsFresh(c: Config, s: State, m: MainAct)
    requires MainEnabled(c, s, m)
    ensures var s' := MainApply(c, s, m);
            && |s'.sessions| >= |s.sessions|
            && forall j :: |s.sessions| <= j < |s'.sessions| ==> s'.sessions[j].out == Checking && s'.sessions[j].inb == Receiving
  {
    if !ChangesSession(m) {
      MainLeavesSessions(c, s, m);
    }
  }

  lemma PumpsStep(c: Config, run: seq<Action>, s: State, a: Action, i: nat)
    requires Enabled(c, s, a) && PumpsBalanced(run, s, i)
    ensures PumpsBalanced(run + [a], Apply(c, s, a), i)
  {
    if StepOfOut(a, i) {
      OutPumpStep(c, run, s, i, a.o);
    } else if StepOfIn(a, i) {
      InPumpStep(run, s, i, a.n);
    } else {
      var s' := Apply(c, s, a);
      ForeignStep(c, s, a, i);
      CountsOfOthers(run, a, i);
      if i < |s.sessions| {
        SamePumps(s.sessions[i].out, s.sessions[i].inb, OutCounts(run, i), OutCounts(run + [a], i), InCounts(run, i), InCounts(run + [a], i));
      } else if i < |s'.sessions| {
        NewPumps(OutCounts(run + [a], i), InCounts(run + [a], i));
      }
    }
  }

  /** The control flow of both pumps of every session over every run. */
  lemma {:induction false} PumpFlow(c: Config, run: seq<Action>, i: nat)
    requires Run(c, Initial(c), run).Some?
    ensures PumpsBalanced(run, Run(c, Initial(c), run).value, i)
    decreases |run|
  {
    if run == [] {
    } else {
      var init, a := run[..|run| - 1], run[|run| - 1];
      assert run == init + [a];
      RunSnoc(c, Initial(c), init, a);
      PumpFlow(c, init, i);
      PumpsStep(c, init, Run(c, Initial(c), init).value, a, i);
    }
  }

  // ---- reports ----

  /** What must have happened for a pump of session i to report the error. */
  predicate CauseOf(run: seq<Action>, i: nat, e: PumpError) {
    match e
    case TunReadError => Out(i, OReadError) in run
    case MasqueWriteClosed => Out(i, OReturn(ConnClosed)) in run
    case MasqueReadClosed => In(i, IClosed) in run
    case TunWriteError => In(i, IDeliver(false)) in run
  }

  ghost predicate Caused(run: seq<Action>, i: nat, e: Session) {
    && (e.out.Unread? ==> CauseOf(run, i, TunReadError))
    && (Finished(e.out, ConnClosed) ==> CauseOf(run, i, MasqueWriteClosed))
    && (e.out.Sending? ==> CauseOf(run, i, e.out.error))
    && (e.inb.Reporting? ==> CauseOf(run, i, e.inb.error))
    && (forall x :: 0 <= x < |e.errCh| ==> CauseOf(run, i, e.errCh[x]))
  }

  lemma CausesStay(run: seq<Action>, a: Action, i: nat, e: Session)
    requires Caused(run, i, e)
    ensures Caused(run + [a], i, e)
  {
  }

  lemma CausedByOut(c: Config, run: seq<Action>, s: State, i: nat, o: OutAct)
    requires OutEnabled(c, s, i, o) && Caused(run, i, s.sessions[i])
    ensures Caused(run + [Out(i, o)], i, OutApply(c, s, i, o).sessions[i])
  {
    var e' := OutApply(c, s, i, o).sessions[i];
    CausesStay(run, Out(i, o), i, s.sessions[i]);
    OutStepMoves(c, s, i, o);
    OutFrame(c, s, i, o);
    ErrChAfter(c, s, i, o);
    assert (run + [Out(i, o)])[|run|] == Out(i, o);
  }

  lemma ErrChAfter(c: Config, s: State, i: nat, o: OutAct)
    requires OutEnabled(c, s, i, o)
    ensures OutApply(c, s, i, o).sessions[i].errCh
         == s.sessions[i].errCh + if o.OSend? then [s.sessions[i].out.error] else []
  {
    match o
    case OGet(pick) => GetMoves(c, s, i, pick);
    case OPut => PutMoves(c, s, i);
    case _ =>
  }

  lemma CausedByIn(run: seq<Action>, s: State, i: nat, a: InAct)
    requires InEnabled(s, i, a) && Caused(run, i, s.sessions[i])
    ensures Caused(run + [In(i, a)], i, InApply(s, i, a).sessions[i])
  {
    CausesStay(run, In(i, a), i, s.sessions[i]);
    assert (run + [In(i, a)])[|run|] == In(i, a);
  }

  /** Main only takes errors out of a channel. */
  lemma ForeignErrCh(c: Config, s: State, a: Action, i: nat)
    requires Enabled(c, s, a) && !StepOfOut(a, i) && !StepOfIn(a, i)
    ensures var s' := Apply(c, s, a);
            && (i < |s.sessions| ==> i < |s'.sessions| && forall e :: e in s'.sessions[i].errCh ==> e in s.sessions[i].errCh)
            && (|s.sessions| <= i < |s'.sessions| ==> s'.sessions[i].errCh == [])
  {
    match a
    case Main(m) => MainErrCh(c, s, m);
    case Out(j, o) => OutFrame(c, s, j, o);
    case _ =>
  }

  lemma MainErrCh(c: Config, s: State, m: MainAct)
    requires MainEnabled(c, s, m)
    ensures var s' := MainApply(c, s, m);
            && |s'.sessions| >= |s.sessions|
            && (forall i, e :: 0 <= i < |s.sessions| && e in s'.sessions[i].errCh ==> e in s.sessions[i].errCh)
            && (forall i :: |s.sessions| <= i < |s'.sessions| ==> s'.sessions[i].errCh == [])
  {
    if !ChangesSession(m) {
      MainLeavesSessions(c, s, m);
    }
  }

  lemma CausedStep(c: Config, run: seq<Action>, s: State, a: Action, i: nat)
    requires Enabled(c, s, a) && (i < |s.sessions| ==> Caused(run, i, s.sessions[i]))
    ensures var s' := Apply(c, s, a); i < |s'.sessions| ==> Caused(run + [a], i, s'.sessions[i])
  {
    if StepOfOut(a, i) {
      CausedByOut(c, run, s, i, a.o);
    } else if StepOfIn(a, i) {
      CausedByIn(run, s, i, a.n);
    } else {
      ForeignStep(c, s, a, i);
      ForeignErrCh(c, s, a, i);
      if i < |s.sessions| {
        CausesStay(run, a, i, s.sessions[i]);
      }
    }
  }

  /** An error that a pump reports, or has put into its channel, is one that happened to that pump. */
  lemma {:induction false} ReportsAreCaused(c: Config, run: seq<Action>, i: nat)
    requires Run(c, Initial(c), run).Some?
    ensures var s := Run(c, Initial(c), run).value; i < |s.sessions| ==> Caused(run, i, s.sessions[i])
    decreases |run|
  {
    if run == [] {
    } else {
      var init, a := run[..|run| - 1], run[|run| - 1];
      assert run == init + [a];
      RunSnoc(c, Initial(c), init, a);
      ReportsAreCaused(c, init, i);
      CausedStep(c, init, Run(c, Initial(c), init).value, a, i);
    }
  }
}
