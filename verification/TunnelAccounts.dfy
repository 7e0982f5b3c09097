// The account of packets against the run itself: what the device returned and what WritePacketBuffer
// answered, counted over the actions of a run, whatever the machine notes down about fates.
module TunnelAccounts {
  import opened Basics
  import opened Tunnel
  import opened TunnelPackets
  import opened TunnelTheorems

  /** Device.Read returns a packet to the idle main loop. */
  predicate Wakes(a: Action) {
    a.Main? && a.m.MRead?
  }

  /** Device.Read returns a packet, to main or to a pump. */
  predicate Reads(a: Action) {
    Wakes(a) || (a.Out? && a.o.ORead?)
  }

  /** WritePacketBuffer returns without an error. */
  predicate Accepts(a: Action) {
    a.Out? && a.o.OReturn? && a.o.result.Sent?
  }

  /** WritePacketBuffer returns an error. */
  predicate Fails(a: Action) {
    a.Out? && a.o.OReturn? && !a.o.result.Sent?
  }

  function Tally(run: seq<Action>, counts: Action -> bool): nat {
    if run == [] then 0 else One(counts(run[0])) + Tally(run[1..], counts)
  }

  /** The kinds of fate that a run's actions can be counted against. */
  datatype Account = Account(read: nat, woke: nat, accepted: nat, failed: nat)

  ghost function AccountOf(s: State): Account {
    Account(|s.tun|, |WokeIdles(s.fate)|, |Accepteds(s.fate)|, |Faileds(s.fate)|)
  }

  function Entry(a: Action): Account {
    Account(One(Reads(a)), One(Wakes(a)), One(Accepts(a)), One(Fails(a)))
  }

  function Sum(x: Account, y: Account): Account {
    Account(x.read + y.read, x.woke + y.woke, x.accepted + y.accepted, x.failed + y.failed)
  }

  /** A packet that was just read. */
  lemma NewFate(fate: seq<Fate>, x: Fate)
    requires x.WokeIdle? || x.InFlight?
    ensures |WokeIdles(fate + [x])| == |WokeIdles(fate)| + One(x.WokeIdle?)
    ensures |Accepteds(fate + [x])| == |Accepteds(fate)| && |Faileds(fate + [x])| == |Faileds(fate)|
  {
    assert WokeIdles(fate + [x]) == WokeIdles(fate) + if x.WokeIdle? then {|fate|} else {};
    assert Accepteds(fate + [x]) == Accepteds(fate) && Faileds(fate + [x]) == Faileds(fate);
  }

  lemma SettledAccepted(fate: seq<Fate>, k: nat, x: Fate)
    requires k < |fate| && fate[k].InFlight?
    ensures |Accepteds(fate[k := x])| == |Accepteds(fate)| + One(x.Accepted?)
  {
    assert Accepteds(fate[k := x]) == Accepteds(fate) + if x.Accepted? then {k} else {};
  }

  lemma SettledFailed(fate: seq<Fate>, k: nat, x: Fate)
    requires k < |fate| && fate[k].InFlight?
    ensures |Faileds(fate[k := x])| == |Faileds(fate)| + One(x.Failed?)
  {
    assert Faileds(fate[k := x]) == Faileds(fate) + if x.Failed? then {k} else {};
  }

  /** A packet that was in flight. */
  lemma SettledFate(fate: seq<Fate>, k: nat, x: Fate)
    requires k < |fate| && fate[k].InFlight? && !x.WokeIdle?
    ensures |WokeIdles(fate[k := x])| == |WokeIdles(fate)|
    ensures |Accepteds(fate[k := x])| == |Accepteds(fate)| + One(x.Accepted?)
    ensures |Faileds(fate[k := x])| == |Faileds(fate)| + One(x.Failed?)
  {
    assert WokeIdles(fate[k := x]) == WokeIdles(fate);
    SettledAccepted(fate, k, x);
    SettledFailed(fate, k, x);
  }

  lemma ReadEntry(c: Config, s: State, a: Action)
    requires Enabled(c, s, a) && Reads(a)
    ensures AccountOf(Apply(c, s, a)) == Sum(AccountOf(s), Entry(a))
  {
    var x := if a.Main? then WokeIdle else InFlight(a.i);
    assert Apply(c, s, a).fate == s.fate + [x];
    NewFate(s.fate, x);
  }

  lemma ReturnEntry(c: Config, s: State, i: nat, r: WriteResult)
    requires OutEnabled(c, s, i, OReturn(r)) && s.fate[s.sessions[i].out.k] == InFlight(i)
    ensures AccountOf(OutApply(c, s, i, OReturn(r))) == Sum(AccountOf(s), Entry(Out(i, OReturn(r))))
  {
    SettledFate(s.fate, s.sessions[i].out.k, if r.Sent? then Accepted(i) else Failed(i));
  }

  lemma RecheckEntry(c: Config, s: State, i: nat)
    requires OutEnabled(c, s, i, ORecheck) && s.fate[s.sessions[i].out.k] == InFlight(i)
    ensures AccountOf(OutApply(c, s, i, ORecheck)) == AccountOf(s)
  {
    SettledFate(s.fate, s.sessions[i].out.k, Dropped(i));
  }

  lemma CarriedInFlight(c: Config, s: State, i: nat)
    requires PacketsInv(c, s) && i < |s.sessions| && Carried(s.sessions[i].out).Some?
    ensures Carried(s.sessions[i].out).value < |s.fate| && s.fate[Carried(s.sessions[i].out).value] == InFlight(i)
  {
    assert SessionPackets(s, i, s.sessions[i]);
  }

  /** Every other action leaves stream and fates alone. */
  lemma QuietEntry(c: Config, s: State, a: Action)
    requires Enabled(c, s, a) && !Reads(a) && !(a.Out? && (a.o.OReturn? || a.o.ORecheck?))
    ensures Apply(c, s, a).tun == s.tun && Apply(c, s, a).fate == s.fate
  {
    match a
    case Main(m) => MainMovesNoPacket(c, s, m);
    case Out(i, o) =>
      if !o.OCall? {
        QuietOutStream(c, s, i, o);
      }
    case _ =>
  }

  lemma OneEntry(c: Config, s: State, a: Action)
    requires PacketsInv(c, s) && Enabled(c, s, a)
    ensures AccountOf(Apply(c, s, a)) == Sum(AccountOf(s), Entry(a))
  {
    if Reads(a) {
      ReadEntry(c, s, a);
    } else if a.Out? && a.o.OReturn? {
      CarriedInFlight(c, s, a.i);
      ReturnEntry(c, s, a.i, a.o.result);
    } else if a.Out? && a.o.ORecheck? {
      CarriedInFlight(c, s, a.i);
      RecheckEntry(c, s, a.i);
    } else {
      QuietEntry(c, s, a);
    }
  }

  function Entries(run: seq<Action>): Account {
    Account(Tally(run, Reads), Tally(run, Wakes), Tally(run, Accepts), Tally(run, Fails))
  }

  lemma FirstEntry(x: Account, run: seq<Action>)
    requires run != []
    ensures Sum(Sum(x, Entry(run[0])), Entries(run[1..])) == Sum(x, Entries(run))
  {
  }

  lemma StepWithEntry(c: Config, s: State, a: Action)
    requires Inv(c, s) && Enabled(c, s, a)
    ensures Inv(c, Apply(c, s, a)) && AccountOf(Apply(c, s, a)) == Sum(AccountOf(s), Entry(a))
  {
    OneEntry(c, s, a);
    InvStep(c, s, a);
  }

  lemma {:induction false} AccountFollowsRun(c: Config, s: State, run: seq<Action>)
    requires Inv(c, s) && Run(c, s, run).Some?
    ensures AccountOf(Run(c, s, run).value) == Sum(AccountOf(s), Entries(run))
    decreases |run|
  {
    if run == [] {
    } else {
      StepWithEntry(c, s, run[0]);
      FirstEntry(AccountOf(s), run);
      AccountFollowsRun(c, Apply(c, s, run[0]), run[1..]);
    }
  }

  /**
   * Conservation over a whole run, in terms of what happened at the device and the connections: the
   * packets read are those that woke the idle loop, those WritePacketBuffer accepted, those it failed
   * on, at most one for each pump that quit unreported after a cancellation, and one for each
   * pump that has a packet in hand.
   */
  lemma RunConservation(c: Config, run: seq<Action>)
    requires Run(c, Initial(c), run).Some?
    ensures var s := Run(c, Initial(c), run).value;
            && Tally(run, Reads) == |s.tun|
            && Tally(run, Reads) == Tally(run, Wakes) + Tally(run, Accepts) + Tally(run, Fails)
                                    + |Droppeds(s.fate)| + |Carriers(s)|
            && |Droppeds(s.fate)| <= |Quitters(s)|
            && forall i :: i in Quitters(s) ==> s.ctxDone || s.sessions[i].cancelled
  {
    var s := Run(c, Initial(c), run).value;
    InvInitial(c);
    AccountFollowsRun(c, Initial(c), run);
    assert AccountOf(Initial(c)) == Account(0, 0, 0, 0);
    assert Reachable(c, s);
    PacketConservation(c, s);
  }
}
