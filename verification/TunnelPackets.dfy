// What becomes of every packet read from the TUN, and that the bytes handed to a connection are
// the bytes that were read, although buffers travel between pumps of different sessions.
module TunnelPackets {
  import opened Basics
  import opened Tunnel
  import opened TunnelSessions
  import opened TunnelBuffers

  /** The packet an outbound pump has in its buffer. */
  function Carried(out: OutPc): Option<nat> {
    match out
    case Fetched(_, _, k) => Some(k)
    case Passed(_, _, k) => Some(k)
    case Writing(_, k) => Some(k)
    case _ => None
  }

  /** The buffer of a pump that has read packet k and not yet handed it over contains that packet. */
  predicate ContentOk(s: State, out: OutPc) {
    out.Fetched? || out.Passed? ==>
      && out.k < |s.tun| && out.len == |s.tun[out.k]|
      && out.buf < |s.mem| && HEADROOM + out.len <= |s.mem[out.buf]|
      && s.mem[out.buf][HEADROOM..HEADROOM + out.len] == s.tun[out.k]
  }

  /** The packets handed over by one session are in stream order and arrived unchanged. */
  ghost predicate HandedOk(s: State, e: Session) {
    && |e.handed| == |e.wire|
    && (forall x :: 0 <= x < |e.handed| ==> e.handed[x] < |s.tun| && e.wire[x] == s.tun[e.handed[x]])
    && (forall x, y :: 0 <= x < y < |e.handed| ==> e.handed[x] < e.handed[y])
    && (e.out.Fetched? || e.out.Passed? ==> forall x :: 0 <= x < |e.handed| ==> e.handed[x] < e.out.k)
    && (e.out.Writing? ==> e.handed != [] && e.handed[|e.handed| - 1] == e.out.k)
  }

  /** Every packet handed over by session i has its fate there. */
  ghost predicate HandedFates(s: State, i: nat, e: Session) {
    forall x :: 0 <= x < |e.handed| && e.handed[x] < |s.fate| ==>
      || s.fate[e.handed[x]] == Accepted(i)
      || s.fate[e.handed[x]] == Failed(i)
      || (e.out.Writing? && e.out.k == e.handed[x])
  }

  predicate CarriedOk(s: State, i: nat, out: OutPc) {
    Carried(out).Some? ==> Carried(out).value < |s.fate| && s.fate[Carried(out).value] == InFlight(i)
  }

  ghost predicate SessionPackets(s: State, i: nat, e: Session) {
    && CarriedOk(s, i, e.out)
    && ContentOk(s, e.out)
    && HandedOk(s, e)
    && HandedFates(s, i, e)
  }

  /** The fate of packet k is what the pump it names says. */
  predicate FateOk(s: State, k: nat)
    requires k < |s.fate|
  {
    match s.fate[k]
    case WokeIdle => true
    case InFlight(i) => i < |s.sessions| && Carried(s.sessions[i].out) == Some(k)
    case Accepted(i) => i < |s.sessions| && k in s.sessions[i].handed
    case Failed(i) => i < |s.sessions| && k in s.sessions[i].handed
    case Dropped(i) => i < |s.sessions| && (s.sessions[i].out.Discarding? || s.sessions[i].out == Exited(false))
  }

  ghost predicate OneDropEach(s: State) {
    forall k, l :: 0 <= k < l < |s.fate| && s.fate[k].Dropped? ==> s.fate[l] != s.fate[k]
  }

  ghost predicate PacketsInv(c: Config, s: State) {
    && |s.fate| == |s.tun|
    && (forall k :: 0 <= k < |s.tun| ==> |s.tun[k]| <= c.mtu)
    && (forall i :: 0 <= i < |s.sessions| ==> SessionPackets(s, i, s.sessions[i]))
    && (forall k :: 0 <= k < |s.fate| ==> FateOk(s, k))
    && OneDropEach(s)
  }

  lemma PacketsStart(c: Config)
    ensures PacketsInv(c, Initial(c))
  {
  }

  /** The buffers of every pump but `who` are as before. */
  ghost predicate BuffersOfOthersKept(s: State, s': State, who: int) {
    && |s'.mem| >= |s.mem|
    && forall j :: 0 <= j < |s.sessions| && j != who && OutHolds(s.sessions[j].out).Some? ==>
         var b := OutHolds(s.sessions[j].out).value; b < |s.mem| && s'.mem[b] == s.mem[b]
  }

  lemma OtherSessionKept(s: State, s': State, j: nat, who: int)
    requires j < |s.sessions| && j != who && SessionPackets(s, j, s.sessions[j])
    requires |s.fate| == |s.tun| && |s'.fate| == |s'.tun|
    requires s.tun <= s'.tun
    requires forall k :: 0 <= k < |s.fate| && s'.fate[k] != s.fate[k] ==> who >= 0 && s.fate[k] == InFlight(who)
    requires BuffersOfOthersKept(s, s', who)
    ensures SessionPackets(s', j, s.sessions[j])
  {
  }

  /** Steps that leave the stream, the fates and what the pumps hold alone. */
  lemma PacketsKept(c: Config, s: State, s': State)
    requires PacketsInv(c, s)
    requires s'.tun == s.tun && s'.fate == s.fate && |s'.sessions| >= |s.sessions|
    requires forall i :: 0 <= i < |s.sessions| ==>
               && s'.sessions[i].out == s.sessions[i].out
               && s'.sessions[i].handed == s.sessions[i].handed && s'.sessions[i].wire == s.sessions[i].wire
    requires forall i :: |s.sessions| <= i < |s'.sessions| ==> s'.sessions[i].out == Checking && s'.sessions[i].handed == [] && s'.sessions[i].wire == []
    requires BuffersOfOthersKept(s, s', -1)
    ensures PacketsInv(c, s')
  {
    forall i | 0 <= i < |s'.sessions| ensures SessionPackets(s', i, s'.sessions[i]) {
      if i < |s.sessions| {
        OtherSessionKept(s, s', i, -1);
      }
    }
    forall k | 0 <= k < |s'.fate| ensures FateOk(s', k) {
      assert FateOk(s, k);
    }
  }

  /** A step of pump i that leaves the other pumps and their buffers alone. */
  lemma PumpStepPackets(c: Config, s: State, s': State, i: nat)
    requires PacketsInv(c, s) && i < |s.sessions| == |s'.sessions|
    requires s'.sessions == s.sessions[i := s'.sessions[i]]
    requires s.tun <= s'.tun && |s'.fate| == |s'.tun|
    requires forall k :: 0 <= k < |s'.tun| ==> |s'.tun[k]| <= c.mtu
    requires forall k :: 0 <= k < |s.fate| && s'.fate[k] != s.fate[k] ==> s.fate[k] == InFlight(i)
    requires BuffersOfOthersKept(s, s', i)
    requires SessionPackets(s', i, s'.sessions[i])
    requires forall k :: 0 <= k < |s'.fate| && (k >= |s.fate| || s.fate[k] != s'.fate[k] || s.fate[k] == InFlight(i)) ==> FateOk(s', k)
    requires s.sessions[i].handed <= s'.sessions[i].handed
    requires s.sessions[i].out.Discarding? || s.sessions[i].out == Exited(false) ==>
               s'.sessions[i].out.Discarding? || s'.sessions[i].out == Exited(false)
    requires OneDropEach(s')
    ensures PacketsInv(c, s')
  {
    forall j | 0 <= j < |s'.sessions| ensures SessionPackets(s', j, s'.sessions[j]) {
      if j != i {
        OtherSessionKept(s, s', j, i);
      }
    }
    forall k | 0 <= k < |s'.fate| ensures FateOk(s', k) {
      if k < |s.fate| && s'.fate[k] == s.fate[k] && s.fate[k] != InFlight(i) {
        assert FateOk(s, k);
      }
    }
  }

  lemma ReadSession(c: Config, s: State, i: nat, packet: Packet)
    requires PacketsInv(c, s) && OutEnabled(c, s, i, ORead(packet))
    ensures var s' := OutApply(c, s, i, ORead(packet)); SessionPackets(s', i, s'.sessions[i])
  {
    var s' := OutApply(c, s, i, ORead(packet));
    assert SessionPackets(s, i, s.sessions[i]);
    assert s'.mem[s.sessions[i].out.buf][HEADROOM..HEADROOM + |packet|] == packet;
  }

  /** The read adds one packet to the stream, in flight at pump i, which carried none. */
  lemma ReadFates(c: Config, s: State, i: nat, packet: Packet)
    requires PacketsInv(c, s) && OutEnabled(c, s, i, ORead(packet))
    ensures var s' := OutApply(c, s, i, ORead(packet));
            && s'.fate == s.fate + [InFlight(i)] && FateOk(s', |s.fate|) && OneDropEach(s')
            && forall k :: 0 <= k < |s.fate| ==> s.fate[k] != InFlight(i)
  {
    forall k | 0 <= k < |s.fate| ensures s.fate[k] != InFlight(i) {
      assert FateOk(s, k);
    }
  }

  lemma PacketsRead(c: Config, s: State, i: nat, packet: Packet)
    requires PacketsInv(c, s) && BuffersInv(c, s) && OutEnabled(c, s, i, ORead(packet))
    ensures PacketsInv(c, OutApply(c, s, i, ORead(packet)))
  {
    assert OutHolds(s.sessions[i].out) == Some(s.sessions[i].out.buf);
    ReadSession(c, s, i, packet);
    ReadFates(c, s, i, packet);
    PumpStepPackets(c, s, OutApply(c, s, i, ORead(packet)), i);
  }

  /** While pump i carries packet k, k is the only packet in flight there and none was dropped there. */
  lemma OnlyCarried(c: Config, s: State, i: nat, k: nat)
    requires PacketsInv(c, s) && i < |s.sessions| && Carried(s.sessions[i].out) == Some(k)
    ensures forall x :: 0 <= x < |s.fate| ==> s.fate[x] != Dropped(i) && (s.fate[x] == InFlight(i) ==> x == k)
  {
    forall x | 0 <= x < |s.fate| ensures s.fate[x] != Dropped(i) && (s.fate[x] == InFlight(i) ==> x == k) {
      assert FateOk(s, x);
    }
  }

  lemma DropSession(c: Config, s: State, i: nat)
    requires PacketsInv(c, s) && OutEnabled(c, s, i, ORecheck) && PumpCancelled(s, s.sessions[i])
    ensures var s' := OutApply(c, s, i, ORecheck); SessionPackets(s', i, s'.sessions[i])
    ensures s.fate[s.sessions[i].out.k] == InFlight(i)
  {
    assert SessionPackets(s, i, s.sessions[i]);
  }

  lemma PacketsDrop(c: Config, s: State, i: nat)
    requires PacketsInv(c, s) && BuffersInv(c, s) && OutEnabled(c, s, i, ORecheck) && PumpCancelled(s, s.sessions[i])
    ensures PacketsInv(c, OutApply(c, s, i, ORecheck))
  {
    var s', k := OutApply(c, s, i, ORecheck), s.sessions[i].out.k;
    OnlyCarried(c, s, i, k);
    DropSession(c, s, i);
    assert s'.fate == s.fate[k := Dropped(i)];
    PumpStepPackets(c, s, s', i);
  }

  lemma PacketsPass(c: Config, s: State, i: nat)
    requires PacketsInv(c, s) && BuffersInv(c, s) && OutEnabled(c, s, i, ORecheck) && !PumpCancelled(s, s.sessions[i])
    ensures PacketsInv(c, OutApply(c, s, i, ORecheck))
  {
    var s' := OutApply(c, s, i, ORecheck);
    var e := s.sessions[i];
    OnlyCarried(c, s, i, e.out.k);
    assert SessionPackets(s, i, e);
    assert s'.sessions[i] == e.(out := Passed(e.out.buf, e.out.len, e.out.k)) && s'.fate == s.fate;
    PumpStepPackets(c, s, s', i);
  }

  lemma PacketsRecheck(c: Config, s: State, i: nat)
    requires PacketsInv(c, s) && BuffersInv(c, s) && OutEnabled(c, s, i, ORecheck)
    ensures PacketsInv(c, OutApply(c, s, i, ORecheck))
  {
    if PumpCancelled(s, s.sessions[i]) {
      PacketsDrop(c, s, i);
    } else {
      PacketsPass(c, s, i);
    }
  }

  lemma CallSession(c: Config, s: State, i: nat)
    requires PacketsInv(c, s) && OutEnabled(c, s, i, OCall)
    ensures var s' := OutApply(c, s, i, OCall); SessionPackets(s', i, s'.sessions[i])
  {
    assert SessionPackets(s, i, s.sessions[i]);
  }

  lemma PacketsCall(c: Config, s: State, i: nat)
    requires PacketsInv(c, s) && BuffersInv(c, s) && OutEnabled(c, s, i, OCall)
    ensures PacketsInv(c, OutApply(c, s, i, OCall))
  {
    var s' := OutApply(c, s, i, OCall);
    CallSession(c, s, i);
    forall k | 0 <= k < |s.fate| && s.fate[k] == InFlight(i) ensures FateOk(s', k) {
      assert FateOk(s, k);
    }
    PumpStepPackets(c, s, s', i);
  }

  lemma ReturnSession(c: Config, s: State, i: nat, r: WriteResult)
    requires PacketsInv(c, s) && OutEnabled(c, s, i, OReturn(r))
    ensures var s' := OutApply(c, s, i, OReturn(r)); SessionPackets(s', i, s'.sessions[i])
  {
    assert SessionPackets(s, i, s.sessions[i]);
  }

  /** The packet whose write returns is the last one handed over, and the only one in flight there. */
  lemma ReturnFates(c: Config, s: State, i: nat, r: WriteResult)
    requires PacketsInv(c, s) && OutEnabled(c, s, i, OReturn(r))
    ensures var s', k := OutApply(c, s, i, OReturn(r)), s.sessions[i].out.k;
            && s.fate[k] == InFlight(i) && s'.fate == s.fate[k := s'.fate[k]] && FateOk(s', k)
            && !s'.fate[k].Dropped? && s'.fate[k] != InFlight(i)
            && forall x :: 0 <= x < |s.fate| && s.fate[x] == InFlight(i) ==> x == k
  {
    var e := s.sessions[i];
    assert SessionPackets(s, i, e);
    assert e.handed[|e.handed| - 1] == e.out.k;
    OnlyCarried(c, s, i, e.out.k);
  }

  lemma PacketsReturn(c: Config, s: State, i: nat, r: WriteResult)
    requires PacketsInv(c, s) && BuffersInv(c, s) && OutEnabled(c, s, i, OReturn(r))
    ensures PacketsInv(c, OutApply(c, s, i, OReturn(r)))
  {
    ReturnSession(c, s, i, r);
    ReturnFates(c, s, i, r);
    PumpStepPackets(c, s, OutApply(c, s, i, OReturn(r)), i);
  }

  /** Every other step of an outbound pump moves no packet. */
  lemma PacketsQuietOut(c: Config, s: State, i: nat, o: OutAct)
    requires PacketsInv(c, s) && BuffersInv(c, s) && OutEnabled(c, s, i, o)
    requires !MovesPacket(o)
    ensures PacketsInv(c, OutApply(c, s, i, o))
  {
    var s' := OutApply(c, s, i, o);
    QuietOutStream(c, s, i, o);
    QuietOutFacts(c, s, i, o);
    OutFrame(c, s, i, o);
    assert SessionPackets(s, i, s.sessions[i]);
    forall k | 0 <= k < |s.fate| ensures s.fate[k] != InFlight(i) {
      assert FateOk(s, k);
    }
    PumpStepPackets(c, s, s', i);
  }

  predicate MovesPacket(o: OutAct) {
    o.ORead? || o.ORecheck? || o.OCall? || o.OReturn?
  }

  lemma QuietOutStream(c: Config, s: State, i: nat, o: OutAct)
    requires OutEnabled(c, s, i, o) && !MovesPacket(o)
    ensures var s' := OutApply(c, s, i, o); s'.tun == s.tun && s'.fate == s.fate && s.mem <= s'.mem
  {
    match o
    case OGet(pick) =>
    case _ =>
  }

  lemma QuietOutFacts(c: Config, s: State, i: nat, o: OutAct)
    requires OutEnabled(c, s, i, o) && !MovesPacket(o)
    ensures var e, e' := s.sessions[i], OutApply(c, s, i, o).sessions[i];
            && e'.handed == e.handed && e'.wire == e.wire
            && Carried(e.out).None? && Carried(e'.out).None?
            && (e.out.Discarding? ==> e'.out == Exited(false)) && !e.out.Exited?
  {
    match o
    case OGet(pick) =>
    case _ =>
  }

  lemma PacketsMainRead(c: Config, s: State, packet: Packet)
    requires PacketsInv(c, s) && BuffersInv(c, s) && MainEnabled(c, s, MRead(packet))
    ensures PacketsInv(c, MainApply(c, s, MRead(packet)))
  {
    var s' := MainApply(c, s, MRead(packet));
    assert MainHolds(s.main) == Some(s.main.buf);
    forall j | 0 <= j < |s'.sessions| ensures SessionPackets(s', j, s'.sessions[j]) {
      OtherSessionKept(s, s', j, -1);
    }
    forall k | 0 <= k < |s.fate| ensures FateOk(s', k) {
      assert FateOk(s, k);
    }
    assert s'.fate[..|s.fate|] == s.fate;
  }

  lemma PacketsMainStep(c: Config, s: State, m: MainAct)
    requires PacketsInv(c, s) && BuffersInv(c, s) && MainEnabled(c, s, m)
    ensures PacketsInv(c, MainApply(c, s, m))
  {
    if m.MRead? {
      PacketsMainRead(c, s, m.packet);
    } else {
      MainMovesNoPacket(c, s, m);
      MainKeepsPumps(c, s, m);
      PacketsKept(c, s, MainApply(c, s, m));
    }
  }

  lemma MainMovesNoPacket(c: Config, s: State, m: MainAct)
    requires MainEnabled(c, s, m) && !m.MRead?
    ensures var s' := MainApply(c, s, m); s'.tun == s.tun && s'.fate == s.fate && s.mem <= s'.mem
  {
    match m
    case MGet(pick) =>
    case _ =>
  }

  lemma MainKeepsPumps(c: Config, s: State, m: MainAct)
    requires MainEnabled(c, s, m)
    ensures var s' := MainApply(c, s, m);
            && |s'.sessions| >= |s.sessions|
            && (forall i :: 0 <= i < |s.sessions| ==>
                  && s'.sessions[i].out == s.sessions[i].out
                  && s'.sessions[i].handed == s.sessions[i].handed && s'.sessions[i].wire == s.sessions[i].wire)
            && (forall i :: |s.sessions| <= i < |s'.sessions| ==>
                  s'.sessions[i].out == Checking && s'.sessions[i].handed == [] && s'.sessions[i].wire == [])
  {
    if !ChangesSession(m) {
      MainLeavesSessions(c, s, m);
    }
  }

  lemma PacketsOutStep(c: Config, s: State, i: nat, o: OutAct)
    requires PacketsInv(c, s) && BuffersInv(c, s) && OutEnabled(c, s, i, o)
    ensures PacketsInv(c, OutApply(c, s, i, o))
  {
    match o
    case ORead(packet) => PacketsRead(c, s, i, packet);
    case ORecheck => PacketsRecheck(c, s, i);
    case OCall => PacketsCall(c, s, i);
    case OReturn(r) => PacketsReturn(c, s, i, r);
    case _ => PacketsQuietOut(c, s, i, o);
  }

  lemma PacketsStep(c: Config, s: State, a: Action)
    requires PacketsInv(c, s) && BuffersInv(c, s) && Enabled(c, s, a)
    ensures PacketsInv(c, Apply(c, s, a))
  {
    match a
    case Main(m) => PacketsMainStep(c, s, m);
    case Out(i, o) => PacketsOutStep(c, s, i, o);
    case Scribble(i, bytes) => PacketsScribble(c, s, i, bytes);
    case _ => PacketsElsewhere(c, s, a);
  }

  /** The other steps leave every pump's packet and buffer alone. */
  lemma PacketsElsewhere(c: Config, s: State, a: Action)
    requires PacketsInv(c, s) && BuffersInv(c, s) && Enabled(c, s, a)
    requires a.In? || a.CancelContext? || a.Collect? || a.MainScribble?
    ensures PacketsInv(c, Apply(c, s, a))
  {
    assert a.MainScribble? ==> MainHolds(s.main) == Some(s.main.buf);
    PacketsKept(c, s, Apply(c, s, a));
  }

  /** While the device or the connection works on a buffer, nothing it does there reaches another pump. */
  lemma PacketsScribble(c: Config, s: State, i: nat, bytes: seq<Byte>)
    requires PacketsInv(c, s) && BuffersInv(c, s) && Enabled(c, s, Scribble(i, bytes))
    ensures PacketsInv(c, Apply(c, s, Scribble(i, bytes)))
  {
    var s' := Apply(c, s, Scribble(i, bytes));
    assert OutHolds(s.sessions[i].out) == Some(s.sessions[i].out.buf);
    assert SessionPackets(s, i, s.sessions[i]);
    forall k | 0 <= k < |s.fate| ensures FateOk(s', k) {
      assert FateOk(s, k);
    }
    PumpStepPackets(c, s, s', i);
  }
}
