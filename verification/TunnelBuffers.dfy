// Who owns the packet buffers: sync.Pool hands arrays to threads of several sessions at once,
// and readMu belongs to one session, so only the pool keeps a stale pump off a new pump's buffer.
module TunnelBuffers {
  import opened Basics
  import opened Tunnel

  function MainHolds(m: MainPc): Option<BufId> {
    match m
    case IdleRead(b) => Some(b)
    case IdlePut(b, _) => Some(b)
    case _ => None
  }

  function OutHolds(out: OutPc): Option<BufId> {
    match out
    case Reading(b) => Some(b)
    case Unread(b) => Some(b)
    case Fetched(b, _, _) => Some(b)
    case Discarding(b) => Some(b)
    case Passed(b, _, _) => Some(b)
    case Writing(b, _) => Some(b)
    case Written(b, _) => Some(b)
    case _ => None
  }

  /** b is out of the pool and was not let go: some thread may use it. */
  predicate Loose(s: State, b: BufId) {
    b < |s.mem| && b !in s.pool && b !in s.collected
  }

  ghost predicate Held(s: State, b: BufId) {
    MainHolds(s.main) == Some(b) || exists i :: 0 <= i < |s.sessions| && OutHolds(s.sessions[i].out) == Some(b)
  }

  /** The pool's own state: every array has the pool's capacity, and none is in the pool twice. */
  ghost predicate PoolOk(c: Config, s: State) {
    && (forall b :: 0 <= b < |s.mem| ==> |s.mem[b]| == Capacity(c))
    && (forall b :: s.pool[b] <= 1)
    && (forall b :: b in s.pool ==> b < |s.mem| && b !in s.collected)
    && (forall b :: b in s.collected ==> b < |s.mem|)
  }

  /** No array is held by two threads, and no held array is in the pool. */
  ghost predicate Exclusive(s: State) {
    && (MainHolds(s.main).Some? ==> Loose(s, MainHolds(s.main).value))
    && (forall i :: 0 <= i < |s.sessions| && OutHolds(s.sessions[i].out).Some? ==>
          && Loose(s, OutHolds(s.sessions[i].out).value)
          && OutHolds(s.sessions[i].out) != MainHolds(s.main))
    && (forall i, j :: 0 <= i < |s.sessions| && 0 <= j < |s.sessions| && i != j && OutHolds(s.sessions[i].out).Some? ==>
          OutHolds(s.sessions[i].out) != OutHolds(s.sessions[j].out))
  }

  /** No array is lost: what is neither in the pool nor let go is held. */
  ghost predicate NoLeak(s: State) {
    forall b :: Loose(s, b) ==> Held(s, b)
  }

  ghost predicate BuffersInv(c: Config, s: State) {
    PoolOk(c, s) && Exclusive(s) && NoLeak(s)
  }

  lemma BuffersStart(c: Config)
    ensures BuffersInv(c, Initial(c))
  {
  }

  lemma BuffersStep(c: Config, s: State, a: Action)
    requires BuffersInv(c, s) && Enabled(c, s, a)
    ensures BuffersInv(c, Apply(c, s, a))
  {
    match a
    case Main(m) => BuffersMainStep(c, s, m);
    case Out(i, o) => BuffersOutStep(c, s, i, o);
    case In(i, n) =>
      HoldersUnchanged(c, s, InApply(s, i, n));
    case Collect(b) => BuffersCollect(c, s, b);
    case _ =>
      HoldersUnchanged(c, s, Apply(c, s, a));
  }

  lemma BuffersCollect(c: Config, s: State, b: BufId)
    requires BuffersInv(c, s) && Enabled(c, s, Collect(b))
    ensures BuffersInv(c, Apply(c, s, Collect(b)))
  {
    var s' := Apply(c, s, Collect(b));
    forall x | Loose(s', x) ensures Held(s', x) {
      assert Loose(s, x) && Held(s, x);
    }
  }

  /** A step that leaves pool, array sizes and holders alone keeps the invariant. */
  lemma HoldersUnchanged(c: Config, s: State, s': State)
    requires BuffersInv(c, s)
    requires SameArrays(s, s')
    requires MainHolds(s'.main) == MainHolds(s.main) && |s'.sessions| >= |s.sessions|
    requires forall i :: 0 <= i < |s.sessions| ==> OutHolds(s'.sessions[i].out) == OutHolds(s.sessions[i].out)
    requires forall i :: |s.sessions| <= i < |s'.sessions| ==> OutHolds(s'.sessions[i].out).None?
    ensures BuffersInv(c, s')
  {
    forall b | Loose(s', b) ensures Held(s', b) {
      assert Loose(s, b);
    }
  }

  /** bufPool.get makes exactly the array it returns loose. */
  lemma GetLoosens(c: Config, s: State, pick: Option<BufId>)
    requires PoolOk(c, s) && CanPick(s, pick)
    ensures var (s', b) := PoolGet(c, s, pick);
            PoolOk(c, s') && !Loose(s, b) && Loose(s', b) && forall x: BufId :: x != b ==> Loose(s', x) == Loose(s, x)
  {
    if pick.Some? {
      assert s.pool[pick.value] <= 1;
    }
  }

  /** bufPool.put makes exactly the array it is given no longer loose. */
  lemma PutTightens(c: Config, s: State, b: BufId)
    requires PoolOk(c, s) && Loose(s, b)
    ensures var s' := PoolPut(c, s, b);
            PoolOk(c, s') && !Loose(s', b) && forall x: BufId :: x != b ==> Loose(s', x) == Loose(s, x)
  {
    assert s.pool[b] == 0;
  }

  /** Only pump i's holding differs between s and s'. */
  ghost predicate OnlyPump(s: State, s': State, i: nat) {
    && i < |s.sessions| == |s'.sessions|
    && MainHolds(s'.main) == MainHolds(s.main)
    && forall j :: 0 <= j < |s.sessions| && j != i ==> OutHolds(s'.sessions[j].out) == OutHolds(s.sessions[j].out)
  }

  lemma PumpTakes(c: Config, s: State, s': State, i: nat, b: BufId)
    requires BuffersInv(c, s) && PoolOk(c, s') && OnlyPump(s, s', i)
    requires OutHolds(s.sessions[i].out).None? && OutHolds(s'.sessions[i].out) == Some(b)
    requires !Loose(s, b) && Loose(s', b) && forall x: BufId :: x != b ==> Loose(s', x) == Loose(s, x)
    ensures BuffersInv(c, s')
  {
    forall x: BufId | Loose(s', x) ensures Held(s', x) {
      if x != b {
        assert Held(s, x);
      }
    }
  }

  lemma PumpReturns(c: Config, s: State, s': State, i: nat, b: BufId)
    requires BuffersInv(c, s) && PoolOk(c, s') && OnlyPump(s, s', i)
    requires OutHolds(s.sessions[i].out) == Some(b) && OutHolds(s'.sessions[i].out).None?
    requires !Loose(s', b) && forall x: BufId :: x != b ==> Loose(s', x) == Loose(s, x)
    ensures BuffersInv(c, s')
  {
    forall x: BufId | Loose(s', x) ensures Held(s', x) {
      assert Held(s, x);
    }
  }

  predicate MovesBuffer(o: OutAct) {
    o.OGet? || o.OPutUnread? || o.ODiscard? || o.OPut?
  }

  ghost predicate SameArrays(s: State, s': State) {
    && s'.pool == s.pool && s'.collected == s.collected && |s'.mem| == |s.mem|
    && forall b :: 0 <= b < |s.mem| ==> |s'.mem[b]| == |s.mem[b]|
  }

  lemma OutKeepsHolders(c: Config, s: State, i: nat, o: OutAct)
    requires OutEnabled(c, s, i, o) && !MovesBuffer(o)
    ensures SameArrays(s, OutApply(c, s, i, o))
    ensures OutHolds(OutApply(c, s, i, o).sessions[i].out) == OutHolds(s.sessions[i].out)
  {
  }

  lemma BuffersGetStep(c: Config, s: State, i: nat, pick: Option<BufId>)
    requires BuffersInv(c, s) && OutEnabled(c, s, i, OGet(pick))
    ensures BuffersInv(c, OutApply(c, s, i, OGet(pick)))
  {
    var s' := OutApply(c, s, i, OGet(pick));
    var (s1, b) := PoolGet(c, s, pick);
    GetLoosens(c, s, pick);
    assert s1.sessions == s.sessions && s'.sessions[i].out == Reading(b);
    PumpTakes(c, s, s', i, b);
  }

  lemma BuffersPutStep(c: Config, s: State, i: nat, o: OutAct)
    requires BuffersInv(c, s) && OutEnabled(c, s, i, o) && MovesBuffer(o) && !o.OGet?
    ensures BuffersInv(c, OutApply(c, s, i, o))
  {
    var s' := OutApply(c, s, i, o);
    var b := s.sessions[i].out.buf;
    PutTightens(c, s, b);
    var s1 := PoolPut(c, s, b);
    assert s'.pool == s1.pool && s'.mem == s1.mem && s'.collected == s1.collected;
    PumpReturns(c, s, s', i, b);
  }

  lemma BuffersOutStep(c: Config, s: State, i: nat, o: OutAct)
    requires BuffersInv(c, s) && OutEnabled(c, s, i, o)
    ensures BuffersInv(c, OutApply(c, s, i, o))
  {
    if o.OGet? {
      BuffersGetStep(c, s, i, o.pick);
    } else if MovesBuffer(o) {
      BuffersPutStep(c, s, i, o);
    } else {
      OutFrame(c, s, i, o);
      OutKeepsHolders(c, s, i, o);
      HoldersUnchanged(c, s, OutApply(c, s, i, o));
    }
  }

  lemma BuffersMainGet(c: Config, s: State, pick: Option<BufId>)
    requires BuffersInv(c, s) && MainEnabled(c, s, MGet(pick))
    ensures BuffersInv(c, MainApply(c, s, MGet(pick)))
  {
    var s' := MainApply(c, s, MGet(pick));
    var (s1, b) := PoolGet(c, s, pick);
    GetLoosens(c, s, pick);
    assert MainHolds(s'.main) == Some(b);
    forall x: BufId | Loose(s', x) ensures Held(s', x) {
      if x != b {
        assert Loose(s, x) && Held(s, x);
      }
    }
  }

  lemma BuffersMainPut(c: Config, s: State)
    requires BuffersInv(c, s) && MainEnabled(c, s, MPut)
    ensures BuffersInv(c, MainApply(c, s, MPut))
  {
    var s' := MainApply(c, s, MPut);
    PutTightens(c, s, s.main.buf);
    forall x: BufId | Loose(s', x) ensures Held(s', x) {
      assert Held(s, x);
    }
  }

  lemma MainKeepsHolders(c: Config, s: State, m: MainAct)
    requires MainEnabled(c, s, m) && !m.MGet? && !m.MPut?
    ensures var s' := MainApply(c, s, m);
            && SameArrays(s, s') && MainHolds(s'.main) == MainHolds(s.main) && |s'.sessions| >= |s.sessions|
            && (forall i :: 0 <= i < |s.sessions| ==> s'.sessions[i].out == s.sessions[i].out)
            && (forall i :: |s.sessions| <= i < |s'.sessions| ==> OutHolds(s'.sessions[i].out).None?)
  {
  }

  lemma BuffersMainStep(c: Config, s: State, m: MainAct)
    requires BuffersInv(c, s) && MainEnabled(c, s, m)
    ensures BuffersInv(c, MainApply(c, s, m))
  {
    if m.MGet? {
      BuffersMainGet(c, s, m.pick);
    } else if m.MPut? {
      BuffersMainPut(c, s);
    } else {
      MainKeepsHolders(c, s, m);
      HoldersUnchanged(c, s, MainApply(c, s, m));
    }
  }
}
