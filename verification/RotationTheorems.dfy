// Consistency of the server's key, the stored key, the stored certificate and the configuration.
module RotationTheorems {
  import opened Basics
  import opened Rotation

  // ---- names ----

  /** Secrets of different kinds or different connections have different names, for all uuid strings. */
  lemma NamesInjective(k: Kind, u: Uuid, k': Kind, u': Uuid)
    requires Name(k, u) == Name(k', u')
    ensures k == k' && u == u'
  {
    var n, n' := Name(k, u), Name(k', u');
    assert n[0] == Prefix(k)[0] && n'[0] == Prefix(k')[0] && n[7] == Prefix(k)[7] && n'[7] == Prefix(k')[7];
    assert n[|Prefix(k)|..] == u && n'[|Prefix(k)|..] == u';
  }

  /** The stores agree on every secret of connection v. */
  ghost predicate SameSecrets(st: Store, st': Store, v: Uuid) {
    forall k: Kind :: (Name(k, v) in st <==> Name(k, v) in st') && (Name(k, v) in st ==> st[Name(k, v)] == st'[Name(k, v)])
  }

  lemma PutKeepsOthers(st: Store, k: Kind, u: Uuid, x: Secret, v: Uuid)
    requires u != v
    ensures SameSecrets(st, st[Name(k, u) := x], v)
  {
    forall k': Kind ensures Name(k', v) != Name(k, u) {
      if Name(k', v) == Name(k, u) {
        NamesInjective(k', v, k, u);
        assert false;
      }
    }
  }

  // ---- what one command can change ----

  /** Nothing of any connection but u differs. */
  ghost predicate OnlyTouches(w: World, w': World, u: Uuid) {
    && w'.config.Keys == w.config.Keys
    && (forall v :: v in w.config && v != u ==> w'.config[v] == w.config[v])
    && (forall v :: v != u ==> SameSecrets(w.store, w'.store, v))
  }

  lemma StoreKeyKeepsOthers(st: Store, u: Uuid, k: Key, endpointKey: string, s: StoreScript, v: Uuid)
    requires u != v
    ensures SameSecrets(st, StoreKey(st, u, k, endpointKey, s).0, v)
    ensures SameSecrets(st, StoreEndpoint(st, u, endpointKey, s).0, v)
  {
    var st1 := st[Name(MasquePrivkey, u) := PrivateKey(k)];
    var st2 := st1[Name(MasqueCert, u) := Certificate(k)];
    PutKeepsOthers(st, MasquePrivkey, u, PrivateKey(k), v);
    PutKeepsOthers(st1, MasqueCert, u, Certificate(k), v);
    PutKeepsOthers(st2, EndpointPubkey, u, Text(endpointKey), v);
    PutKeepsOthers(st, EndpointPubkey, u, Text(endpointKey), v);
  }

  /** Enrolment of u touches no other connection's secrets or configuration, however it ends. */
  lemma EnrollTouchesOnly(w: World, u: Uuid, s: EnrollScript)
    ensures OnlyTouches(w, Enroll(w, u, s).0, u)
  {
    var w' := Enroll(w, u, s).0;
    forall v | v != u ensures SameSecrets(w.store, w'.store, v) {
      if s.keypair.Some? && s.reply.Accepted? {
        StoreKeyKeepsOthers(w.store, u, s.keypair.value, s.reply.endpointKey, s.puts, v);
      }
    }
  }

  lemma StoredTouchesOnly(w: World, u: Uuid, s: RegisterScript, c: Conn, status: Status, peerKey: string)
    requires s.wireguardKey.Some? && s.reply.Account? && (status.Enrolled? ==> s.enroll.keypair.Some?)
    ensures OnlyTouches(w, RegisterStored(w, u, s, c, status, peerKey).0, u)
  {
    var w' := RegisterStored(w, u, s, c, status, peerKey).0;
    var st0 := w.store[Name(DeviceToken, u) := Text(s.reply.token)];
    forall v | v != u ensures SameSecrets(w.store, w'.store, v) {
      PutKeepsOthers(w.store, DeviceToken, u, Text(s.reply.token), v);
      StoreKeyKeepsOthers(st0, u, if s.enroll.keypair.Some? then s.enroll.keypair.value else 0, peerKey, s.enroll.puts, v);
      var st1 := if status.Enrolled? then StoreKey(st0, u, s.enroll.keypair.value, peerKey, s.enroll.puts).0
                 else StoreEndpoint(st0, u, peerKey, s.enroll.puts).0;
      PutKeepsOthers(st1, WgPrivkey, u, Text(s.wireguardKey.value), v);
    }
  }

  /** So does registration. */
  lemma RegisterTouchesOnly(w: World, u: Uuid, s: RegisterScript)
    ensures OnlyTouches(w, Register(w, u, s).0, u)
  {
    if u in w.config && s.wireguardKey.Some? && s.reply.Account? {
      StoredTouchesOnly(w, u, s, w.config[u], Registered, s.reply.peerKey);
      if s.enroll.keypair.Some? && s.enroll.reply.Accepted? {
        var w1 := w.(server := w.server[s.reply.deviceId := s.enroll.keypair.value]);
        StoredTouchesOnly(w1, u, s, w.config[u], Enrolled, s.enroll.reply.endpointKey);
      }
    }
  }

  // ---- consistency ----

  predicate HasKeyAndCert(st: Store, u: Uuid) {
    && Name(MasquePrivkey, u) in st && st[Name(MasquePrivkey, u)].PrivateKey?
    && Name(MasqueCert, u) in st && st[Name(MasqueCert, u)].Certificate?
  }

  /** An enrolled connection has a stored private key and a stored certificate. */
  ghost predicate EnrolledHaveKeys(w: World) {
    forall u :: u in w.config && w.config[u].status.Enrolled? ==> HasKeyAndCert(w.store, u)
  }

  /** The stored private key and the stored certificate are of key pair k, and so is the server's key. */
  predicate OnePair(w: World, u: Uuid, k: Key) {
    && u in w.config && w.config[u].deviceId in w.server && w.server[w.config[u].deviceId] == k
    && HasKeyAndCert(w.store, u)
    && w.store[Name(MasquePrivkey, u)].k == k && w.store[Name(MasqueCert, u)].k == k
  }

  lemma NamesApart(u: Uuid)
    ensures forall k, k': Kind :: k != k' ==> Name(k, u) != Name(k', u)
  {
    forall k: Kind, k': Kind | Name(k, u) == Name(k', u) ensures k == k' {
      NamesInjective(k, u, k', u);
    }
  }

  /** Storing key k: an ok leaves key and certificate of k; whatever happens, present stays present. */
  lemma StoreKeyPairs(st: Store, u: Uuid, k: Key, endpointKey: string, s: StoreScript)
    ensures var (st', r) := StoreKey(st, u, k, endpointKey, s);
            && (HasKeyAndCert(st, u) ==> HasKeyAndCert(st', u))
            && (r == Ok ==> HasKeyAndCert(st', u) && st'[Name(MasquePrivkey, u)].k == k && st'[Name(MasqueCert, u)].k == k)
  {
    NamesApart(u);
  }

  /** An ok enrolment leaves server key, stored key and certificate of the one new pair, and the connection enrolled. */
  lemma EnrollOkMeansOnePair(w: World, u: Uuid, s: EnrollScript)
    requires Enroll(w, u, s).1 == Ok
    ensures s.keypair.Some? && OnePair(Enroll(w, u, s).0, u, s.keypair.value)
    ensures Enroll(w, u, s).0.config[u].status.Enrolled? && Enroll(w, u, s).0.config[u].stamp == At(s.now / 1_000_000)
  {
    StoreKeyPairs(w.store, u, s.keypair.value, s.reply.endpointKey, s.puts);
  }

  /** So does an ok registration of a MASQUE connection, for the new device. */
  lemma RegisterOkMeansOnePair(w: World, u: Uuid, s: RegisterScript)
    requires Register(w, u, s).1 == Ok && w.config[u].protocol.Masque?
    ensures s.enroll.keypair.Some? && OnePair(Register(w, u, s).0, u, s.enroll.keypair.value)
    ensures Register(w, u, s).0.config[u].deviceId == s.reply.deviceId
  {
    NamesApart(u);
    var st0 := w.store[Name(DeviceToken, u) := Text(s.reply.token)];
    StoreKeyPairs(st0, u, s.enroll.keypair.value, s.enroll.reply.endpointKey, s.enroll.puts);
  }

  /** A request the API refuses leaves store and configuration as they were. */
  lemma RefusalChangesNothingHere(w: World, u: Uuid, e: EnrollScript, g: RegisterScript)
    ensures e.reply.Refused? || e.keypair.None? ==>
              Enroll(w, u, e).1 == Failed && Enroll(w, u, e).0.store == w.store && Enroll(w, u, e).0.config == w.config
    ensures g.reply.RegRefused? || (u in w.config && w.config[u].protocol.Masque? && (g.enroll.reply.Refused? || g.enroll.keypair.None?)) ==>
              Register(w, u, g).1 == Failed && Register(w, u, g).0.store == w.store && Register(w, u, g).0.config == w.config
  {
  }

  lemma EnrollKeepsKeys(w: World, u: Uuid, s: EnrollScript)
    requires EnrolledHaveKeys(w)
    ensures EnrolledHaveKeys(Enroll(w, u, s).0)
  {
    var w' := Enroll(w, u, s).0;
    EnrollTouchesOnly(w, u, s);
    forall v | v in w'.config && w'.config[v].status.Enrolled? ensures HasKeyAndCert(w'.store, v) {
      if v != u {
        assert SameSecrets(w.store, w'.store, v);
      } else if s.keypair.Some? && s.reply.Accepted? {
        StoreKeyPairs(w.store, u, s.keypair.value, s.reply.endpointKey, s.puts);
      }
    }
  }

  lemma StoredKeepsKeys(w: World, u: Uuid, s: RegisterScript, c: Conn, status: Status, peerKey: string)
    requires EnrolledHaveKeys(w) && s.wireguardKey.Some? && s.reply.Account? && (status.Enrolled? ==> s.enroll.keypair.Some?)
    ensures EnrolledHaveKeys(RegisterStored(w, u, s, c, status, peerKey).0)
  {
    var w' := RegisterStored(w, u, s, c, status, peerKey).0;
    var st0 := w.store[Name(DeviceToken, u) := Text(s.reply.token)];
    StoredTouchesOnly(w, u, s, c, status, peerKey);
    NamesApart(u);
    if status.Enrolled? {
      StoreKeyPairs(st0, u, s.enroll.keypair.value, peerKey, s.enroll.puts);
    }
    forall v | v in w'.config && w'.config[v].status.Enrolled? ensures HasKeyAndCert(w'.store, v) {
      if v != u {
        assert SameSecrets(w.store, w'.store, v);
      }
    }
  }

  lemma RegisterKeepsKeys(w: World, u: Uuid, s: RegisterScript)
    requires EnrolledHaveKeys(w)
    ensures EnrolledHaveKeys(Register(w, u, s).0)
  {
    if u in w.config && s.wireguardKey.Some? && s.reply.Account? {
      StoredKeepsKeys(w, u, s, w.config[u], Registered, s.reply.peerKey);
      if s.enroll.keypair.Some? && s.enroll.reply.Accepted? {
        var w1 := w.(server := w.server[s.reply.deviceId := s.enroll.keypair.value]);
        StoredKeepsKeys(w1, u, s, w.config[u], Enrolled, s.enroll.reply.endpointKey);
      }
    }
  }

  // ---- sequences of commands ----

  datatype Command =
    | DoRegister(u: Uuid, reg: RegisterScript)
    | DoEnroll(u: Uuid, enroll: EnrollScript)
    | DoCheck(order: seq<Uuid>, now: int, scripts: seq<EnrollScript>)

  predicate Runnable(w: World, c: Command) {
    c.DoCheck? ==> Ordered(w.config, c.order) && |c.scripts| == |c.order|
  }

  lemma {:induction false} DueListBounded(config: Config, order: seq<Uuid>, now: int, k: nat)
    requires k <= |order| && forall i :: 0 <= i < |order| ==> order[i] in config
    ensures |DueList(config, order, now, k)| <= k
  {
    if k > 0 {
      DueListBounded(config, order, now, k - 1);
    }
  }

  function Exec(w: World, c: Command): World
    requires Runnable(w, c)
  {
    match c
    case DoRegister(u, s) => Register(w, u, s).0
    case DoEnroll(u, s) => Enroll(w, u, s).0
    case DoCheck(order, now, scripts) =>
      var due := DueList(w.config, order, now, |order|);
      DueListBounded(w.config, order, now, |order|);
      Rotated(w, due, scripts, |due|).0
  }

  ghost predicate RunnableAll(w: World, cs: seq<Command>)
    decreases |cs|
  {
    cs == [] || (Runnable(w, cs[0]) && RunnableAll(Exec(w, cs[0]), cs[1..]))
  }

  function ExecAll(w: World, cs: seq<Command>): World
    requires RunnableAll(w, cs)
    decreases |cs|
  {
    if cs == [] then w else ExecAll(Exec(w, cs[0]), cs[1..])
  }

  lemma {:induction false} RotatedKeepsKeys(w: World, due: seq<Uuid>, scripts: seq<EnrollScript>, k: nat)
    requires k <= |due| <= |scripts| && EnrolledHaveKeys(w)
    ensures EnrolledHaveKeys(Rotated(w, due, scripts, k).0)
  {
    if k > 0 {
      RotatedKeepsKeys(w, due, scripts, k - 1);
      EnrollKeepsKeys(Rotated(w, due, scripts, k - 1).0, due[k - 1], scripts[k - 1]);
    }
  }

  /** Over every sequence of commands, with failures anywhere, every enrolled connection has its key and certificate. */
  lemma {:induction false} EnrolledAlwaysHaveKeys(w: World, cs: seq<Command>)
    requires EnrolledHaveKeys(w) && RunnableAll(w, cs)
    ensures EnrolledHaveKeys(ExecAll(w, cs))
    decreases |cs|
  {
    if cs == [] {
    } else {
      match cs[0] {
        case DoRegister(u, s) => RegisterKeepsKeys(w, u, s);
        case DoEnroll(u, s) => EnrollKeepsKeys(w, u, s);
        case DoCheck(order, now, scripts) =>
          var due := DueList(w.config, order, now, |order|);
          DueListBounded(w.config, order, now, |order|);
          RotatedKeepsKeys(w, due, scripts, |due|);
      }
      EnrolledAlwaysHaveKeys(Exec(w, cs[0]), cs[1..]);
    }
  }

  /**
   * The mismatch: once the server has accepted a new key and the private key is stored, the stored
   * pair matches again exactly when the certificate was generated and stored too. A failed
   * certificate leaves the new private key beside the old certificate.
   */
  lemma PairMatchesExactlyWhenCertificateStored(w: World, u: Uuid, s: EnrollScript)
    requires u in w.config && w.config[u].deviceId != "" && HasToken(w.store, u)
    requires s.keypair.Some? && s.reply.Accepted? && s.puts.privPut
    requires HasKeyAndCert(w.store, u) && w.store[Name(MasqueCert, u)].k != s.keypair.value
    ensures var st := Enroll(w, u, s).0.store;
            && HasKeyAndCert(st, u)
            && (st[Name(MasquePrivkey, u)].k == st[Name(MasqueCert, u)].k <==> s.puts.certMade && s.puts.certPut)
    ensures !(s.puts.certMade && s.puts.certPut) ==> Enroll(w, u, s).1 == Failed && Enroll(w, u, s).0.config == w.config
  {
    NamesApart(u);
  }

  /** Server key, stored key and stored certificate are of one pair. */
  predicate Agree(w: World, u: Uuid) {
    u in w.config && w.config[u].deviceId in w.server && OnePair(w, u, w.server[w.config[u].deviceId])
  }

  /** cmd_enroll gets as far as sending a key to the server. */
  predicate SendsKey(w: World, u: Uuid, s: EnrollScript) {
    u in w.config && w.config[u].deviceId != "" && HasToken(w.store, u) && s.keypair.Some?
  }

  /**
   * An enrolment with a new key, however it ends, leaves the three in agreement exactly when it sent
   * no key, or the server refused it for good, or the key and its certificate were both stored. The
   * endpoint key and the configuration do not matter.
   */
  lemma EnrollAgreesExactlyWhen(w: World, u: Uuid, s: EnrollScript)
    requires Agree(w, u) && (s.keypair.Some? ==> s.keypair.value != w.server[w.config[u].deviceId])
    ensures Agree(Enroll(w, u, s).0, u)
       <==> || !SendsKey(w, u, s)
            || (if s.reply.Refused? then !s.reply.committed else s.puts.privPut && s.puts.certMade && s.puts.certPut)
  {
    NamesApart(u);
  }

  /**
   * A new key for v that reached the server leaves another connection in agreement exactly when the
   * two are not registered as the same device.
   */
  lemma OthersAgreeExactlyWhen(w: World, v: Uuid, s: EnrollScript, u: Uuid)
    requires u != v && Agree(w, u) && SendsKey(w, v, s) && (s.reply.Accepted? || s.reply.committed)
    requires s.keypair.value != w.server[w.config[u].deviceId]
    ensures Agree(Enroll(w, v, s).0, u) <==> w.config[u].deviceId != w.config[v].deviceId
  {
    var w' := Enroll(w, v, s).0;
    EnrollTouchesOnly(w, v, s);
    assert SameSecrets(w.store, w'.store, u);
    assert w'.server == w.server[w.config[v].deviceId := s.keypair.value];
  }

  /** cmd_register gets as far as storing secrets. */
  predicate Registers(w: World, u: Uuid, s: RegisterScript) {
    && u in w.config && !w.config[u].protocol.Cloudflared? && s.wireguardKey.Some?
    && s.reply.Account? && s.reply.deviceId != "" && s.reply.token != ""
    && (w.config[u].protocol.Masque? ==> s.enroll.keypair.Some? && s.enroll.reply.Accepted?)
  }

  /** Every write of steps 4 and 5 of cmd_register succeeds. */
  predicate Completes(w: World, u: Uuid, s: RegisterScript)
    requires Registers(w, u, s)
  {
    var masque := w.config[u].protocol.Masque?;
    var peerKey := if masque then s.enroll.reply.endpointKey else s.reply.peerKey;
    && s.tokenPut && (masque ==> s.enroll.puts.privPut && s.enroll.puts.certMade && s.enroll.puts.certPut)
    && (peerKey == "" || s.enroll.puts.endpointPut)
    && s.wgPut && s.enroll.writable && UuidOk(u)
  }

  lemma CompletesExactlyOk(w: World, u: Uuid, s: RegisterScript)
    ensures Register(w, u, s).1 == Ok <==> Registers(w, u, s) && Completes(w, u, s)
    ensures !Registers(w, u, s) ==> Register(w, u, s).0.config == w.config && Register(w, u, s).0.store == w.store
  {
  }

  /**
   * A registration for a new device of a connection that was in agreement keeps it so exactly when
   * it stored no private key or went through to the end: until the configuration is written the
   * stored key is the new device's and the device id the old one.
   */
  lemma RegisterAgreesExactlyWhen(w: World, u: Uuid, s: RegisterScript)
    requires Agree(w, u) && w.config[u].protocol.Masque?
    requires s.enroll.keypair.Some? ==> s.enroll.keypair.value != w.server[w.config[u].deviceId]
    requires s.reply.Account? ==> s.reply.deviceId !in w.server
    ensures Agree(Register(w, u, s).0, u)
       <==> !(Registers(w, u, s) && s.tokenPut && s.enroll.puts.privPut) || Completes(w, u, s)
  {
    NamesApart(u);
    CompletesExactlyOk(w, u, s);
    if Registers(w, u, s) {
      StoredAgreement(w, u, s);
    }
  }

  lemma StoredAgreement(w: World, u: Uuid, s: RegisterScript)
    requires Agree(w, u) && w.config[u].protocol.Masque? && Registers(w, u, s)
    requires s.enroll.keypair.value != w.server[w.config[u].deviceId]
    requires s.reply.deviceId !in w.server
    ensures var w' := Register(w, u, s).0;
            && HasKeyAndCert(w'.store, u)
            && w'.config[u].deviceId == (if Completes(w, u, s) then s.reply.deviceId else w.config[u].deviceId)
            && w'.server == w.server[s.reply.deviceId := s.enroll.keypair.value]
            && (s.tokenPut && s.enroll.puts.privPut ==> w'.store[Name(MasquePrivkey, u)].k == s.enroll.keypair.value)
            && (!(s.tokenPut && s.enroll.puts.privPut) ==>
                  && w'.store[Name(MasquePrivkey, u)] == w.store[Name(MasquePrivkey, u)]
                  && w'.store[Name(MasqueCert, u)] == w.store[Name(MasqueCert, u)])
            && (Completes(w, u, s) ==> w'.store[Name(MasqueCert, u)].k == s.enroll.keypair.value)
  {
    NamesApart(u);
    var st0 := w.store[Name(DeviceToken, u) := Text(s.reply.token)];
    StoreKeyPairs(st0, u, s.enroll.keypair.value, s.enroll.reply.endpointKey, s.enroll.puts);
  }

  /** The configuration names the device that the stored token is for. */
  predicate TokenFor(w: World, u: Uuid, deviceId: string, token: string) {
    u in w.config && w.config[u].deviceId == deviceId
    && Name(DeviceToken, u) in w.store && w.store[Name(DeviceToken, u)] == Text(token)
  }

  /**
   * After a registration for a new device, stored token and device id belong together exactly when
   * the token was not stored or the registration went through to the end.
   */
  lemma TokenMatchesExactlyWhen(w: World, u: Uuid, s: RegisterScript, token: string)
    requires u in w.config && TokenFor(w, u, w.config[u].deviceId, token)
    requires s.reply.Account? ==> s.reply.deviceId != w.config[u].deviceId && s.reply.token != token
    ensures || TokenFor(Register(w, u, s).0, u, w.config[u].deviceId, token)
            || (s.reply.Account? && TokenFor(Register(w, u, s).0, u, s.reply.deviceId, s.reply.token))
       <==> !(Registers(w, u, s) && s.tokenPut) || Completes(w, u, s)
  {
    NamesApart(u);
    CompletesExactlyOk(w, u, s);
    if Registers(w, u, s) {
      TokenAfter(w, u, s, token);
    }
  }

  lemma TokenAfter(w: World, u: Uuid, s: RegisterScript, token: string)
    requires u in w.config && TokenFor(w, u, w.config[u].deviceId, token) && Registers(w, u, s)
    ensures var w' := Register(w, u, s).0;
            && w'.config[u].deviceId == (if Completes(w, u, s) then s.reply.deviceId else w.config[u].deviceId)
            && Name(DeviceToken, u) in w'.store
            && w'.store[Name(DeviceToken, u)] == Text(if s.tokenPut then s.reply.token else token)
  {
    NamesApart(u);
  }

  // ---- rotation spacing ----

  /** A due connection with a valid stamp has had it for at least its rotation period, to the second. */
  lemma DueMeansOld(c: Conn, now: int)
    requires c.stamp.At?
    ensures Due(c, now) <==> c.autoRotate && !c.status.Unregistered? && now >= (c.stamp.seconds + c.days * 86400) * 1_000_000
  {
    var d := now - c.stamp.seconds * MICROS;
    assert d / (DAY * MICROS) >= c.days <==> d >= c.days * (DAY * MICROS);
  }

  lemma {:induction false} DueListIs(config: Config, order: seq<Uuid>, now: int, k: nat)
    requires k <= |order| && forall i :: 0 <= i < |order| ==> order[i] in config
    ensures var due := DueList(config, order, now, k);
            && |due| <= k
            && (forall i :: 0 <= i < k ==> (order[i] in due <==> Due(config[order[i]], now) || order[i] in due))
            && (forall u :: u in due ==> u in order[..k] && Due(config[u], now))
            && (forall i :: 0 <= i < k && Due(config[order[i]], now) ==> order[i] in due)
  {
    if k > 0 {
      DueListIs(config, order, now, k - 1);
      assert order[..k] == order[..k - 1] + [order[k - 1]];
    }
  }

  lemma {:induction false} DueListDistinct(config: Config, order: seq<Uuid>, now: int, k: nat)
    requires k <= |order| && Ordered(config, order)
    ensures var due := DueList(config, order, now, k);
            forall i, j :: 0 <= i < j < |due| ==> due[i] != due[j]
  {
    if k > 0 {
      DueListDistinct(config, order, now, k - 1);
      DueListIs(config, order, now, k - 1);
    }
  }

  /** Results once noted stay. */
  lemma {:induction false} ResultsGrow(w: World, due: seq<Uuid>, scripts: seq<EnrollScript>, i: nat, k: nat)
    requires i <= k <= |due| <= |scripts|
    ensures Rotated(w, due, scripts, i).1 <= Rotated(w, due, scripts, k).1
  {
    if i < k {
      ResultsGrow(w, due, scripts, i, k - 1);
      OneGrows(w, due, scripts, k - 1);
    }
  }

  lemma OneGrows(w: World, due: seq<Uuid>, scripts: seq<EnrollScript>, k: nat)
    requires k < |due| <= |scripts|
    ensures Rotated(w, due, scripts, k).1 <= Rotated(w, due, scripts, k + 1).1
  {
  }

  lemma OneTrial(w: World, due: seq<Uuid>, scripts: seq<EnrollScript>, k: nat)
    requires k < |due| <= |scripts| && !Broken(Rotated(w, due, scripts, k).1)
    ensures var (before, results) := Rotated(w, due, scripts, k);
            var (after, r) := Enroll(before, due[k], scripts[k]);
            Rotated(w, due, scripts, k + 1) == (after, results + [r])
  {
  }

  /** Trial i is the enrolment of the i-th due connection in the world the trials before it left. */
  lemma TrialIs(w: World, due: seq<Uuid>, scripts: seq<EnrollScript>, k: nat, i: nat)
    requires i < k <= |due| <= |scripts| && i < |Rotated(w, due, scripts, k).1|
    ensures Rotated(w, due, scripts, k).1[i] == Enroll(Rotated(w, due, scripts, i).0, due[i], scripts[i]).1
  {
    OnlyLastRaised(w, due, scripts, i);
    if Broken(Rotated(w, due, scripts, i).1) {
      BrokenStays(w, due, scripts, i, k);
    } else {
      OneTrial(w, due, scripts, i);
      ResultsGrow(w, due, scripts, i + 1, k);
    }
  }

  /** The results of a whole check. */
  function Results(w: World, order: seq<Uuid>, now: int, scripts: seq<EnrollScript>): (r: seq<Result>)
    requires Ordered(w.config, order) && |scripts| == |order|
    ensures |r| <= |DueList(w.config, order, now, |order|)|
  {
    var due := DueList(w.config, order, now, |order|);
    DueListBounded(w.config, order, now, |order|);
    OnlyLastRaised(w, due, scripts, |due|);
    Rotated(w, due, scripts, |due|).1
  }

  /** The connections for which a trial was made, in order. */
  function Tried(w: World, order: seq<Uuid>, now: int, scripts: seq<EnrollScript>): seq<Uuid>
    requires Ordered(w.config, order) && |scripts| == |order|
  {
    DueList(w.config, order, now, |order|)[..|Results(w, order, now, scripts)|]
  }

  // ---- which trials raise ----

  /**
   * The guard of the branches of cmd_enroll that raise: after the server accepted a key, the store
   * refuses the private key, or refuses a new endpoint key once the certificate is stored.
   */
  predicate WouldRaise(w: World, u: Uuid, s: EnrollScript) {
    && SendsKey(w, u, s) && s.reply.Accepted?
    && (|| !s.puts.privPut
        || (s.puts.certMade && s.puts.certPut && s.reply.endpointKey != "" && !s.puts.endpointPut))
  }

  lemma EnrollRaisesExactlyWhen(w: World, u: Uuid, s: EnrollScript)
    ensures Enroll(w, u, s).1 == Raised <==> WouldRaise(w, u, s)
  {
  }

  /** The worlds agree on what an enrolment of v looks at before it writes. */
  ghost predicate SameFor(w: World, w': World, v: Uuid) {
    && (v in w.config <==> v in w'.config) && (v in w.config ==> w.config[v] == w'.config[v])
    && SameSecrets(w.store, w'.store, v)
  }

  lemma SameForTrial(w: World, u: Uuid, s: EnrollScript, v: Uuid)
    requires u != v
    ensures SameFor(w, Enroll(w, u, s).0, v)
  {
    EnrollTouchesOnly(w, u, s);
  }

  lemma SameForChain(w: World, w': World, w'': World, v: Uuid)
    requires SameFor(w, w', v) && SameFor(w', w'', v)
    ensures SameFor(w, w'', v)
  {
  }

  /** The first k trials leave the configuration and secrets of the other connections alone. */
  lemma {:induction false} TrialsLeaveOthers(w: World, due: seq<Uuid>, scripts: seq<EnrollScript>, k: nat, v: Uuid)
    requires k <= |due| <= |scripts| && v !in due[..k]
    ensures SameFor(w, Rotated(w, due, scripts, k).0, v)
  {
    if k > 0 {
      assert due[..k] == due[..k - 1] + [due[k - 1]];
      TrialsLeaveOthers(w, due, scripts, k - 1, v);
      var before := Rotated(w, due, scripts, k - 1);
      if !Broken(before.1) {
        OneTrial(w, due, scripts, k - 1);
        SameForTrial(before.0, due[k - 1], scripts[k - 1], v);
        SameForChain(w, before.0, Rotated(w, due, scripts, k).0, v);
      }
    }
  }

  lemma SameForRaises(w: World, w': World, v: Uuid, s: EnrollScript)
    requires SameFor(w, w', v)
    ensures WouldRaise(w, v, s) <==> WouldRaise(w', v, s)
  {
    assert Name(DeviceToken, v) in w.store <==> Name(DeviceToken, v) in w'.store;
  }

  /** The i-th trial, if it is made, raises exactly when it would raise in the world before the check. */
  lemma TrialRaisesExactlyWhen(w: World, due: seq<Uuid>, scripts: seq<EnrollScript>, i: nat)
    requires |due| <= |scripts| && i < |Rotated(w, due, scripts, |due|).1| && i < |due|
    requires forall j, k :: 0 <= j < k < |due| ==> due[j] != due[k]
    ensures Rotated(w, due, scripts, |due|).1[i] == Raised <==> WouldRaise(w, due[i], scripts[i])
  {
    var before := Rotated(w, due, scripts, i).0;
    TrialIs(w, due, scripts, |due|, i);
    TrialsLeaveOthers(w, due, scripts, i, due[i]);
    SameForRaises(w, before, due[i], scripts[i]);
    EnrollRaisesExactlyWhen(before, due[i], scripts[i]);
  }

  /**
   * The i-th due connection is tried exactly when none before it would raise, seen from the world
   * before the check.
   */
  lemma TriedExactlyWhen(w: World, order: seq<Uuid>, now: int, scripts: seq<EnrollScript>, i: nat)
    requires Ordered(w.config, order) && |scripts| == |order|
    requires i < |DueList(w.config, order, now, |order|)|
    ensures |DueList(w.config, order, now, |order|)| <= |scripts|
    ensures i < |Results(w, order, now, scripts)|
       <==> forall j :: 0 <= j < i ==> !WouldRaise(w, DueList(w.config, order, now, |order|)[j], scripts[j])
  {
    var due := DueList(w.config, order, now, |order|);
    DueListBounded(w.config, order, now, |order|);
    DueListDistinct(w.config, order, now, |order|);
    OnlyLastRaised(w, due, scripts, |due|);
    var results := Results(w, order, now, scripts);
    if i < |results| {
      forall j | 0 <= j < i ensures !WouldRaise(w, due[j], scripts[j]) {
        TrialRaisesExactlyWhen(w, due, scripts, j);
      }
    } else {
      var j := |results| - 1;
      assert Broken(results) && results[j] == Raised;
      TrialRaisesExactlyWhen(w, due, scripts, j);
    }
  }

  /** Some trial raises exactly when a due connection would raise, seen from the world before the check. */
  lemma RaisesExactlyWhen(w: World, order: seq<Uuid>, now: int, scripts: seq<EnrollScript>)
    requires Ordered(w.config, order) && |scripts| == |order|
    ensures |DueList(w.config, order, now, |order|)| <= |scripts|
    ensures var due := DueList(w.config, order, now, |order|);
            Broken(Results(w, order, now, scripts)) <==> exists i :: 0 <= i < |due| && WouldRaise(w, due[i], scripts[i])
  {
    var due, results := DueList(w.config, order, now, |order|), Results(w, order, now, scripts);
    DueListBounded(w.config, order, now, |order|);
    DueListDistinct(w.config, order, now, |order|);
    OnlyLastRaised(w, due, scripts, |due|);
    if Broken(results) {
      TrialRaisesExactlyWhen(w, due, scripts, |results| - 1);
    } else {
      forall i | 0 <= i < |due| ensures !WouldRaise(w, due[i], scripts[i]) {
        assert i < |results| - 1 ==> results[i] != Raised;
        TrialRaisesExactlyWhen(w, due, scripts, i);
      }
    }
  }

  /** Before u's turn comes a due connection whose trial would raise. */
  ghost predicate BehindRaise(w: World, order: seq<Uuid>, now: int, scripts: seq<EnrollScript>, u: Uuid)
    requires Ordered(w.config, order) && |scripts| == |order|
  {
    DueListBounded(w.config, order, now, |order|);
    var due := DueList(w.config, order, now, |order|);
    exists j, i :: 0 <= j < i < |due| && due[i] == u && WouldRaise(w, due[j], scripts[j])
  }

  /** A check tries each due connection exactly once unless it is behind one that would raise, and tries nothing else. */
  lemma CheckTriesDueOnce(w: World, order: seq<Uuid>, now: int, scripts: seq<EnrollScript>, u: Uuid)
    requires Ordered(w.config, order) && |scripts| == |order| && u in order
    ensures multiset(Tried(w, order, now, scripts))[u]
         == if Due(w.config[u], now) && !BehindRaise(w, order, now, scripts, u) then 1 else 0
  {
    var due, results := DueList(w.config, order, now, |order|), Results(w, order, now, scripts);
    DueListIs(w.config, order, now, |order|);
    DueListDistinct(w.config, order, now, |order|);
    DistinctCount(due[..|results|], u);
    if u in due {
      var i :| 0 <= i < |due| && due[i] == u;
      TriedExactlyWhen(w, order, now, scripts, i);
      assert u in due[..|results|] <==> i < |results|;
      assert BehindRaise(w, order, now, scripts, u) <==> exists j :: 0 <= j < i && WouldRaise(w, due[j], scripts[j]);
    }
  }

  // ---- a check that ends early ----

  const TOKEN := Text("token")

  function DueConn(): Conn {
    Conn(Masque, "device", Enrolled, Never, true, 30)
  }

  /** Two due connections with a device token each. */
  function TwoDue(u: Uuid, v: Uuid): World {
    World(map[], map[Name(DeviceToken, u) := TOKEN, Name(DeviceToken, v) := TOKEN], map[u := DueConn(), v := DueConn()])
  }

  function KeyPut(stored: bool): EnrollScript {
    EnrollScript(Some(1), Accepted(""), StoreScript(stored, true, true, true), true, 0)
  }

  /** What the server has after the refused put. */
  function OneSent(u: Uuid, v: Uuid): World {
    TwoDue(u, v).(server := map["device" := 1])
  }

  lemma FirstRaises(u: Uuid, v: Uuid)
    requires u != v
    ensures Enroll(TwoDue(u, v), u, KeyPut(false)) == (OneSent(u, v), Raised)
  {
    assert HasToken(TwoDue(u, v).store, u);
  }

  lemma SecondWouldSucceed(u: Uuid, v: Uuid)
    requires u != v && UuidOk(v)
    ensures Enroll(OneSent(u, v), v, KeyPut(true)).1 == Ok
  {
    assert HasToken(OneSent(u, v).store, v);
  }

  lemma BothDue(u: Uuid, v: Uuid)
    requires u != v
    ensures Ordered(TwoDue(u, v).config, [u, v]) && DueList(TwoDue(u, v).config, [u, v], 0, 2) == [u, v]
  {
    var config := TwoDue(u, v).config;
    assert config.Keys == {u, v};
    assert Ordered(config, [u, v]);
    assert DueList(config, [u, v], 0, 1) == [u];
  }

  /** The store refuses u's key: v is never tried, although its own rotation would have gone through. */
  lemma RaiseStopsCheck(u: Uuid, v: Uuid)
    requires u != v && UuidOk(v)
    ensures Ordered(TwoDue(u, v).config, [u, v]) && DueList(TwoDue(u, v).config, [u, v], 0, 2) == [u, v]
    ensures Results(TwoDue(u, v), [u, v], 0, [KeyPut(false), KeyPut(true)]) == [Raised]
    ensures Tried(TwoDue(u, v), [u, v], 0, [KeyPut(false), KeyPut(true)]) == [u]
    ensures Enroll(Enroll(TwoDue(u, v), u, KeyPut(false)).0, v, KeyPut(true)).1 == Ok
  {
    var w, due, scripts := TwoDue(u, v), [u, v], [KeyPut(false), KeyPut(true)];
    BothDue(u, v);
    FirstRaises(u, v);
    SecondWouldSucceed(u, v);
    assert Rotated(w, due, scripts, 0) == (w, []);
    OneTrial(w, due, scripts, 0);
    assert [] + [Raised] == [Raised];
    assert Rotated(w, due, scripts, 1) == (OneSent(u, v), [Raised]);
    BrokenStays(w, due, scripts, 1, 2);
  }

  lemma {:induction false} DistinctCount(s: seq<Uuid>, u: Uuid)
    requires forall i, j :: 0 <= i < j < |s| ==> s[i] != s[j]
    ensures multiset(s)[u] == if u in s then 1 else 0
  {
    if s != [] {
      var init, last := s[..|s| - 1], s[|s| - 1];
      assert s == init + [last];
      DistinctCount(init, u);
    }
  }

  /** Some result of a check is a successful rotation of u. */
  predicate RotatesAt(w: World, order: seq<Uuid>, now: int, scripts: seq<EnrollScript>, i: nat)
    requires Ordered(w.config, order) && |scripts| == |order|
  {
    i < |Results(w, order, now, scripts)| && Results(w, order, now, scripts)[i] == Ok
  }

  /**
   * One check: a connection with a valid stamp s that the check rotates successfully, under a clock
   * that does not run backwards, gets a stamp at least days * 86400 seconds after s.
   */
  lemma AutomaticRotationSpacing(w: World, order: seq<Uuid>, now: int, scripts: seq<EnrollScript>, i: nat)
    requires Ordered(w.config, order) && |scripts| == |order|
    requires RotatesAt(w, order, now, scripts, i) && i < |scripts| && now <= scripts[i].now
    ensures i < |DueList(w.config, order, now, |order|)|
    ensures var due := DueList(w.config, order, now, |order|);
            var u := due[i];
            && u in w.config
            && (w.config[u].stamp.At? ==>
                  scripts[i].now / 1_000_000 >= w.config[u].stamp.seconds + w.config[u].days * 86400)
  {
    DueListIs(w.config, order, now, |order|);
    var due := DueList(w.config, order, now, |order|);
    var u := due[i];
    assert u in due;
    if w.config[u].stamp.At? {
      DueMeansOld(w.config[u], now);
      StampFloor(scripts[i].now, w.config[u].stamp.seconds + w.config[u].days * DAY);
    }
  }

  lemma StampFloor(now: int, s: int)
    requires now >= s * MICROS
    ensures now / MICROS >= s
  {
  }

  // ---- spacing over a run ----

  /** Every time the command reads lies in [t, t']. */
  predicate Clocked(t: int, c: Command, t': int) {
    match c
    case DoRegister(_, s) => t <= s.enroll.now <= t'
    case DoEnroll(_, s) => t <= s.now <= t'
    case DoCheck(_, now, scripts) => t <= now <= t' && forall i :: 0 <= i < |scripts| ==> now <= scripts[i].now <= t'
  }

  /** The clock never runs backwards: command i runs between ts[i] and ts[i+1]. */
  predicate ClockedAll(ts: seq<int>, cs: seq<Command>) {
    && |ts| == |cs| + 1
    && forall i :: 0 <= i < |cs| ==> Clocked(ts[i], cs[i], ts[i + 1])
  }

  /** u has a valid stamp, not before s1 and not after time t, and its rotation period is days. */
  predicate StampedSince(w: World, u: Uuid, s1: int, t: int, days: int) {
    && u in w.config && w.config[u].stamp.At? && w.config[u].days == days
    && s1 <= w.config[u].stamp.seconds && w.config[u].stamp.seconds * MICROS <= t
  }

  lemma StampWithin(now: int, s1: int, t: int, t': int)
    requires s1 * MICROS <= t <= now <= t'
    ensures s1 <= now / MICROS && now / MICROS * MICROS <= t'
  {
  }

  lemma EnrollKeepsStamp(w: World, v: Uuid, s: EnrollScript, u: Uuid, s1: int, t: int, t': int, days: int)
    requires StampedSince(w, u, s1, t, days) && t <= s.now <= t'
    ensures StampedSince(Enroll(w, v, s).0, u, s1, t', days)
  {
    EnrollTouchesOnly(w, v, s);
    StampWithin(s.now, s1, t, t');
  }

  lemma RegisterKeepsStamp(w: World, v: Uuid, s: RegisterScript, u: Uuid, s1: int, t: int, t': int, days: int)
    requires StampedSince(w, u, s1, t, days) && t <= s.enroll.now <= t'
    ensures StampedSince(Register(w, v, s).0, u, s1, t', days)
  {
    RegisterTouchesOnly(w, v, s);
    StampWithin(s.enroll.now, s1, t, t');
  }

  lemma {:induction false} RotatedKeepsStamp(w: World, due: seq<Uuid>, scripts: seq<EnrollScript>, k: nat,
                                             u: Uuid, s1: int, t: int, t': int, days: int)
    requires k <= |due| <= |scripts| && StampedSince(w, u, s1, t, days) && t <= t'
    requires forall i, j :: 0 <= i < j < |due| ==> due[i] != due[j]
    requires forall i :: 0 <= i < |scripts| ==> t <= scripts[i].now <= t'
    ensures StampedSince(Rotated(w, due, scripts, k).0, u, s1, if u in due[..k] then t' else t, days)
  {
    if k > 0 {
      assert due[..k] == due[..k - 1] + [due[k - 1]];
      RotatedKeepsStamp(w, due, scripts, k - 1, u, s1, t, t', days);
      var before := Rotated(w, due, scripts, k - 1).0;
      if due[k - 1] == u {
        EnrollKeepsStamp(before, u, scripts[k - 1], u, s1, t, t', days);
      } else {
        EnrollTouchesOnly(before, due[k - 1], scripts[k - 1]);
      }
    }
  }

  lemma {:induction false} RunKeepsStamp(w: World, cs: seq<Command>, ts: seq<int>, u: Uuid, s1: int, days: int)
    requires RunnableAll(w, cs) && ClockedAll(ts, cs) && StampedSince(w, u, s1, ts[0], days)
    ensures StampedSince(ExecAll(w, cs), u, s1, ts[|cs|], days)
    decreases |cs|
  {
    if cs == [] {
    } else {
      assert Clocked(ts[0], cs[0], ts[1]);
      match cs[0] {
        case DoRegister(v, s) => RegisterKeepsStamp(w, v, s, u, s1, ts[0], ts[1], days);
        case DoEnroll(v, s) => EnrollKeepsStamp(w, v, s, u, s1, ts[0], ts[1], days);
        case DoCheck(order, now, scripts) =>
          var due := DueList(w.config, order, now, |order|);
          DueListBounded(w.config, order, now, |order|);
          DueListDistinct(w.config, order, now, |order|);
          RotatedKeepsStamp(w, due, scripts, |due|, u, s1, ts[0], ts[1], days);
      }
      assert ts[1..][0] == ts[1];
      forall i | 0 <= i < |cs[1..]| ensures Clocked(ts[1..][i], cs[1..][i], ts[1..][i + 1]) {
        assert Clocked(ts[i + 1], cs[i + 1], ts[i + 2]);
      }
      RunKeepsStamp(Exec(w, cs[0]), cs[1..], ts[1..], u, s1, days);
    }
  }

  /**
   * Rotation spacing: once u has a valid stamp s1 (the one a rotation gave it), then whatever
   * commands run, any later check that rotates u successfully stamps it at least its rotation
   * period after s1.
   */
  lemma RotationSpacing(w: World, cs: seq<Command>, ts: seq<int>, u: Uuid, s1: int,
                        order: seq<Uuid>, now: int, scripts: seq<EnrollScript>, i: nat)
    requires RunnableAll(w, cs) && ClockedAll(ts, cs)
    requires u in w.config && w.config[u].stamp == At(s1) && s1 * MICROS <= ts[0]
    requires Ordered(ExecAll(w, cs).config, order) && |scripts| == |order|
    requires RotatesAt(ExecAll(w, cs), order, now, scripts, i) && i < |scripts| && now <= scripts[i].now
    requires i < |DueList(ExecAll(w, cs).config, order, now, |order|)|
    requires DueList(ExecAll(w, cs).config, order, now, |order|)[i] == u
    ensures scripts[i].now / 1_000_000 >= s1 + w.config[u].days * 86400
  {
    RunKeepsStamp(w, cs, ts, u, s1, w.config[u].days);
    AutomaticRotationSpacing(ExecAll(w, cs), order, now, scripts, i);
  }
}
