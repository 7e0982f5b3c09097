// What a start hands to the daemon after an enrolment or a registration: service.py reads back, under
// names of its own, what warp.py stored.
module RotationSecrets {
  import opened Basics
  import opened Rotation
  import opened RotationTheorems

  /** get_secret on the store. */
  function Get(st: Store, name: string): Option<Secret> {
    if name in st then Some(st[name]) else None
  }

  /** The secrets that _write_warp_config puts into the daemon's configuration. */
  datatype Handed = Handed(
    masqueKey: Option<Secret>,
    masqueCert: Option<Secret>,
    endpointKey: Option<Secret>,
    wgKey: Option<Secret>)

  function HandedTo(st: Store, u: Uuid): Handed {
    Handed(Get(st, "masque_privkey_" + u), Get(st, "masque_cert_" + u),
           Get(st, "endpoint_pubkey_" + u), Get(st, "wg_privkey_" + u))
  }

  function KeyOr(key: string, was: Option<Secret>): Option<Secret> {
    if key == "" then was else Some(Text(key))
  }

  /** The names under which service.py and cmd_enroll read are those under which warp.py writes. */
  lemma NamesMatch(u: Uuid)
    ensures Name(MasquePrivkey, u) == "masque_privkey_" + u && Name(MasqueCert, u) == "masque_cert_" + u
    ensures Name(EndpointPubkey, u) == "endpoint_pubkey_" + u && Name(WgPrivkey, u) == "wg_privkey_" + u
    ensures Name(DeviceToken, u) == "device_token_" + u
  {
  }

  lemma Put(st: Store, k: Kind, u: Uuid, x: Secret)
    ensures Get(st[Name(k, u) := x], Name(k, u)) == Some(x)
    ensures forall k': Kind :: k' != k ==> Get(st[Name(k, u) := x], Name(k', u)) == Get(st, Name(k', u))
  {
    NamesApart(u);
  }

  lemma StoredEndpoint(st: Store, u: Uuid, key: string, s: StoreScript, k': Kind)
    requires StoreEndpoint(st, u, key, s).1 == Ok
    ensures Get(StoreEndpoint(st, u, key, s).0, Name(k', u))
         == if k' == EndpointPubkey then KeyOr(key, Get(st, Name(EndpointPubkey, u))) else Get(st, Name(k', u))
  {
    Put(st, EndpointPubkey, u, Text(key));
  }

  lemma StoredKey(st: Store, u: Uuid, k: Key, key: string, s: StoreScript, k': Kind)
    requires StoreKey(st, u, k, key, s).1 == Ok
    ensures Get(StoreKey(st, u, k, key, s).0, Name(k', u))
         == match k'
            case MasquePrivkey => Some(PrivateKey(k))
            case MasqueCert => Some(Certificate(k))
            case EndpointPubkey => KeyOr(key, Get(st, Name(EndpointPubkey, u)))
            case _ => Get(st, Name(k', u))
  {
    var st1 := st[Name(MasquePrivkey, u) := PrivateKey(k)];
    var st2 := st1[Name(MasqueCert, u) := Certificate(k)];
    Put(st, MasquePrivkey, u, PrivateKey(k));
    Put(st1, MasqueCert, u, Certificate(k));
    StoredEndpoint(st2, u, key, s, k');
  }

  /** Key and token are there to be sent. The name of the token is the one that registration stores it under. */
  lemma SendsKeyExactlyWhen(w: World, u: Uuid, s: EnrollScript)
    ensures SendsKey(w, u, s)
       <==> && u in w.config && w.config[u].deviceId != "" && s.keypair.Some?
            && Get(w.store, "device_token_" + u) !in {None, Some(Text(""))}
  {
  }

  /**
   * An enrolment is ok exactly when there is a device id, a non-empty token and a key to send, the
   * server accepted, and every write went through.
   */
  lemma EnrollOkExactlyWhen(w: World, u: Uuid, s: EnrollScript)
    ensures Enroll(w, u, s).1 == Ok
       <==> && u in w.config && w.config[u].deviceId != "" && s.keypair.Some?
            && Get(w.store, "device_token_" + u) !in {None, Some(Text(""))}
            && s.reply.Accepted?
            && s.puts.privPut && s.puts.certMade && s.puts.certPut && (s.reply.endpointKey == "" || s.puts.endpointPut)
            && s.writable && UuidOk(u)
  {
    SendsKeyExactlyWhen(w, u, s);
  }

  /** After an ok enrolment a start hands over the new pair, and of the configuration status and stamp have changed. */
  lemma EnrollHands(w: World, u: Uuid, s: EnrollScript)
    requires Enroll(w, u, s).1 == Ok
    ensures u in w.config && s.keypair.Some? && s.reply.Accepted?
    ensures var w', k, was := Enroll(w, u, s).0, s.keypair.value, HandedTo(w.store, u);
            && HandedTo(w'.store, u)
               == Handed(Some(PrivateKey(k)), Some(Certificate(k)), KeyOr(s.reply.endpointKey, was.endpointKey), was.wgKey)
            && Get(w'.store, "device_token_" + u) == Get(w.store, "device_token_" + u)
            && w'.config == w.config[u := w.config[u].(status := Enrolled, stamp := At(s.now / 1_000_000))]
  {
    NamesMatch(u);
    var k, key := s.keypair.value, s.reply.endpointKey;
    StoredKey(w.store, u, k, key, s.puts, MasquePrivkey);
    StoredKey(w.store, u, k, key, s.puts, MasqueCert);
    StoredKey(w.store, u, k, key, s.puts, EndpointPubkey);
    StoredKey(w.store, u, k, key, s.puts, WgPrivkey);
    StoredKey(w.store, u, k, key, s.puts, DeviceToken);
  }

  /** The store after steps 4 and 5 of an ok registration, by kind. */
  lemma StoredAfterRegister(w: World, u: Uuid, s: RegisterScript, c: Conn, status: Status, key: string, k': Kind)
    requires s.wireguardKey.Some? && s.reply.Account? && (status.Enrolled? ==> s.enroll.keypair.Some?)
    requires RegisterStored(w, u, s, c, status, key).1 == Ok
    ensures Get(RegisterStored(w, u, s, c, status, key).0.store, Name(k', u))
         == match k'
            case DeviceToken => Some(Text(s.reply.token))
            case WgPrivkey => Some(Text(s.wireguardKey.value))
            case EndpointPubkey => KeyOr(key, Get(w.store, Name(EndpointPubkey, u)))
            case MasquePrivkey => if status.Enrolled? then Some(PrivateKey(s.enroll.keypair.value)) else Get(w.store, Name(MasquePrivkey, u))
            case MasqueCert => if status.Enrolled? then Some(Certificate(s.enroll.keypair.value)) else Get(w.store, Name(MasqueCert, u))
            case TunnelToken => Get(w.store, Name(TunnelToken, u))
  {
    var st0 := w.store[Name(DeviceToken, u) := Text(s.reply.token)];
    Put(w.store, DeviceToken, u, Text(s.reply.token));
    if status.Enrolled? {
      StoredKey(st0, u, s.enroll.keypair.value, key, s.enroll.puts, k');
      Put(StoreKey(st0, u, s.enroll.keypair.value, key, s.enroll.puts).0, WgPrivkey, u, Text(s.wireguardKey.value));
    } else {
      StoredEndpoint(st0, u, key, s.enroll.puts, k');
      Put(StoreEndpoint(st0, u, key, s.enroll.puts).0, WgPrivkey, u, Text(s.wireguardKey.value));
    }
  }

  lemma RegisterConfig(w: World, u: Uuid, s: RegisterScript)
    requires Register(w, u, s).1 == Ok
    ensures Registers(w, u, s)
    ensures Register(w, u, s).0.config
         == w.config[u := w.config[u].(deviceId := s.reply.deviceId,
                                       status := if w.config[u].protocol.Masque? then Enrolled else Registered,
                                       stamp := At(s.enroll.now / 1_000_000))]
  {
  }

  /** After an ok MASQUE registration a start hands over the one new pair and the WireGuard key of the registration. */
  lemma RegisterHandsMasque(w: World, u: Uuid, s: RegisterScript)
    requires Register(w, u, s).1 == Ok && u in w.config && w.config[u].protocol.Masque?
    ensures Registers(w, u, s)
    ensures var w', k, was := Register(w, u, s).0, s.enroll.keypair.value, HandedTo(w.store, u);
            && HandedTo(w'.store, u)
               == Handed(Some(PrivateKey(k)), Some(Certificate(k)), KeyOr(s.enroll.reply.endpointKey, was.endpointKey),
                         Some(Text(s.wireguardKey.value)))
            && Get(w'.store, "device_token_" + u) == Some(Text(s.reply.token))
            && w'.config == w.config[u := w.config[u].(deviceId := s.reply.deviceId, status := Enrolled, stamp := At(s.enroll.now / 1_000_000))]
  {
    NamesMatch(u);
    RegisterConfig(w, u, s);
    var w1, c, key := w.(server := w.server[s.reply.deviceId := s.enroll.keypair.value]), w.config[u], s.enroll.reply.endpointKey;
    assert Register(w, u, s) == RegisterStored(w1, u, s, c, Enrolled, key);
    StoredAfterRegister(w1, u, s, c, Enrolled, key, MasquePrivkey);
    StoredAfterRegister(w1, u, s, c, Enrolled, key, MasqueCert);
    StoredAfterRegister(w1, u, s, c, Enrolled, key, EndpointPubkey);
    StoredAfterRegister(w1, u, s, c, Enrolled, key, WgPrivkey);
    StoredAfterRegister(w1, u, s, c, Enrolled, key, DeviceToken);
  }

  /** After an ok WireGuard registration it hands over the key that was registered and the peer's key; MASQUE secrets stay. */
  lemma RegisterHandsWireGuard(w: World, u: Uuid, s: RegisterScript)
    requires Register(w, u, s).1 == Ok && u in w.config && w.config[u].protocol.WireGuard?
    ensures Registers(w, u, s)
    ensures var w', was := Register(w, u, s).0, HandedTo(w.store, u);
            && HandedTo(w'.store, u)
               == Handed(was.masqueKey, was.masqueCert, KeyOr(s.reply.peerKey, was.endpointKey), Some(Text(s.wireguardKey.value)))
            && Get(w'.store, "device_token_" + u) == Some(Text(s.reply.token))
            && w'.server == w.server
            && w'.config == w.config[u := w.config[u].(deviceId := s.reply.deviceId, status := Registered, stamp := At(s.enroll.now / 1_000_000))]
  {
    NamesMatch(u);
    RegisterConfig(w, u, s);
    var c, key := w.config[u], s.reply.peerKey;
    assert Register(w, u, s) == RegisterStored(w, u, s, c, Registered, key);
    StoredAfterRegister(w, u, s, c, Registered, key, MasquePrivkey);
    StoredAfterRegister(w, u, s, c, Registered, key, MasqueCert);
    StoredAfterRegister(w, u, s, c, Registered, key, EndpointPubkey);
    StoredAfterRegister(w, u, s, c, Registered, key, WgPrivkey);
    StoredAfterRegister(w, u, s, c, Registered, key, DeviceToken);
  }

  /** A key is the server's key of its device exactly when the request reached the server, answered or not. */
  lemma EnrollServerKey(w: World, u: Uuid, s: EnrollScript)
    ensures var reached := SendsKey(w, u, s) && (s.reply.Accepted? || s.reply.committed);
            Enroll(w, u, s).0.server == if reached then w.server[w.config[u].deviceId := s.keypair.value] else w.server
  {
  }

  /** For a registration the device is the one that was just registered, and only MASQUE sends a key. */
  lemma RegisterServerKey(w: World, u: Uuid, s: RegisterScript)
    ensures var registered := u in w.config && !w.config[u].protocol.Cloudflared? && s.wireguardKey.Some?
                              && s.reply.Account? && s.reply.deviceId != "" && s.reply.token != "";
            var reached := registered && w.config[u].protocol.Masque? && s.enroll.keypair.Some?
                           && (s.enroll.reply.Accepted? || s.enroll.reply.committed);
            Register(w, u, s).0.server == if reached then w.server[s.reply.deviceId := s.enroll.keypair.value] else w.server
  {
  }

  /** A registration raises exactly when the store refuses a secret outside the certificate's try block. */
  lemma RegisterRaisesExactlyWhen(w: World, u: Uuid, s: RegisterScript)
    ensures Register(w, u, s).1 == Raised
       <==> Registers(w, u, s) &&
            var masque := w.config[u].protocol.Masque?;
            var key := if masque then s.enroll.reply.endpointKey else s.reply.peerKey;
            var certified := s.enroll.puts.certMade && s.enroll.puts.certPut;
            || !s.tokenPut
            || (masque && !s.enroll.puts.privPut)
            || ((masque ==> certified) && ((key != "" && !s.enroll.puts.endpointPut) || !s.wgPut))
  {
  }

  // ---- the check's arithmetic ----

  /** A connection whose stamp is missing or is no date is due whenever it rotates automatically and is registered. */
  lemma DueWithoutStamp(c: Conn, now: int)
    requires !c.stamp.At?
    ensures Due(c, now) <==> c.autoRotate && (c.status.Registered? || c.status.Enrolled?)
  {
  }

  /** rotated is the number of results that are ok. */
  lemma {:induction false} CountOkIs(results: seq<Result>)
    ensures CountOk(results) == multiset(results)[Ok]
  {
    if results != [] {
      CountOkIs(results[..|results| - 1]);
      assert results == results[..|results| - 1] + [results[|results| - 1]];
    }
  }

  /** The due connections are tried in the order of the configuration. */
  lemma {:induction false} DueInOrder(config: Config, order: seq<Uuid>, now: int, k: nat, i: nat, j: nat)
    requires k <= |order| && Ordered(config, order) && i < j < |DueList(config, order, now, k)|
    ensures exists x, y :: 0 <= x < y < k && order[x] == DueList(config, order, now, k)[i] && order[y] == DueList(config, order, now, k)[j]
  {
    var before := DueList(config, order, now, k - 1);
    if j < |before| {
      DueInOrder(config, order, now, k - 1, i, j);
    } else {
      DueListIs(config, order, now, k - 1);
      assert before[i] in before;
      var x :| 0 <= x < k - 1 && order[x] == before[i];
      assert order[k - 1] == DueList(config, order, now, k)[j];
    }
  }

  // ---- the form of a uuid ----

  predicate HexText(s: string) {
    forall i :: 0 <= i < |s| ==> s[i] in "0123456789abcdef"
  }

  /** Five groups of lower-case hex digits, of 8, 4, 4, 4 and 12, with dashes between; one final line feed passes. */
  ghost predicate Grouped(u: string) {
    exists a, b, c, d, e, end ::
      && |a| == 8 && |b| == |c| == |d| == 4 && |e| == 12
      && HexText(a) && HexText(b) && HexText(c) && HexText(d) && HexText(e) && (end == "" || end == "\n")
      && u == a + "-" + b + "-" + c + "-" + d + "-" + e + end
  }

  lemma HexIs(c: char)
    ensures Hex(c) <==> c in "0123456789abcdef"
  {
    var d := "0123456789abcdef";
    assert '0' <= c <= '9' ==> d[c as int - '0' as int] == c;
    assert 'a' <= c <= 'f' ==> d[c as int - 'a' as int + 10] == c;
  }

  lemma HexTextOf(u: string, i: nat, j: nat)
    requires i <= j <= |u| && forall k :: i <= k < j ==> Hex(u[k])
    ensures HexText(u[i..j])
  {
    forall k | 0 <= k < j - i ensures u[i..j][k] in "0123456789abcdef" {
      HexIs(u[i + k]);
    }
  }

  lemma Cut(u: string)
    requires |u| >= 36 && u[8] == u[13] == u[18] == u[23] == '-'
    ensures u == u[0..8] + "-" + u[9..13] + "-" + u[14..18] + "-" + u[19..23] + "-" + u[24..36] + u[36..]
  {
    assert u[8..9] == "-" && u[13..14] == "-" && u[18..19] == "-" && u[23..24] == "-";
    assert u == u[0..8] + u[8..9] + u[9..13] + u[13..14] + u[14..18] + u[18..19] + u[19..23] + u[23..24] + u[24..36] + u[36..];
  }

  lemma UuidOkIsGrouped(u: string)
    requires UuidOk(u)
    ensures Grouped(u)
  {
    var a, b, c, d, e, end := u[0..8], u[9..13], u[14..18], u[19..23], u[24..36], u[36..];
    HexTextOf(u, 0, 8);
    HexTextOf(u, 9, 13);
    HexTextOf(u, 14, 18);
    HexTextOf(u, 19, 23);
    HexTextOf(u, 24, 36);
    Cut(u);
  }

  lemma GroupHex(s: string, u: string, i: nat)
    requires HexText(s) && i + |s| <= |u| && u[i..i + |s|] == s
    ensures forall k :: i <= k < i + |s| ==> Hex(u[k])
  {
    forall k | i <= k < i + |s| ensures Hex(u[k]) {
      assert u[k] == s[k - i];
      HexIs(u[k]);
    }
  }

  lemma GroupedIsUuidOk(u: string)
    requires Grouped(u)
    ensures UuidOk(u)
  {
    var a, b, c, d, e, end :|
      && |a| == 8 && |b| == |c| == |d| == 4 && |e| == 12
      && HexText(a) && HexText(b) && HexText(c) && HexText(d) && HexText(e) && (end == "" || end == "\n")
      && u == a + "-" + b + "-" + c + "-" + d + "-" + e + end;
    assert u[0..8] == a && u[9..13] == b && u[14..18] == c && u[19..23] == d && u[24..36] == e;
    assert u[8] == '-' && u[13] == '-' && u[18] == '-' && u[23] == '-';
    GroupHex(a, u, 0);
    GroupHex(b, u, 9);
    GroupHex(c, u, 14);
    GroupHex(d, u, 19);
    GroupHex(e, u, 24);
  }

  /** The pattern accepts exactly the uuids in this form. */
  lemma UuidOkExactlyWhen(u: string)
    ensures UuidOk(u) <==> Grouped(u)
  {
    if UuidOk(u) {
      UuidOkIsGrouped(u);
    }
    if Grouped(u) {
      GroupedIsUuidOk(u);
    }
  }
}
