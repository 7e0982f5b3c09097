// warp.py: registration, enrolment and key rotation, which update the server's key for the device,
// the secret store and the configuration one after the other and can fail between any two of them.
module Rotation {
  import opened Basics

  /** A MASQUE key pair. */
  type Key = nat

  datatype Secret = Text(text: string) | PrivateKey(k: Key) | Certificate(k: Key)

  type Store = map<string, Secret>

  // ---- secret names ----

  datatype Kind = DeviceToken | MasquePrivkey | MasqueCert | EndpointPubkey | WgPrivkey | TunnelToken

  function Prefix(kind: Kind): string {
    match kind
    case DeviceToken => "device_token_"
    case MasquePrivkey => "masque_privkey_"
    case MasqueCert => "masque_cert_"
    case EndpointPubkey => "endpoint_pubkey_"
    case WgPrivkey => "wg_privkey_"
    case TunnelToken => "tunnel_token_"
  }

  function Name(kind: Kind, u: Uuid): string {
    Prefix(kind) + u
  }

  // ---- configuration ----

  datatype Protocol = Masque | WireGuard | Cloudflared

  datatype Status = Unregistered | Registered | Enrolled

  /** last_key_rotation: empty, not a date, or seconds since the epoch. */
  datatype Stamp = Never | Garbled | At(seconds: int)

  datatype Conn = Conn(
    protocol: Protocol,
    deviceId: string,
    status: Status,
    stamp: Stamp,
    autoRotate: bool,
    days: int)

  type Config = map<Uuid, Conn>

  /** server: the MASQUE key that Cloudflare has for each device. */
  datatype World = World(server: map<string, Key>, store: Store, config: Config)

  datatype Result = Ok | Failed | Raised

  const MICROS: int := 1_000_000
  const DAY: int := 86400

  function Hex(c: char): bool {
    '0' <= c <= '9' || 'a' <= c <= 'f'
  }

  /** _UUID_RE; `$` also matches before a final newline. */
  predicate UuidOk(u: Uuid) {
    && (|u| == 36 || (|u| == 37 && u[36] == '\n'))
    && forall i :: 0 <= i < 36 ==> if i == 8 || i == 13 || i == 18 || i == 23 then u[i] == '-' else Hex(u[i])
  }

  /** _update_config_xml, when the file can be read and written. */
  function Updated(w: World, u: Uuid, writable: bool, c: Conn): (World, Result) {
    if UuidOk(u) && u in w.config && writable then (w.(config := w.config[u := c]), Ok) else (w, Failed)
  }

  function Stamped(now: int): Stamp {
    At(now / MICROS)
  }

  // ---- one enrolment ----

  /** enroll_masque_key: a request that fails may or may not have reached the server's database. */
  datatype EnrollReply = Refused(committed: bool) | Accepted(endpointKey: string)

  /** Which set_secret calls and which certificate generation succeed when a key is stored. */
  datatype StoreScript = StoreScript(privPut: bool, certMade: bool, certPut: bool, endpointPut: bool)

  datatype EnrollScript = EnrollScript(
    keypair: Option<Key>,
    reply: EnrollReply,
    puts: StoreScript,
    writable: bool,
    now: int)      // microseconds, when the stamp is taken

  /** The secrets written after the server accepted key k: private key, certificate, endpoint key. */
  function StoreKey(st: Store, u: Uuid, k: Key, endpointKey: string, s: StoreScript): (Store, Result) {
    if !s.privPut then (st, Raised)
    else
      var st1 := st[Name(MasquePrivkey, u) := PrivateKey(k)];
      if !s.certMade || !s.certPut then (st1, Failed)
      else
        var st2 := st1[Name(MasqueCert, u) := Certificate(k)];
        StoreEndpoint(st2, u, endpointKey, s)
  }

  function StoreEndpoint(st: Store, u: Uuid, endpointKey: string, s: StoreScript): (Store, Result) {
    if endpointKey == "" then (st, Ok)
    else if !s.endpointPut then (st, Raised)
    else (st[Name(EndpointPubkey, u) := Text(endpointKey)], Ok)
  }

  /** get_secret gives a usable device token. */
  predicate HasToken(st: Store, u: Uuid) {
    var n := Name(DeviceToken, u);
    n in st && st[n] != Text("")
  }

  function Enroll(w: World, u: Uuid, s: EnrollScript): (World, Result) {
    if u !in w.config || w.config[u].deviceId == "" || !HasToken(w.store, u) || s.keypair.None? then (w, Failed)
    else
      var c, k := w.config[u], s.keypair.value;
      match s.reply
      case Refused(committed) =>
        (if committed then w.(server := w.server[c.deviceId := k]) else w, Failed)
      case Accepted(endpointKey) =>
        var (st, r) := StoreKey(w.store, u, k, endpointKey, s.puts);
        var w1 := w.(server := w.server[c.deviceId := k], store := st);
        if r != Ok then (w1, r)
        else Updated(w1, u, s.writable, c.(status := Enrolled, stamp := Stamped(s.now)))
  }

  // ---- registration ----

  datatype RegisterReply = RegRefused | Account(deviceId: string, token: string, peerKey: string)

  datatype RegisterScript = RegisterScript(
    wireguardKey: Option<string>,
    reply: RegisterReply,
    tokenPut: bool,
    wgPut: bool,
    enroll: EnrollScript)

  function Register(w: World, u: Uuid, s: RegisterScript): (World, Result) {
    if u !in w.config || w.config[u].protocol.Cloudflared? || s.wireguardKey.None? then (w, Failed)
    else if s.reply.RegRefused? || s.reply.deviceId == "" || s.reply.token == "" then (w, Failed)
    else
      var c, id := w.config[u], s.reply.deviceId;
      if c.protocol.WireGuard? then RegisterStored(w, u, s, c, Registered, s.reply.peerKey)
      else if s.enroll.keypair.None? then (w, Failed)
      else
        match s.enroll.reply
        case Refused(committed) =>
          (if committed then w.(server := w.server[id := s.enroll.keypair.value]) else w, Failed)
        case Accepted(endpointKey) =>
          RegisterStored(w.(server := w.server[id := s.enroll.keypair.value]), u, s, c, Enrolled, endpointKey)
  }

  /** Steps 4 and 5 of cmd_register. */
  function RegisterStored(w: World, u: Uuid, s: RegisterScript, c: Conn, status: Status, peerKey: string): (World, Result)
    requires s.wireguardKey.Some? && s.reply.Account?
    requires status.Enrolled? ==> s.enroll.keypair.Some?
  {
    if !s.tokenPut then (w, Raised)
    else
      var st0 := w.store[Name(DeviceToken, u) := Text(s.reply.token)];
      var (st1, r) := if status.Enrolled? then StoreKey(st0, u, s.enroll.keypair.value, peerKey, s.enroll.puts)
                      else StoreEndpoint(st0, u, peerKey, s.enroll.puts);
      if r != Ok then (w.(store := st1), r)
      else if !s.wgPut then (w.(store := st1), Raised)
      else
        var w2 := w.(store := st1[Name(WgPrivkey, u) := Text(s.wireguardKey.value)]);
        Updated(w2, u, s.enroll.writable, c.(deviceId := s.reply.deviceId, status := status, stamp := Stamped(s.enroll.now)))
  }

  // ---- the rotation check ----

  /** Whether a connection is due at `now` (microseconds); timedelta.days rounds down. */
  predicate Due(c: Conn, now: int) {
    && c.autoRotate && !c.status.Unregistered?
    && match c.stamp
       case Never => true
       case Garbled => true
       case At(seconds) => (now - seconds * MICROS) / (DAY * MICROS) >= c.days
  }

  /** The due connections among the first k of the configuration's order. */
  function DueList(config: Config, order: seq<Uuid>, now: int, k: nat): seq<Uuid>
    requires k <= |order| && forall i :: 0 <= i < |order| ==> order[i] in config
  {
    if k == 0 then []
    else DueList(config, order, now, k - 1) + if Due(config[order[k - 1]], now) then [order[k - 1]] else []
  }

  /** A trial that raised is the last one: nothing in the loop catches the exception. */
  predicate Broken(results: seq<Result>) {
    results != [] && results[|results| - 1] == Raised
  }

  /** The loop over the first k due connections, one script each: the results of the trials made. */
  function Rotated(w: World, due: seq<Uuid>, scripts: seq<EnrollScript>, k: nat): (World, seq<Result>)
    requires k <= |due| <= |scripts|
  {
    if k == 0 then (w, [])
    else
      var (before, results) := Rotated(w, due, scripts, k - 1);
      if Broken(results) then (before, results)
      else
        var (after, r) := Enroll(before, due[k - 1], scripts[k - 1]);
        (after, results + [r])
  }

  /** What cmd_rotatekeyscheck returns: connections checked, successful rotations, and their results. */
  datatype CheckReply = CheckReply(checked: nat, rotated: nat, results: seq<Result>)

  function CountOk(results: seq<Result>): (n: nat)
    ensures n <= |results|
  {
    if results == [] then 0 else CountOk(results[..|results| - 1]) + if results[|results| - 1] == Ok then 1 else 0
  }

  /** The configuration's connections in the order of the file. */
  predicate Ordered(config: Config, order: seq<Uuid>) {
    && (forall i :: 0 <= i < |order| ==> order[i] in config)
    && (forall i, j :: 0 <= i < j < |order| ==> order[i] != order[j])
    && |order| == |config|
  }

  /** No trial follows one that raised, and without one all are made. */
  lemma {:induction false} OnlyLastRaised(w: World, due: seq<Uuid>, scripts: seq<EnrollScript>, k: nat)
    requires k <= |due| <= |scripts|
    ensures var results := Rotated(w, due, scripts, k).1;
            && |results| <= k && (!Broken(results) ==> |results| == k)
            && forall j :: 0 <= j < |results| - 1 ==> results[j] != Raised
  {
    if k > 0 {
      OnlyLastRaised(w, due, scripts, k - 1);
      var before, after := Rotated(w, due, scripts, k - 1).1, Rotated(w, due, scripts, k).1;
      assert after == before || (!Broken(before) && |after| == k && after[..k - 1] == before);
    }
  }

  /** After a trial that raised the rest of the loop does nothing. */
  lemma {:induction false} BrokenStays(w: World, due: seq<Uuid>, scripts: seq<EnrollScript>, i: nat, k: nat)
    requires i <= k <= |due| <= |scripts| && Broken(Rotated(w, due, scripts, i).1)
    ensures Rotated(w, due, scripts, k) == Rotated(w, due, scripts, i)
  {
    if i < k {
      BrokenStays(w, due, scripts, i, k - 1);
    }
  }
}
