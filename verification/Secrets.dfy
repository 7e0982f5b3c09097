// cfzt_secrets.py: key derivation, encrypt-then-MAC blobs, hexadecimal JSON values, and the store
// that set_secret, get_secret, del_secret and has_secret keep in one file.
module Secrets {
  import opened Basics

  type Bytes = seq<Byte>

  // ---- hexadecimal ----

  const DIGITS := "0123456789abcdef"

  function Digit(n: int): char
    requires 0 <= n < 16
  {
    DIGITS[n]
  }

  function ToHex(b: Bytes): (h: string)
    ensures |h| == 2 * |b|
  {
    if b == [] then "" else [Digit(b[0] as int / 16), Digit(b[0] as int % 16)] + ToHex(b[1..])
  }

  predicate AsciiSpace(c: char) {
    c == ' ' || '\t' <= c <= '\r'
  }

  /** bytes.fromhex: white space is skipped between bytes, and anything else raises. */
  function FromHex(h: string): Option<Bytes>
    decreases |h|
  {
    if h == "" then Some([])
    else if AsciiSpace(h[0]) then FromHex(h[1..])
    else if |h| < 2 || HexDigit(h[0]) < 0 || HexDigit(h[1]) < 0 then None
    else
      match FromHex(h[2..])
      case None => None
      case Some(rest) => Some([(16 * HexDigit(h[0]) + HexDigit(h[1])) as Byte] + rest)
  }

  lemma DigitRoundTrip(n: int)
    requires 0 <= n < 16
    ensures HexDigit(Digit(n)) == n && !AsciiSpace(Digit(n))
  {
  }

  /** Two digits in front of a readable text add their byte in front of its value. */
  lemma FromHexPair(n: int, h: string)
    requires 0 <= n < 256 && FromHex(h).Some?
    ensures FromHex([Digit(n / 16), Digit(n % 16)] + h) == Some([n as Byte] + FromHex(h).value)
  {
    DigitRoundTrip(n / 16);
    DigitRoundTrip(n % 16);
    var all := [Digit(n / 16), Digit(n % 16)] + h;
    assert all[2..] == h;
  }

  lemma {:induction false} HexRoundTrip(b: Bytes)
    ensures FromHex(ToHex(b)) == Some(b)
  {
    if b == [] {
    } else {
      HexRoundTrip(b[1..]);
      FromHexPair(b[0] as int, ToHex(b[1..]));
      assert [(b[0] as int) as Byte] + b[1..] == b;
    }
  }

  /** The text has two lower-case digits for each byte, the high one first. */
  lemma {:induction false} HexDigits(b: Bytes, i: nat)
    requires i < |b|
    ensures var h := ToHex(b);
            && h[2 * i] == "0123456789abcdef"[b[i] as int / 16]
            && h[2 * i + 1] == "0123456789abcdef"[b[i] as int % 16]
  {
    if i > 0 {
      HexDigits(b[1..], i - 1);
    }
  }

  /** A byte written as two digits, high and low, of either case, with white space in front. */
  datatype Pair = Pair(pad: string, hi: char, lo: char, value: Byte)

  predicate Blank(s: string) {
    forall i :: 0 <= i < |s| ==> s[i] as int in {9, 10, 11, 12, 13, 32}
  }

  predicate PairOk(p: Pair) {
    Blank(p.pad) && IsDigit(p.hi, p.value as int / 16) && IsDigit(p.lo, p.value as int % 16)
  }

  function Spelled(ps: seq<Pair>): string {
    if ps == [] then "" else ps[0].pad + [ps[0].hi, ps[0].lo] + Spelled(ps[1..])
  }

  function Values(ps: seq<Pair>): (b: Bytes)
    ensures |b| == |ps| && forall i :: 0 <= i < |ps| ==> b[i] == ps[i].value
  {
    seq(|ps|, i requires 0 <= i < |ps| => ps[i].value)
  }

  lemma {:induction false} BlankSkipped(pad: string, h: string)
    requires Blank(pad)
    ensures FromHex(pad + h) == FromHex(h)
  {
    if pad == "" {
      assert pad + h == h;
    } else {
      assert (pad + h)[1..] == pad[1..] + h;
      BlankSkipped(pad[1..], h);
    }
  }

  /** The same in terms of the reader's own digits. */
  predicate PairReads(p: Pair) {
    && Blank(p.pad) && HexDigit(p.hi) == p.value as int / 16 && HexDigit(p.lo) == p.value as int % 16
    && !AsciiSpace(p.hi)
  }

  lemma PairsRead(ps: seq<Pair>)
    requires forall i :: 0 <= i < |ps| ==> PairOk(ps[i])
    ensures forall i :: 0 <= i < |ps| ==> PairReads(ps[i])
  {
    forall i | 0 <= i < |ps| ensures PairReads(ps[i]) {
      DigitIs(ps[i].hi, ps[i].value as int / 16);
      DigitIs(ps[i].lo, ps[i].value as int % 16);
    }
  }

  function Before(v: Byte, rest: Option<Bytes>): Option<Bytes> {
    if rest.Some? then Some([v] + rest.value) else None
  }

  lemma PairRead(p: Pair, h: string)
    requires PairReads(p)
    ensures FromHex([p.hi, p.lo] + h) == Before(p.value, FromHex(h))
  {
    var all := [p.hi, p.lo] + h;
    assert all[2..] == h && all[0] == p.hi && all[1] == p.lo;
  }

  lemma SpelledStep(ps: seq<Pair>, h: string)
    requires ps != [] && PairReads(ps[0])
    ensures FromHex(Spelled(ps) + h) == Before(ps[0].value, FromHex(Spelled(ps[1..]) + h))
  {
    var p, rest := ps[0], Spelled(ps[1..]) + h;
    PairRead(p, rest);
    BlankSkipped(p.pad, [p.hi, p.lo] + rest);
    assert Spelled(ps) + h == p.pad + ([p.hi, p.lo] + rest);
  }

  function Behind(b: Bytes, rest: Option<Bytes>): Option<Bytes> {
    if rest.Some? then Some(b + rest.value) else None
  }

  lemma BehindStep(ps: seq<Pair>, rest: Option<Bytes>)
    ensures ps == [] ==> Behind(Values(ps), rest) == rest
    ensures ps != [] ==> Before(ps[0].value, Behind(Values(ps[1..]), rest)) == Behind(Values(ps), rest)
  {
    if rest.Some? {
      if ps == [] {
        assert Values(ps) + rest.value == rest.value;
      } else {
        var v, more := ps[0].value, Values(ps[1..]);
        assert Values(ps) == [v] + more;
        assert [v] + (more + rest.value) == [v] + more + rest.value;
      }
    }
  }

  /** Reading a spelled text goes on behind it. */
  lemma {:induction false} SpelledRead(ps: seq<Pair>, h: string)
    requires forall i :: 0 <= i < |ps| ==> PairReads(ps[i])
    ensures FromHex(Spelled(ps) + h) == Behind(Values(ps), FromHex(h))
  {
    BehindStep(ps, FromHex(h));
    if ps == [] {
      assert Spelled(ps) + h == h;
    } else {
      SpelledRead(ps[1..], h);
      SpelledStep(ps, h);
    }
  }

  lemma BlankReads(pad: string)
    requires Blank(pad)
    ensures FromHex(pad) == Some([])
  {
    BlankSkipped(pad, "");
    assert pad + "" == pad;
  }

  /** fromhex reads digits of either case, white space before, between and behind the bytes left out. */
  lemma FromHexReads(ps: seq<Pair>, end: string)
    requires (forall i :: 0 <= i < |ps| ==> PairOk(ps[i])) && Blank(end)
    ensures FromHex(Spelled(ps) + end) == Some(Values(ps))
  {
    PairsRead(ps);
    BlankReads(end);
    SpelledRead(ps, end);
    assert Values(ps) + [] == Values(ps);
  }

  lemma NoDigit(c: char)
    requires forall v :: !IsDigit(c, v)
    ensures HexDigit(c) < 0
  {
    if HexDigit(c) >= 0 {
      ValueIsDigit(c);
    }
  }

  lemma NoPairRaises(rest: string)
    requires rest != "" && !AsciiSpace(rest[0])
    requires |rest| < 2 || HexDigit(rest[0]) < 0 || HexDigit(rest[1]) < 0
    ensures FromHex(rest) == None
  {
  }

  /** And it raises when behind such bytes comes anything but two digits, a single digit included. */
  lemma FromHexRaises(ps: seq<Pair>, pad: string, rest: string, i: nat)
    requires (forall i :: 0 <= i < |ps| ==> PairOk(ps[i])) && Blank(pad)
    requires rest != "" && rest[0] as int !in {9, 10, 11, 12, 13, 32}
    requires |rest| < 2 || (i < 2 && forall v :: !IsDigit(rest[i], v))
    ensures FromHex(Spelled(ps) + (pad + rest)) == None
  {
    PairsRead(ps);
    if |rest| >= 2 {
      NoDigit(rest[i]);
    }
    NoPairRaises(rest);
    BlankSkipped(pad, rest);
    SpelledRead(ps, pad + rest);
  }

  // ---- primitives ----

  /** openssl, hmac and str.encode as given functions. */
  datatype Crypto = Crypto(
    encrypt: (Bytes, Bytes, Bytes) -> Bytes,
    decrypt: (Bytes, Bytes, Bytes) -> Option<Bytes>,
    hmac: (Bytes, Bytes) -> Bytes,
    encode: string -> Option<Bytes>,
    decode: Bytes -> Option<string>)

  const IV_LENGTH := 16
  const MAC_LENGTH := 32

  /** What is taken for granted of them. */
  ghost predicate Lawful(c: Crypto) {
    && (forall k, iv, m :: c.decrypt(k, iv, c.encrypt(k, iv, m)) == Some(m))
    && (forall k, m :: |c.hmac(k, m)| == MAC_LENGTH)
    && (forall s :: c.encode(s).Some? ==> c.decode(c.encode(s).value) == Some(s))
  }

  // ---- key derivation ----

  /** T(1) | T(2) | ... | T(n) of section 2.3 of RFC 5869. */
  function Blocks(c: Crypto, prk: Bytes, info: Bytes, n: nat): (Bytes, Bytes)
    requires n < 256
  {
    if n == 0 then ([], [])
    else
      var (all, last) := Blocks(c, prk, info, n - 1);
      var t := c.hmac(prk, last + info + [n as Byte]);
      (all + t, t)
  }

  /** HKDF-Expand of section 2.3 of RFC 5869, for a hash of MAC_LENGTH bytes. */
  function HkdfExpand(c: Crypto, prk: Bytes, info: Bytes, length: nat): Bytes
    requires length <= 255 * MAC_LENGTH
  {
    var n := (length + MAC_LENGTH - 1) / MAC_LENGTH;
    var okm := Blocks(c, prk, info, n).0;
    if length <= |okm| then okm[..length] else okm
  }

  /** HKDF-Extract of section 2.2 of RFC 5869. */
  function HkdfExtract(c: Crypto, salt: Bytes, ikm: Bytes): Bytes {
    c.hmac(salt, ikm)
  }

  function Ascii(s: string): Bytes
    requires forall i :: 0 <= i < |s| ==> s[i] < 128 as char
  {
    seq(|s|, i requires 0 <= i < |s| => s[i] as int as Byte)
  }

  const SALT: Bytes := Ascii("cloudflare-zt-plugin-v1")
  const ENC_INFO: Bytes := Ascii("secrets-enc-key")
  const AUTH_INFO: Bytes := Ascii("secrets-auth-key")

  datatype Keys = Keys(enc: Bytes, auth: Bytes)

  /** A host identity file that can be read and is not blank; its content is given stripped. */
  predicate Usable(file: Option<Bytes>) {
    file.Some? && file.value != []
  }

  /** The loop over the host identity files: the first usable one, or None when none is. */
  method FindIdentity(files: seq<Option<Bytes>>) returns (ikm: Option<Bytes>)
    ensures ikm.None? <==> forall i :: 0 <= i < |files| ==> files[i].None? || files[i].value == []
    ensures ikm.Some? ==> ikm.value != [] && exists i :: 0 <= i < |files| && files[i] == ikm
                                                   && forall j :: 0 <= j < i ==> files[j].None? || files[j].value == []
    ensures ikm == Identity(files)
  {
    ikm := None;
    for i := 0 to |files|
      invariant ikm.None? && Identity(files) == Identity(files[i..])
      invariant forall j :: 0 <= j < i ==> !Usable(files[j])
    {
      assert files[i..][1..] == files[i + 1..];
      if Usable(files[i]) {
        return files[i];
      }
    }
  }

  function Identity(files: seq<Option<Bytes>>): Option<Bytes> {
    if files == [] then None
    else if Usable(files[0]) then files[0]
    else Identity(files[1..])
  }

  /** Files after the first usable one do not matter, nor do unusable ones before it. */
  lemma {:induction false} IdentityIsFirstUsable(files: seq<Option<Bytes>>, i: nat)
    requires i < |files| && files[i].Some? && files[i].value != []
    requires forall j :: 0 <= j < i ==> files[j].None? || files[j].value == []
    ensures Identity(files) == files[i]
  {
    if i > 0 {
      assert files[1..][i - 1] == files[i] && forall j :: 0 <= j < i - 1 ==> files[1..][j] == files[j + 1];
      IdentityIsFirstUsable(files[1..], i - 1);
    }
  }

  /** _derive_keys, or None for its RuntimeError. */
  function DeriveKeys(c: Crypto, files: seq<Option<Bytes>>): Option<Keys> {
    match Identity(files)
    case None => None
    case Some(ikm) =>
      var prk := c.hmac(SALT, ikm);
      Some(Keys(c.hmac(prk, ENC_INFO + [1]), c.hmac(prk, AUTH_INFO + [1])))
  }

  /** The derivation is HKDF: extract with the salt, expand to 32 bytes for the encryption and for the authentication key. */
  lemma DerivationIsHkdf(c: Crypto, files: seq<Option<Bytes>>)
    requires Lawful(c)
    ensures DeriveKeys(c, files).None? <==> forall i :: 0 <= i < |files| ==> files[i].None? || files[i].value == []
    ensures DeriveKeys(c, files).Some? ==>
              var prk := HkdfExtract(c, Ascii("cloudflare-zt-plugin-v1"), Identity(files).value);
              && DeriveKeys(c, files).value.enc == HkdfExpand(c, prk, Ascii("secrets-enc-key"), 32)
              && DeriveKeys(c, files).value.auth == HkdfExpand(c, prk, Ascii("secrets-auth-key"), 32)
  {
    IdentityExists(files);
    if Identity(files).Some? {
      var prk := HkdfExtract(c, SALT, Identity(files).value);
      OneBlock(c, prk, ENC_INFO);
      OneBlock(c, prk, AUTH_INFO);
    }
  }

  lemma {:induction false} IdentityExists(files: seq<Option<Bytes>>)
    ensures Identity(files).None? <==> forall i :: 0 <= i < |files| ==> !Usable(files[i])
    ensures Identity(files).Some? ==> Usable(Identity(files))
  {
    if files != [] {
      IdentityExists(files[1..]);
      assert forall i :: 0 < i < |files| ==> files[i] == files[1..][i - 1];
    }
  }

  lemma OneBlock(c: Crypto, prk: Bytes, info: Bytes)
    requires Lawful(c)
    ensures HkdfExpand(c, prk, info, 32) == c.hmac(prk, info + [1])
  {
    assert [] + info + [1 as Byte] == info + [1];
    var t := c.hmac(prk, info + [1]);
    assert Blocks(c, prk, info, 0) == ([], []);
    assert Blocks(c, prk, info, 1) == ([] + t, t);
    assert ([] + t)[..32] == t;
  }

  // ---- blobs ----

  /** _encrypt with the iv it draws. */
  function Seal(c: Crypto, ks: Keys, iv: Bytes, plain: Bytes): Bytes {
    var ct := c.encrypt(ks.enc, iv, plain);
    iv + c.hmac(ks.auth, iv + ct) + ct
  }

  /** blob[lo:hi] in Python, for 0 <= lo <= hi. */
  function Slice(b: Bytes, lo: nat, hi: nat): Bytes
    requires lo <= hi
  {
    if |b| <= lo then [] else if |b| <= hi then b[lo..] else b[lo..hi]
  }

  predicate MacOk(c: Crypto, ks: Keys, blob: Bytes) {
    Slice(blob, IV_LENGTH, IV_LENGTH + MAC_LENGTH)
    == c.hmac(ks.auth, Slice(blob, 0, IV_LENGTH) + Slice(blob, IV_LENGTH + MAC_LENGTH, IV_LENGTH + MAC_LENGTH + |blob|))
  }

  /** _decrypt; None is any exception. */
  function Unseal(c: Crypto, ks: Keys, blob: Bytes): Option<Bytes> {
    if !MacOk(c, ks, blob) then None
    else c.decrypt(ks.enc, Slice(blob, 0, IV_LENGTH), Slice(blob, IV_LENGTH + MAC_LENGTH, IV_LENGTH + MAC_LENGTH + |blob|))
  }

  lemma SealRoundTrip(c: Crypto, ks: Keys, iv: Bytes, plain: Bytes)
    requires Lawful(c) && |iv| == IV_LENGTH
    ensures Unseal(c, ks, Seal(c, ks, iv, plain)) == Some(plain)
  {
    var ct := c.encrypt(ks.enc, iv, plain);
    var mac, blob := c.hmac(ks.auth, iv + ct), Seal(c, ks, iv, plain);
    assert Slice(blob, 0, IV_LENGTH) == iv;
    assert Slice(blob, IV_LENGTH, IV_LENGTH + MAC_LENGTH) == mac;
    assert Slice(blob, IV_LENGTH + MAC_LENGTH, IV_LENGTH + MAC_LENGTH + |blob|) == ct;
  }

  /** The layout of a blob: 16 bytes of iv, 32 of MAC over iv and ciphertext, and the ciphertext. */
  lemma SealLayout(c: Crypto, ks: Keys, iv: Bytes, plain: Bytes)
    requires Lawful(c) && |iv| == 16
    ensures var blob, ct := Seal(c, ks, iv, plain), c.encrypt(ks.enc, iv, plain);
            && |blob| == 48 + |ct| && blob[..16] == iv && blob[16..48] == c.hmac(ks.auth, iv + ct) && blob[48..] == ct
  {
    var ct := c.encrypt(ks.enc, iv, plain);
    assert |c.hmac(ks.auth, iv + ct)| == 32;
  }

  /** A blob opens exactly when it carries the MAC of its iv and ciphertext under the authentication key, and these decrypt. */
  lemma OpensExactlyWhen(c: Crypto, ks: Keys, blob: Bytes)
    requires Lawful(c)
    ensures Unseal(c, ks, blob)
         == if |blob| >= 48 && blob[16..48] == c.hmac(ks.auth, blob[..16] + blob[48..]) then c.decrypt(ks.enc, blob[..16], blob[48..])
            else None
  {
    if |blob| >= 48 {
      assert Slice(blob, 0, 16) == blob[..16] && Slice(blob, 48, 48 + |blob|) == blob[48..];
    } else {
      assert |Slice(blob, 16, 48)| < 32;
    }
  }

  // ---- the store ----

  datatype File = Absent | NotJson | Doc(entries: map<string, string>)

  /** _load_raw */
  function Loaded(f: File): map<string, string> {
    match f
    case Absent => map[]
    case NotJson => map[]
    case Doc(m) => m
  }

  /** get_secret on one stored value. */
  function Opened(c: Crypto, ks: Keys, hex: string): Option<string> {
    match FromHex(hex)
    case None => None
    case Some(blob) =>
      match Unseal(c, ks, blob)
      case None => None
      case Some(plain) => c.decode(plain)
  }

  class SecretStore {
    const c: Crypto
    const keys: Keys
    var file: File

    constructor (c: Crypto, keys: Keys, f: File)
      ensures this.c == c && this.keys == keys && file == f
    {
      this.c, this.keys := c, keys;
      file := f;
    }

    /** set_secret; false when the value cannot be encoded, and then nothing is written. */
    method SetSecret(key: string, value: string, iv: Bytes) returns (ok: bool)
      modifies this
      ensures ok == c.encode(value).Some?
      ensures file == AfterSet(c, keys, old(file), key, value, iv)
    {
      var plain := c.encode(value);
      if plain.None? {
        return false;
      }
      var blob := Seal(c, keys, iv, plain.value);
      var data := Loaded(file);
      data := data[key := ToHex(blob)];
      file := Doc(data);
      ok := true;
    }

    method GetSecret(key: string) returns (r: Option<string>)
      ensures r == Lookup(c, keys, file, key)
    {
      var data := Loaded(file);
      if key !in data {
        return None;
      }
      r := Opened(c, keys, data[key]);
    }

    method DelSecret(key: string)
      modifies this
      ensures file == Doc(Loaded(old(file)) - {key})
    {
      var data := Loaded(file);
      file := Doc(data - {key});
    }

    method HasSecret(key: string) returns (r: bool)
      ensures r == (key in Loaded(file))
    {
      r := key in Loaded(file);
    }
  }

  function AfterSet(c: Crypto, ks: Keys, f: File, key: string, value: string, iv: Bytes): File {
    match c.encode(value)
    case None => f
    case Some(plain) => Doc(Loaded(f)[key := ToHex(Seal(c, ks, iv, plain))])
  }

  function Lookup(c: Crypto, ks: Keys, f: File, key: string): Option<string> {
    if key in Loaded(f) then Opened(c, ks, Loaded(f)[key]) else None
  }

  // ---- the store is a map ----

  /** The map of strings that a store stands for. */
  function Meaning(c: Crypto, ks: Keys, f: File): map<string, string> {
    map k | k in Loaded(f) && Opened(c, ks, Loaded(f)[k]).Some? :: Opened(c, ks, Loaded(f)[k]).value
  }

  /** Every entry of the file opens under the keys. */
  predicate AllOpen(c: Crypto, ks: Keys, f: File) {
    forall k :: k in Loaded(f) ==> Opened(c, ks, Loaded(f)[k]).Some?
  }

  lemma SealedOpens(c: Crypto, ks: Keys, iv: Bytes, value: string)
    requires Lawful(c) && |iv| == IV_LENGTH && c.encode(value).Some?
    ensures Opened(c, ks, ToHex(Seal(c, ks, iv, c.encode(value).value))) == Some(value)
  {
    HexRoundTrip(Seal(c, ks, iv, c.encode(value).value));
    SealRoundTrip(c, ks, iv, c.encode(value).value);
  }

  /** set_secret is a map update, whatever else is in the file, readable or not. */
  lemma SetIsUpdate(c: Crypto, ks: Keys, f: File, key: string, value: string, iv: Bytes)
    requires Lawful(c) && |iv| == IV_LENGTH && c.encode(value).Some?
    ensures Meaning(c, ks, AfterSet(c, ks, f, key, value, iv)) == Meaning(c, ks, f)[key := value]
    ensures AllOpen(c, ks, f) ==> AllOpen(c, ks, AfterSet(c, ks, f, key, value, iv))
    ensures Loaded(AfterSet(c, ks, f, key, value, iv)) - {key} == Loaded(f) - {key}
  {
    SealedOpens(c, ks, iv, value);
  }

  datatype Op = Set(key: string, value: string, iv: Bytes) | Get(key: string) | Del(key: string) | Has(key: string)

  datatype Answer = Done | Refused | Found(value: Option<string>) | Present(yes: bool)

  function FileAfter(c: Crypto, ks: Keys, f: File, op: Op): File {
    match op
    case Set(k, v, iv) => AfterSet(c, ks, f, k, v, iv)
    case Del(k) => Doc(Loaded(f) - {k})
    case _ => f
  }

  function FileAnswer(c: Crypto, ks: Keys, f: File, op: Op): Answer {
    match op
    case Set(_, v, _) => if c.encode(v).Some? then Done else Refused
    case Get(k) => Found(Lookup(c, ks, f, k))
    case Del(_) => Done
    case Has(k) => Present(k in Loaded(f))
  }

  function MapAfter(c: Crypto, m: map<string, string>, op: Op): map<string, string> {
    match op
    case Set(k, v, _) => if c.encode(v).Some? then m[k := v] else m
    case Del(k) => m - {k}
    case _ => m
  }

  function MapAnswer(c: Crypto, m: map<string, string>, op: Op): Answer {
    match op
    case Set(_, v, _) => if c.encode(v).Some? then Done else Refused
    case Get(k) => Found(if k in m then Some(m[k]) else None)
    case Del(_) => Done
    case Has(k) => Present(k in m)
  }

  function FileAnswers(c: Crypto, ks: Keys, f: File, ops: seq<Op>): seq<Answer>
    decreases |ops|
  {
    if ops == [] then [] else [FileAnswer(c, ks, f, ops[0])] + FileAnswers(c, ks, FileAfter(c, ks, f, ops[0]), ops[1..])
  }

  function MapAnswers(c: Crypto, m: map<string, string>, ops: seq<Op>): seq<Answer>
    decreases |ops|
  {
    if ops == [] then [] else [MapAnswer(c, m, ops[0])] + MapAnswers(c, MapAfter(c, m, ops[0]), ops[1..])
  }

  lemma DelIsRemoval(c: Crypto, ks: Keys, f: File, key: string)
    ensures Meaning(c, ks, Doc(Loaded(f) - {key})) == Meaning(c, ks, f) - {key}
    ensures AllOpen(c, ks, f) ==> AllOpen(c, ks, Doc(Loaded(f) - {key}))
  {
  }

  lemma OneOpRefines(c: Crypto, ks: Keys, f: File, op: Op)
    requires Lawful(c) && AllOpen(c, ks, f) && (op.Set? ==> |op.iv| == IV_LENGTH)
    ensures FileAnswer(c, ks, f, op) == MapAnswer(c, Meaning(c, ks, f), op)
    ensures Meaning(c, ks, FileAfter(c, ks, f, op)) == MapAfter(c, Meaning(c, ks, f), op)
    ensures AllOpen(c, ks, FileAfter(c, ks, f, op))
  {
    match op
    case Set(k, v, iv) =>
      if c.encode(v).Some? {
        SetIsUpdate(c, ks, f, k, v, iv);
      }
    case Get(k) =>
    case Del(k) => DelIsRemoval(c, ks, f, k);
    case Has(k) =>
  }

  predicate IvsOk(ops: seq<Op>) {
    forall i :: 0 <= i < |ops| && ops[i].Set? ==> |ops[i].iv| == IV_LENGTH
  }

  /** Every sequence of operations answers as on a plain map of strings. */
  lemma {:induction false} StoreRefinesMap(c: Crypto, ks: Keys, f: File, ops: seq<Op>)
    requires Lawful(c) && AllOpen(c, ks, f)
    requires IvsOk(ops)
    ensures FileAnswers(c, ks, f, ops) == MapAnswers(c, Meaning(c, ks, f), ops)
    decreases |ops|
  {
    if ops == [] {
    } else {
      OneOpRefines(c, ks, f, ops[0]);
      StoreRefinesMap(c, ks, FileAfter(c, ks, f, ops[0]), ops[1..]);
    }
  }

  lemma BadMacOpensNot(c: Crypto, ks: Keys, blob: Bytes)
    requires !MacOk(c, ks, blob)
    ensures Opened(c, ks, ToHex(blob)) == None
  {
    HexRoundTrip(blob);
  }

  /** A value whose MAC does not verify reads as None, is still reported by has_secret, and harms no other key. */
  lemma BadMacReadsNone(c: Crypto, ks: Keys, f: File, key: string, blob: Bytes, other: string)
    requires f.Doc? && !MacOk(c, ks, blob) && other != key
    ensures var f' := Doc(f.entries[key := ToHex(blob)]);
            && Lookup(c, ks, f', key) == None
            && key in Loaded(f')
            && Lookup(c, ks, f', other) == Lookup(c, ks, f, other)
            && Meaning(c, ks, f') == Meaning(c, ks, f) - {key}
  {
    BadMacOpensNot(c, ks, blob);
  }

  /** has_secret and get_secret agree on a key exactly when it is absent or its value opens under the keys. */
  lemma HasAgreesWithGetExactlyWhen(c: Crypto, ks: Keys, f: File, key: string)
    ensures FileAnswer(c, ks, f, Has(key)) == Present(FileAnswer(c, ks, f, Get(key)).value.Some?)
       <==> (key in Loaded(f) ==> key in Meaning(c, ks, f))
  {
  }

  /** The store answers every sequence of operations as a plain map does exactly when every stored value opens. */
  lemma RefinesExactlyWhenAllOpen(c: Crypto, ks: Keys, f: File)
    requires Lawful(c)
    ensures (forall ops :: IvsOk(ops) ==> FileAnswers(c, ks, f, ops) == MapAnswers(c, Meaning(c, ks, f), ops)) <==> AllOpen(c, ks, f)
  {
    if AllOpen(c, ks, f) {
      forall ops | IvsOk(ops) ensures FileAnswers(c, ks, f, ops) == MapAnswers(c, Meaning(c, ks, f), ops) {
        StoreRefinesMap(c, ks, f, ops);
      }
    } else {
      var k :| k in Loaded(f) && Opened(c, ks, Loaded(f)[k]).None?;
      var ops := [Has(k)];
      assert IvsOk(ops);
      assert FileAnswers(c, ks, f, ops)[0] == Present(true) && MapAnswers(c, Meaning(c, ks, f), ops)[0] == Present(false);
    }
  }

  /** A file that is not JSON counts as empty: the next set_secret replaces all of it. */
  lemma SetAfterCorruption(c: Crypto, ks: Keys, key: string, value: string, iv: Bytes)
    requires Lawful(c) && |iv| == IV_LENGTH && c.encode(value).Some?
    ensures Meaning(c, ks, AfterSet(c, ks, NotJson, key, value, iv)) == map[key := value]
  {
    SetIsUpdate(c, ks, NotJson, key, value, iv);
    assert Meaning(c, ks, NotJson) == map[];
  }

  /** A store that does not exist yet, or is not JSON, is the empty map. */
  lemma StartsEmpty(c: Crypto, ks: Keys, f: File, ops: seq<Op>)
    requires Lawful(c) && IvsOk(ops) && !f.Doc?
    ensures FileAnswers(c, ks, f, ops) == MapAnswers(c, map[], ops)
  {
    assert Meaning(c, ks, f) == map[];
    StoreRefinesMap(c, ks, f, ops);
  }
}
