/**
 * Secret encryption at rest (src/services/encryption/EncryptionService.ts):
 * AES-256-GCM (NIST SP 800-38D) with the output framed as the hex text of
 * salt ‖ iv ‖ ciphertext ‖ tag. The cipher, PBKDF2 (section 5.2 of RFC 8018),
 * UTF-8 and the random generator are not modelled: they are function-valued
 * parameters with only the properties stated in `WellBehaved`, and random
 * bytes are arguments.
 */
module Encryption {
  import opened Wrappers

  newtype byte = b: int | 0 <= b < 256

  const KeyLength: nat := 32
  const IvLength: nat := 16
  const SaltLength: nat := 64
  const TagLength: nat := 16
  /** The fixed salt and iteration count of the key derivation. */
  const DeriveSalt: string := "janym-salt"
  const DeriveIterations: nat := 100000

  const MissingKey: string := "ENCRYPTION_KEY environment variable is not set"
  const BadKeyLength: string := "Invalid key length"
  const AuthFailure: string := "Unsupported state or unable to authenticate data"

  /** The foreign primitives: `seal(key, iv, plaintext)` gives (ciphertext, tag);
      `open(key, iv, ciphertext, tag)` gives the plaintext, or `None` when the
      decipher throws; `derive(password, salt, iterations, length)` is PBKDF2. */
  datatype Primitives = Primitives(
    seal: (seq<byte>, seq<byte>, seq<byte>) -> (seq<byte>, seq<byte>),
    open: (seq<byte>, seq<byte>, seq<byte>, seq<byte>) -> Option<seq<byte>>,
    derive: (string, string, nat, nat) -> seq<byte>,
    utf8Encode: string -> seq<byte>,
    utf8Decode: seq<byte> -> string)

  /** What the model relies on: GCM keeps the length of the plaintext, emits a
      16-byte tag and opens what it sealed; PBKDF2 gives the length asked for;
      UTF-8 decoding inverts encoding. */
  ghost predicate WellBehaved(p: Primitives) {
    && (forall k, iv, pt :: |k| == KeyLength ==>
         |p.seal(k, iv, pt).0| == |pt| && |p.seal(k, iv, pt).1| == TagLength
         && p.open(k, iv, p.seal(k, iv, pt).0, p.seal(k, iv, pt).1) == Some(pt))
    && (forall pw, salt, n, len :: |p.derive(pw, salt, n, len)| == len)
    && (forall s :: p.utf8Decode(p.utf8Encode(s)) == s)
  }

  /** `Buffer.toString('hex')` digit: lower case. */
  function HexDigit(n: nat): (c: char)
    requires n < 16
    ensures HexValue(c) == Some(n)
  {
    if n < 10 then '0' + (n as char) else 'a' + ((n - 10) as char)
  }

  /** The value of one hex digit of either case. */
  function HexValue(c: char): (r: Option<nat>)
    ensures r.Some? ==> r.value < 16
    ensures r.Some? <==> '0' <= c <= '9' || 'a' <= c <= 'f' || 'A' <= c <= 'F'
  {
    if '0' <= c <= '9' then Some((c - '0') as nat)
    else if 'a' <= c <= 'f' then Some((c - 'a') as nat + 10)
    else if 'A' <= c <= 'F' then Some((c - 'A') as nat + 10)
    else None
  }

  predicate IsHex(s: string) {
    forall i :: 0 <= i < |s| ==> HexValue(s[i]).Some?
  }

  /** `toString('hex')`: two digits per byte, high nibble first. */
  function ToHex(bs: seq<byte>): (h: string)
    ensures |h| == 2 * |bs|
    ensures IsHex(h)
  {
    if bs == [] then []
    else [HexDigit(bs[0] as nat / 16), HexDigit(bs[0] as nat % 16)] + ToHex(bs[1..])
  }

  /** `Buffer.from(s, 'hex')`: pairs of digits are decoded until the first pair that
      is not one, and an odd trailing digit is dropped. */
  function FromHex(s: string): (bs: seq<byte>)
    ensures |bs| <= |s| / 2
    ensures IsHex(s) ==> |bs| == |s| / 2
  {
    if |s| < 2 then []
    else match (HexValue(s[0]), HexValue(s[1]))
      case (Some(hi), Some(lo)) =>
        assert IsHex(s) ==> IsHex(s[2..]) by {
          if IsHex(s) {
            forall i | 0 <= i < |s[2..]| ensures HexValue(s[2..][i]).Some? {
              assert s[2..][i] == s[i + 2];
            }
          }
        }
        [(hi * 16 + lo) as byte] + FromHex(s[2..])
      case _ => []
  }

  /** Hex encoding round-trips. */
  lemma {:induction false} FromHexToHex(bs: seq<byte>)
    ensures FromHex(ToHex(bs)) == bs
  {
    if bs != [] {
      var h := ToHex(bs);
      assert h[2..] == ToHex(bs[1..]);
      FromHexToHex(bs[1..]);
    }
  }

  /** A 64-character key with a non-hex first character decodes to no bytes at all. */
  lemma NonHexDecodesShort(k: string)
    requires |k| == 2 * KeyLength && HexValue(k[0]).None?
    ensures FromHex(k) == []
  {
  }

  /** `getEncryptionKey` as written: a key of 64 characters is taken to be hex,
      whatever its characters are. */
  function KeyAsWritten(env: Option<string>, p: Primitives): (r: Result<seq<byte>>)
    ensures env.None? || env == Some("") ==> r == Err(MissingKey)
    ensures r.Ok? && |env.value| != 2 * KeyLength ==>
      r.value == p.derive(env.value, DeriveSalt, DeriveIterations, KeyLength)
  {
    if env.None? || env.value == "" then Err(MissingKey)
    else if |env.value| == 2 * KeyLength then Ok(FromHex(env.value))
    else Ok(p.derive(env.value, DeriveSalt, DeriveIterations, KeyLength))
  }

  /** `getEncryptionKey` as intended: only a 64-digit hex string is decoded, every
      other non-empty key is derived with PBKDF2 and the fixed salt. */
  function Key(env: Option<string>, p: Primitives): (r: Result<seq<byte>>)
    ensures env.None? || env == Some("") ==> r == Err(MissingKey)
    ensures r.Ok? && !(|env.value| == 2 * KeyLength && IsHex(env.value)) ==>
      r.value == p.derive(env.value, DeriveSalt, DeriveIterations, KeyLength)
    ensures WellBehaved(p) && r.Ok? ==> |r.value| == KeyLength
  {
    if env.None? || env.value == "" then Err(MissingKey)
    else if |env.value| == 2 * KeyLength && IsHex(env.value) then Ok(FromHex(env.value))
    else Ok(p.derive(env.value, DeriveSalt, DeriveIterations, KeyLength))
  }

  /** The two rules agree except on 64-character keys that are not hex. */
  lemma KeyAgreesOnHex(env: Option<string>, p: Primitives)
    requires env.Some? ==> |env.value| != 2 * KeyLength || IsHex(env.value)
    ensures Key(env, p) == KeyAsWritten(env, p)
  {
  }

  /** A buffer index as `subarray` reads it: negative counts from the end, and
      everything is clamped to the buffer. */
  function Clamp(i: int, n: nat): (r: nat)
    ensures r <= n
    ensures 0 <= i <= n ==> r == i
  {
    if i < 0 then (if i + n < 0 then 0 else i + n) else if i > n then n else i
  }

  /** `Buffer.subarray(start, end)`. */
  function Subarray(b: seq<byte>, start: int, end: int): (r: seq<byte>)
    ensures 0 <= start <= end <= |b| ==> r == b[start..end]
  {
    var s := Clamp(start, |b|);
    var e := Clamp(end, |b|);
    if e <= s then [] else b[s..e]
  }

  /** `Buffer.concat([salt, iv, encrypted, authTag])`. */
  function Frame(salt: seq<byte>, iv: seq<byte>, ct: seq<byte>, tag: seq<byte>): (c: seq<byte>)
    ensures |c| == |salt| + |iv| + |ct| + |tag|
  {
    salt + iv + ct + tag
  }

  /** The four slices `decrypt` cuts: [0,64), [64,80), [80,n−16) and [n−16,n). */
  function Unframe(c: seq<byte>): (parts: (seq<byte>, seq<byte>, seq<byte>, seq<byte>))
    ensures |c| >= SaltLength + IvLength + TagLength ==>
      Frame(parts.0, parts.1, parts.2, parts.3) == c
  {
    (Subarray(c, 0, SaltLength), Subarray(c, SaltLength, SaltLength + IvLength),
     Subarray(c, SaltLength + IvLength, |c| - TagLength), Subarray(c, |c| - TagLength, |c|))
  }

  /** Cutting a framed buffer gives back its parts whenever they have the lengths
      `encrypt` produces. */
  lemma UnframeFrame(salt: seq<byte>, iv: seq<byte>, ct: seq<byte>, tag: seq<byte>)
    requires |salt| == SaltLength && |iv| == IvLength && |tag| == TagLength
    ensures Unframe(Frame(salt, iv, ct, tag)) == (salt, iv, ct, tag)
  {
    var c := Frame(salt, iv, ct, tag);
    assert c[0..SaltLength] == salt;
    assert c[SaltLength..SaltLength + IvLength] == iv;
    assert c[SaltLength + IvLength..|c| - TagLength] == ct;
    assert c[|c| - TagLength..|c|] == tag;
  }

  /** `encrypt` once the key is chosen: `createCipheriv` rejects a key that is not
      32 bytes long; `salt` and `iv` are the random bytes. */
  function EncryptWith(key: Result<seq<byte>>, p: Primitives, salt: seq<byte>, iv: seq<byte>, plaintext: string): (r: Result<string>)
    ensures key.Err? ==> r == Err(key.error)
    ensures key.Ok? && |key.value| != KeyLength ==> r == Err(BadKeyLength)
    ensures key.Ok? && |key.value| == KeyLength <==> r.Ok?
    ensures r.Ok? ==> var sealed := p.seal(key.value, iv, p.utf8Encode(plaintext));
      r.value == ToHex(Frame(salt, iv, sealed.0, sealed.1))
  {
    if key.Err? then Err(key.error)
    else if |key.value| != KeyLength then Err(BadKeyLength)
    else
      var sealed := p.seal(key.value, iv, p.utf8Encode(plaintext));
      Ok(ToHex(Frame(salt, iv, sealed.0, sealed.1)))
  }

  /** `encrypt`. */
  function Encrypt(env: Option<string>, p: Primitives, salt: seq<byte>, iv: seq<byte>, plaintext: string): (r: Result<string>)
    requires |salt| == SaltLength && |iv| == IvLength
    ensures WellBehaved(p) ==> (r.Ok? <==> Key(env, p).Ok?)
    ensures WellBehaved(p) && r.Ok? ==>
      |r.value| == 2 * (SaltLength + IvLength + |p.utf8Encode(plaintext)| + TagLength)
    ensures r.Ok? ==> Key(env, p).Ok? && |Key(env, p).value| == KeyLength
    ensures r.Ok? ==> var sealed := p.seal(Key(env, p).value, iv, p.utf8Encode(plaintext));
      r.value == ToHex(Frame(salt, iv, sealed.0, sealed.1))
  {
    EncryptWith(Key(env, p), p, salt, iv, plaintext)
  }

  /** `decrypt`: decode the hex, cut the frame, and open it with the same key. */
  function Decrypt(env: Option<string>, p: Primitives, text: string): (r: Result<string>)
    ensures Key(env, p).Err? ==> r == Err(Key(env, p).error)
    ensures Key(env, p).Ok? && |Key(env, p).value| != KeyLength ==> r == Err(BadKeyLength)
    ensures Key(env, p).Ok? && |Key(env, p).value| == KeyLength ==>
      var parts := Unframe(FromHex(text));
      && (p.open(Key(env, p).value, parts.1, parts.2, parts.3).None? ==> r == Err(AuthFailure))
      && (p.open(Key(env, p).value, parts.1, parts.2, parts.3).Some? ==>
            r == Ok(p.utf8Decode(p.open(Key(env, p).value, parts.1, parts.2, parts.3).value)))
  {
    var key := Key(env, p);
    if key.Err? then Err(key.error)
    else if |key.value| != KeyLength then Err(BadKeyLength)
    else
      var parts := Unframe(FromHex(text));
      match p.open(key.value, parts.1, parts.2, parts.3)
      case None => Err(AuthFailure)
      case Some(pt) => Ok(p.utf8Decode(pt))
  }

  /** `decrypt` inverts `encrypt` under the same key, whatever salt and iv were drawn. */
  lemma DecryptEncrypt(env: Option<string>, p: Primitives, salt: seq<byte>, iv: seq<byte>, plaintext: string)
    requires WellBehaved(p) && Key(env, p).Ok?
    requires |salt| == SaltLength && |iv| == IvLength
    ensures Encrypt(env, p, salt, iv, plaintext).Ok?
    ensures Decrypt(env, p, Encrypt(env, p, salt, iv, plaintext).value) == Ok(plaintext)
  {
    var key := Key(env, p).value;
    var sealed := p.seal(key, iv, p.utf8Encode(plaintext));
    var c := Frame(salt, iv, sealed.0, sealed.1);
    FromHexToHex(c);
    UnframeFrame(salt, iv, sealed.0, sealed.1);
  }

  /** `generateKey`: 32 random bytes as 64 hex digits. */
  function GenerateKey(random: seq<byte>): (k: string)
    requires |random| == KeyLength
    ensures |k| == 2 * KeyLength && IsHex(k)
  {
    ToHex(random)
  }

  /** A generated key, set as `ENCRYPTION_KEY`, is used as the very bytes drawn. */
  lemma GeneratedKeyIsUsedAsIs(random: seq<byte>, p: Primitives)
    requires |random| == KeyLength
    ensures Key(Some(GenerateKey(random)), p) == Ok(random)
  {
    FromHexToHex(random);
  }

  /** The discrepancy: a 64-character passphrase that is not hex becomes an empty key
      under the written rule, so every encryption fails; the intended rule derives a
      full key from it. */
  lemma NonHexKeyOfHexLength(k: string, p: Primitives, salt: seq<byte>, iv: seq<byte>, plaintext: string)
    requires WellBehaved(p)
    requires |k| == 2 * KeyLength && HexValue(k[0]).None?
    requires |salt| == SaltLength && |iv| == IvLength
    ensures KeyAsWritten(Some(k), p) == Ok([])
    ensures EncryptWith(KeyAsWritten(Some(k), p), p, salt, iv, plaintext) == Err(BadKeyLength)
    ensures Encrypt(Some(k), p, salt, iv, plaintext).Ok?
  {
    NonHexDecodesShort(k);
  }
}
