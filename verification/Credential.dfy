/** TPM credential challenges (crates/attest/src/tpm.rs; section 24 of TPM 2.0 Part 1). The block
    cipher and the MAC are parameters; the seed's RSA transport is left out. */
module Credential {
  import opened Options
  import opened ByteCodec

  datatype Crypto = Crypto(cipher: (Bytes, Bytes) -> Bytes, mac: (Bytes, Bytes) -> Bytes)

  /** The sizes of AES-128 and HMAC-SHA256. */
  ghost predicate Sized(c: Crypto) {
    && (forall k, b :: |b| == 16 ==> |c.cipher(k, b)| == 16)
    && (forall k, m :: |c.mac(k, m)| == 32)
  }

  const STORAGE: Bytes := [83, 84, 79, 82, 65, 71, 69]
  const INTEGRITY: Bytes := [73, 78, 84, 69, 71, 82, 73, 84, 89]

  // ---- key derivation

  function KdfMessage(tag: Bytes, u: Bytes, v: Bytes, bits: nat, counter: nat): Bytes {
    Be(counter, 4) + tag + [0] + u + v + Be(bits, 4)
  }

  function KdfBlocks(c: Crypto, key: Bytes, tag: Bytes, u: Bytes, v: Bytes, bits: nat, n: nat): Bytes {
    if n == 0 then []
    else KdfBlocks(c, key, tag, u, v, bits, n - 1) + c.mac(key, KdfMessage(tag, u, v, bits, n))
  }

  function Kdfa(c: Crypto, key: Bytes, tag: Bytes, u: Bytes, v: Bytes, bits: nat): Bytes {
    var bytes := (bits + 7) / 8;
    var all := KdfBlocks(c, key, tag, u, v, bits, (bytes + 31) / 32);
    if bytes <= |all| then all[..bytes] else all
  }

  lemma {:induction false} KdfLength(c: Crypto, key: Bytes, tag: Bytes, u: Bytes, v: Bytes, bits: nat, n: nat)
    requires Sized(c)
    ensures |KdfBlocks(c, key, tag, u, v, bits, n)| == 32 * n
  {
    hide KdfMessage;
    if n > 0 {
      KdfLength(c, key, tag, u, v, bits, n - 1);
    }
  }

  /** Appends MAC blocks until there are enough bytes, then truncates. */
  method KdfLoop(c: Crypto, key: Bytes, tag: Bytes, u: Bytes, v: Bytes, bits: nat) returns (out: Bytes)
    requires Sized(c)
    ensures out == Kdfa(c, key, tag, u, v, bits) && |out| == (bits + 7) / 8
  {
    hide KdfMessage;
    var bytes := (bits + 7) / 8;
    out := [];
    var counter := 1;
    while |out| < bytes
      invariant counter >= 1 && out == KdfBlocks(c, key, tag, u, v, bits, counter - 1)
      invariant |out| == 32 * (counter - 1) && counter - 1 <= (bytes + 31) / 32
      decreases (bytes + 31) / 32 - counter
    {
      out := out + c.mac(key, KdfMessage(tag, u, v, bits, counter));
      counter := counter + 1;
    }
    KdfLength(c, key, tag, u, v, bits, (bytes + 31) / 32);
    out := out[..bytes];
  }

  // ---- cipher feedback

  /** Pairs bytes up to the shorter length. */
  function Xor(a: Bytes, b: Bytes): (r: Bytes)
    ensures |r| == if |a| <= |b| then |a| else |b|
  {
    if a == [] || b == [] then [] else [a[0] ^ b[0]] + Xor(a[1..], b[1..])
  }

  function Feedback(iv: Bytes, f: Bytes): Bytes
    requires |f| <= |iv|
  {
    f + iv[|f|..]
  }

  /** Cipher feedback from `iv`. The last chunk may be short. */
  function Cfb(c: Crypto, key: Bytes, iv: Bytes, data: Bytes, decrypt: bool): Bytes
    requires |iv| == 16
    decreases |data|
  {
    if data == [] then []
    else
      var n := if |data| < 16 then |data| else 16;
      var chunk := data[..n];
      var o := Xor(chunk, c.cipher(key, iv));
      o + Cfb(c, key, Feedback(iv, if decrypt then chunk else o), data[n..], decrypt)
  }

  const ZERO: Bytes := [0, 0, 0, 0, 0, 0, 0, 0, 0, 0, 0, 0, 0, 0, 0, 0]

  method CfbLoop(c: Crypto, key: Bytes, data: Bytes, decrypt: bool) returns (out: Bytes)
    ensures out == Cfb(c, key, ZERO, data, decrypt)
  {
    hide Xor;
    var iv, rest := ZERO, data;
    out := [];
    while rest != []
      invariant |iv| == 16 && out + Cfb(c, key, iv, rest, decrypt) == Cfb(c, key, ZERO, data, decrypt)
      decreases |rest|
    {
      var n := if |rest| < 16 then |rest| else 16;
      var chunk := rest[..n];
      var o := Xor(chunk, c.cipher(key, iv));
      var next := Feedback(iv, if decrypt then chunk else o);
      Regroup(out, o, Cfb(c, key, next, rest[n..], decrypt));
      iv, out, rest := next, out + o, rest[n..];
    }
  }

  lemma Regroup(a: Bytes, b: Bytes, r: Bytes)
    ensures a + (b + r) == a + b + r
  {
  }

  lemma {:induction false} CfbLength(c: Crypto, key: Bytes, iv: Bytes, data: Bytes, decrypt: bool)
    requires Sized(c) && |iv| == 16
    ensures |Cfb(c, key, iv, data, decrypt)| == |data|
    decreases |data|
  {
    if data != [] {
      var n := if |data| < 16 then |data| else 16;
      var chunk := data[..n];
      var o := Xor(chunk, c.cipher(key, iv));
      CfbLength(c, key, Feedback(iv, if decrypt then chunk else o), data[n..], decrypt);
    }
  }

  lemma {:induction false} XorTwice(a: Bytes, b: Bytes)
    requires |a| <= |b|
    ensures Xor(Xor(a, b), b) == a
  {
    if a != [] {
      XorTwice(a[1..], b[1..]);
      assert Xor(a, b)[1..] == Xor(a[1..], b[1..]);
      assert (a[0] ^ b[0]) ^ b[0] == a[0];
    }
  }

  /** Decryption undoes encryption, a partial last block included. */
  lemma {:induction false} CfbInverse(c: Crypto, key: Bytes, iv: Bytes, data: Bytes)
    requires Sized(c) && |iv| == 16
    ensures Cfb(c, key, iv, Cfb(c, key, iv, data, false), true) == data
    decreases |data|
  {
    if data != [] {
      var n := if |data| < 16 then |data| else 16;
      var chunk, ks := data[..n], c.cipher(key, iv);
      var o := Xor(chunk, ks);
      var rest := Cfb(c, key, Feedback(iv, o), data[n..], false);
      var enc := Cfb(c, key, iv, data, false);
      CfbLength(c, key, Feedback(iv, o), data[n..], false);
      assert enc == o + rest;
      assert enc[..n] == o && enc[n..] == rest;
      XorTwice(chunk, ks);
      CfbInverse(c, key, Feedback(iv, o), data[n..]);
      assert |enc| == |data|;
      assert Cfb(c, key, iv, enc, true) == chunk + data[n..];
    }
  }

  // ---- the challenge

  function SymKey(c: Crypto, seed: Bytes, name: Bytes): Bytes {
    Kdfa(c, seed, STORAGE, name, [], 128)
  }

  function MacKey(c: Crypto, seed: Bytes): Bytes {
    Kdfa(c, seed, INTEGRITY, [], [], 256)
  }

  function Seal(c: Crypto, seed: Bytes, name: Bytes, secret: Bytes): Bytes {
    Cfb(c, SymKey(c, seed, name), ZERO, Frame(secret), false)
  }

  /** The credential blob for the key named `name`. */
  function Make(c: Crypto, seed: Bytes, name: Bytes, secret: Bytes): Bytes {
    var enc := Seal(c, seed, name, secret);
    Frame(Frame(c.mac(MacKey(c, seed), enc + name)) + enc)
  }

  function Open(c: Crypto, seed: Bytes, name: Bytes, blob: Bytes): Option<Bytes> {
    match TakeFrame(blob)
    case Short => None
    case Got(inner, _) =>
      match TakeFrame(inner)
      case Short => None
      case Got(tag, enc) =>
        if c.mac(MacKey(c, seed), enc + name) != tag then None
        else
          match TakeFrame(Cfb(c, SymKey(c, seed, name), ZERO, enc, true))
          case Short => None
          case Got(secret, _) => Some(secret)
  }

  method MakeCredential(c: Crypto, seed: Bytes, name: Bytes, secret: Bytes) returns (blob: Bytes)
    requires Sized(c)
    ensures blob == Make(c, seed, name, secret)
  {
    var sym := KdfLoop(c, seed, STORAGE, name, [], 128);
    var enc := CfbLoop(c, sym, Frame(secret), false);
    var key := KdfLoop(c, seed, INTEGRITY, [], [], 256);
    blob := Frame(Frame(c.mac(key, enc + name)) + enc);
  }

  method OpenCredential(c: Crypto, seed: Bytes, name: Bytes, blob: Bytes) returns (secret: Option<Bytes>)
    requires Sized(c)
    ensures secret == Open(c, seed, name, blob)
  {
    var r := new Reader(blob);
    var inner := r.Framed();
    if inner.None? {
      return None;
    }
    r := new Reader(inner.value);
    var tag := r.Framed();
    if tag.None? {
      return None;
    }
    var enc := r.Rest();
    var key := KdfLoop(c, seed, INTEGRITY, [], [], 256);
    if c.mac(key, enc + name) != tag.value {
      return None;
    }
    var sym := KdfLoop(c, seed, STORAGE, name, [], 128);
    var plain := CfbLoop(c, sym, enc, true);
    r := new Reader(plain);
    secret := r.Framed();
  }

  /** The longest secret whose blob still fits the two-byte length. */
  const MAX_SECRET: nat := 65499

  lemma OpensShort(c: Crypto, seed: Bytes, name: Bytes, secret: Bytes)
    requires Sized(c) && |secret| <= MAX_SECRET
    ensures Open(c, seed, name, Make(c, seed, name, secret)) == Some(secret)
  {
    hide Cfb, Kdfa, Frame, TakeFrame;
    var enc := Seal(c, seed, name, secret);
    FrameWhole(secret, []);
    CfbLength(c, SymKey(c, seed, name), ZERO, Frame(secret), false);
    var tag := c.mac(MacKey(c, seed), enc + name);
    FrameWhole(tag, enc);
    FrameWhole(Frame(tag) + enc, []);
    CfbInverse(c, SymKey(c, seed, name), ZERO, Frame(secret));
  }

  /** What opens is at least four bytes shorter than the outer frame. */
  lemma OpenBound(c: Crypto, seed: Bytes, name: Bytes, blob: Bytes)
    requires Sized(c)
    ensures var s := Open(c, seed, name, blob);
            s.Some? ==> TakeFrame(blob).Got? && |s.value| + 4 <= |TakeFrame(blob).value|
  {
    hide Kdfa, Cfb;
    var s := Open(c, seed, name, blob);
    if s.Some? {
      CfbLength(c, SymKey(c, seed, name), ZERO, TakeFrame(TakeFrame(blob).value).rest, true);
    }
  }

  /** Opening with the same seed and name recovers the secret exactly when it has at most 65499 bytes:
      above that the outer length wraps. */
  lemma CredentialExact(c: Crypto, seed: Bytes, name: Bytes, secret: Bytes)
    requires Sized(c)
    ensures Open(c, seed, name, Make(c, seed, name, secret)) == Some(secret) <==> |secret| <= MAX_SECRET
  {
    hide Cfb, Kdfa, Open, Frame, TakeFrame, Wrapped;
    if |secret| <= MAX_SECRET {
      OpensShort(c, seed, name, secret);
    } else {
      var enc := Seal(c, seed, name, secret);
      CfbLength(c, SymKey(c, seed, name), ZERO, Frame(secret), false);
      FrameFront(secret, []);
      var tag := c.mac(MacKey(c, seed), enc + name);
      FrameFront(tag, enc);
      var inner := Frame(tag) + enc;
      FrameFront(inner, []);
      assert Frame(inner) + [] == Frame(inner);
      OpenBound(c, seed, name, Make(c, seed, name, secret));
    }
  }
}
