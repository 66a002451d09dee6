/** What a credential blob is made of, byte by byte: cipher feedback block by block, the derived keys, and the
    tag that ties the blob to a name. */
module CredentialShape {
  import opened Options
  import opened ByteCodec
  import opened Credential

  lemma {:induction false} XorAt(a: Bytes, b: Bytes, i: nat)
    requires i < |Xor(a, b)|
    ensures Xor(a, b)[i] == a[i] ^ b[i]
  {
    if i > 0 {
      XorAt(a[1..], b[1..], i - 1);
    }
  }

  /** The `k`th block of 16 bytes; the last one may be short. */
  function Piece(b: Bytes, k: nat): Bytes {
    if k == 0 then if |b| <= 16 then b else b[..16]
    else if |b| <= 16 then [] else Piece(b[16..], k - 1)
  }

  lemma CfbFirst(c: Crypto, key: Bytes, iv: Bytes, data: Bytes)
    requires Sized(c) && |iv| == 16 && data != []
    ensures var o, enc := Xor(Piece(data, 0), c.cipher(key, iv)), Cfb(c, key, iv, data, false);
            && |o| == |Piece(data, 0)| && Piece(enc, 0) == o
            && (|data| > 16 ==> |enc| > 16 && enc[16..] == Cfb(c, key, o, data[16..], false))
  {
    var n := if |data| < 16 then |data| else 16;
    var chunk := data[..n];
    var o := Xor(chunk, c.cipher(key, iv));
    assert chunk == Piece(data, 0);
    CfbLength(c, key, Feedback(iv, o), data[n..], false);
    hide Xor;
    var enc, more := Cfb(c, key, iv, data, false), Cfb(c, key, Feedback(iv, o), data[n..], false);
    assert enc == o + more;
    if |data| > 16 {
      assert Feedback(iv, o) == o;
      assert enc[16..] == more && enc[..16] == o;
    } else {
      assert data[n..] == [] && enc == o;
    }
  }

  /** Each 16-byte block of the ciphertext is the plaintext block xored with the cipher of the ciphertext block
      before it, the first with the cipher of the initial value. */
  lemma {:induction false} CfbBlock(c: Crypto, key: Bytes, iv: Bytes, data: Bytes, k: nat)
    requires Sized(c) && |iv| == 16 && Piece(data, k) != []
    ensures var enc := Cfb(c, key, iv, data, false);
            Piece(enc, k) == Xor(Piece(data, k), c.cipher(key, if k == 0 then iv else Piece(enc, k - 1)))
    decreases k
  {
    CfbFirst(c, key, iv, data);
    hide Cfb, Xor;
    if k > 0 {
      var o := Xor(Piece(data, 0), c.cipher(key, iv));
      CfbBlock(c, key, o, data[16..], k - 1);
    }
  }

  /** What the MAC of a derivation covers: the counter, the label, a zero byte, both contexts and the number of
      bits. */
  function Covered(counter: nat, tag: Bytes, u: Bytes, v: Bytes, bits: nat): Bytes {
    Be(counter, 4) + (tag + ([0] + (u + (v + Be(bits, 4)))))
  }

  lemma OneBlock(c: Crypto, key: Bytes, tag: Bytes, u: Bytes, v: Bytes, bits: nat, one: nat)
    requires one == 1
    ensures KdfBlocks(c, key, tag, u, v, bits, one) == c.mac(key, Covered(one, tag, u, v, bits))
  {
    hide Be;
    assert KdfMessage(tag, u, v, bits, one) == Covered(one, tag, u, v, bits);
    assert KdfBlocks(c, key, tag, u, v, bits, 0) == [];
    assert [] + c.mac(key, Covered(one, tag, u, v, bits)) == c.mac(key, Covered(one, tag, u, v, bits));
  }

  /** The two keys: 16 bytes for the cipher, bound to the name, and 32 bytes for the tag. */
  lemma KeysAre(c: Crypto, seed: Bytes, name: Bytes, one: nat)
    requires Sized(c) && one == 1
    ensures var m := c.mac(seed, Covered(one, STORAGE, name, [], 128)); |m| == 32 && SymKey(c, seed, name) == m[..16]
    ensures MacKey(c, seed) == c.mac(seed, Covered(one, INTEGRITY, [], [], 256))
  {
    hide KdfBlocks, Be, Covered;
    OneBlock(c, seed, STORAGE, name, [], 128, one);
    OneBlock(c, seed, INTEGRITY, [], [], 256, one);
    var m := c.mac(seed, Covered(one, INTEGRITY, [], [], 256));
    assert |m| == 32 && m[..32] == m;
  }

  /** Opened with another seed or for another name, a blob gives nothing unless the two tags agree. */
  lemma OtherNameFails(c: Crypto, seed: Bytes, name: Bytes, secret: Bytes, seed': Bytes, name': Bytes)
    requires Sized(c) && |secret| <= MAX_SECRET
    ensures var enc := Seal(c, seed, name, secret);
            Open(c, seed', name', Make(c, seed, name, secret)).Some? ==>
              c.mac(MacKey(c, seed'), enc + name') == c.mac(MacKey(c, seed), enc + name)
  {
    hide Cfb, Kdfa, Frame, TakeFrame;
    var enc := Seal(c, seed, name, secret);
    FrameWhole(secret, []);
    CfbLength(c, SymKey(c, seed, name), ZERO, Frame(secret), false);
    var tag := c.mac(MacKey(c, seed), enc + name);
    FrameWhole(tag, enc);
    FrameWhole(Frame(tag) + enc, []);
  }
}
