/** Signer bitmaps (crates/consensus/src/types.rs, `mod bitmap`). A decoded position is cast to
    `u16`, so it wraps at 65536: positions beyond the 8192nd byte alias earlier signers. */
module Bitmap {
  import opened Committee

  const INDEX_RANGE: nat := 0x1_0000

  /** Longest bitmap whose positions all fit a validator index. */
  const MAX_BYTES: nat := 8192

  /** `1 << k` on a byte. */
  function Mask(k: nat): bv8
    requires k < 8
  {
    if k == 0 then 1 else if k == 1 then 2 else if k == 2 then 4 else if k == 3 then 8
    else if k == 4 then 16 else if k == 5 then 32 else if k == 6 then 64 else 128
  }

  predicate Bit(x: bv8, k: nat)
    requires k < 8
  {
    x & Mask(k) != 0
  }

  predicate BitAt(b: seq<bv8>, p: nat) {
    p / 8 < |b| && Bit(b[p / 8], p % 8)
  }

  lemma BitOr(x: bv8, k: nat, j: nat)
    requires k < 8 && j < 8
    ensures Bit(x | Mask(k), j) <==> j == k || Bit(x, j)
  {
  }

  lemma ByteFromBits(x: bv8, y: bv8)
    requires forall k :: 0 <= k < 8 ==> (Bit(x, k) <==> Bit(y, k))
    ensures x == y
  {
    assert Bit(x, 0) == Bit(y, 0) && Bit(x, 1) == Bit(y, 1) && Bit(x, 2) == Bit(y, 2) && Bit(x, 3) == Bit(y, 3);
    assert Bit(x, 4) == Bit(y, 4) && Bit(x, 5) == Bit(y, 5) && Bit(x, 6) == Bit(y, 6) && Bit(x, 7) == Bit(y, 7);
  }

  /** A bitmap is determined by its length and its bits. */
  lemma BytesFromBits(a: seq<bv8>, b: seq<bv8>)
    requires |a| == |b|
    requires forall p: nat :: p < 8 * |a| ==> (BitAt(a, p) <==> BitAt(b, p))
    ensures a == b
  {
    forall i | 0 <= i < |a| ensures a[i] == b[i] {
      forall k | 0 <= k < 8 ensures Bit(a[i], k) <==> Bit(b[i], k) {
        var p := 8 * i + k;
        assert p / 8 == i && p % 8 == k;
        assert BitAt(a, p) <==> BitAt(b, p);
      }
      ByteFromBits(a[i], b[i]);
    }
  }

  /** The bytes left after setting the bits of `signers` in order. */
  function Encode(signers: seq<nat>, n: nat): (b: seq<bv8>)
    ensures |b| == (n + 7) / 8
  {
    if signers == [] then seq((n + 7) / 8, _ => 0)
    else
      var b := Encode(signers[..|signers| - 1], n);
      var i := signers[|signers| - 1];
      if i < n then b[i / 8 := b[i / 8] | Mask(i % 8)] else b
  }

  lemma SetBit(b: seq<bv8>, i: nat, p: nat)
    requires i / 8 < |b|
    ensures BitAt(b[i / 8 := b[i / 8] | Mask(i % 8)], p) <==> p == i || BitAt(b, p)
  {
    if p / 8 == i / 8 {
      BitOr(b[i / 8], i % 8, p % 8);
    }
  }

  lemma {:induction false} EncodeBits(signers: seq<nat>, n: nat, p: nat)
    ensures BitAt(Encode(signers, n), p) <==> p in signers && p < n
  {
    if signers == [] {
      ZeroBits((n + 7) / 8, p);
    } else {
      var rest, i := signers[..|signers| - 1], signers[|signers| - 1];
      EncodeBits(rest, n, p);
      assert signers == rest + [i];
      if i < n {
        SetBit(Encode(rest, n), i, p);
      }
    }
  }

  lemma ZeroBits(len: nat, p: nat)
    ensures !BitAt(seq(len, _ => 0), p)
  {
  }

  /** Positions below `p` whose bit is set, in order, each cast to an index. */
  function DecodeTo(b: seq<bv8>, p: nat): seq<nat> {
    if p == 0 then []
    else DecodeTo(b, p - 1) + (if BitAt(b, p - 1) then [(p - 1) % INDEX_RANGE] else [])
  }

  function Decode(b: seq<bv8>): seq<nat> {
    DecodeTo(b, 8 * |b|)
  }

  /** Sets each in-range signer's bit in a zeroed buffer. The result has exactly those bits set. */
  method EncodeLoop(signers: seq<nat>, n: nat) returns (b: seq<bv8>)
    ensures b == Encode(signers, n)
    ensures forall p: nat :: BitAt(b, p) <==> p in signers && p < n
  {
    b := seq((n + 7) / 8, _ => 0);
    for k := 0 to |signers|
      invariant b == Encode(signers[..k], n)
    {
      var i := signers[k];
      assert signers[..k + 1][..k] == signers[..k];
      if i < n {
        b := b[i / 8 := b[i / 8] | Mask(i % 8)];
      }
    }
    assert signers[..|signers|] == signers;
    forall p: nat ensures BitAt(b, p) <==> p in signers && p < n {
      EncodeBits(signers, n, p);
    }
  }

  /** Walks the bytes and the bits of each byte. */
  method DecodeLoop(b: seq<bv8>) returns (out: seq<nat>)
    ensures out == Decode(b)
    ensures |b| <= MAX_BYTES ==> Ascending(out) && forall x: nat :: x in out <==> BitAt(b, x)
  {
    hide Bit;
    out := [];
    for i := 0 to |b|
      invariant out == DecodeTo(b, 8 * i)
    {
      for k := 0 to 8
        invariant out == DecodeTo(b, 8 * i + k)
      {
        assert (8 * i + k) / 8 == i && (8 * i + k) % 8 == k;
        if Bit(b[i], k) {
          out := out + [(8 * i + k) % INDEX_RANGE];
        }
      }
    }
    if |b| <= MAX_BYTES {
      DecodeExact(b);
    }
  }

  lemma {:induction false} DecodeToExact(b: seq<bv8>, p: nat)
    requires p <= INDEX_RANGE
    ensures Ascending(DecodeTo(b, p))
    ensures forall i :: 0 <= i < |DecodeTo(b, p)| ==> DecodeTo(b, p)[i] < p
    ensures forall x: nat :: x in DecodeTo(b, p) <==> x < p && BitAt(b, x)
  {
    hide BitAt;
    if p > 0 {
      DecodeToExact(b, p - 1);
    }
  }

  /** A bitmap of at most 8192 bytes decodes to exactly its set positions, ascending. */
  lemma DecodeExact(b: seq<bv8>)
    requires |b| <= MAX_BYTES
    ensures Ascending(Decode(b))
    ensures forall x: nat :: x in Decode(b) <==> BitAt(b, x)
  {
    DecodeToExact(b, 8 * |b|);
  }

  predicate Lists(s: seq<nat>, members: set<nat>, n: nat) {
    && Ascending(s)
    && (forall i :: 0 <= i < |s| ==> s[i] < n && s[i] in members)
    && (forall x :: x in members && x < n ==> x in s)
  }

  lemma DropLargest(s: seq<nat>, members: set<nat>, n: nat)
    requires n > 0 && Lists(s, members, n) && n - 1 in members
    ensures |s| > 0 && s[|s| - 1] == n - 1 && Lists(s[..|s| - 1], members, n - 1)
  {
    var k :| 0 <= k < |s| && s[k] == n - 1;
    var m := |s| - 1;
    assert s[k] <= s[m] < n;
    assert k == m;
    var t: seq<nat> := s[..m];
    forall i | 0 <= i < m ensures t[i] < n - 1 {
      assert s[i] < s[m];
    }
    forall x | x in members && x < n - 1 ensures x in t {
      assert x in s;
      assert s == t + [n - 1];
    }
  }

  lemma DropAbsent(s: seq<nat>, members: set<nat>, n: nat)
    requires n > 0 && Lists(s, members, n) && n - 1 !in members
    ensures Lists(s, members, n - 1)
  {
  }

  lemma NoneBelow(s: seq<nat>, members: set<nat>)
    requires s != []
    ensures !Lists(s, members, 0)
  {
    assert s[0] >= 0;
  }

  /** An ascending list is the sorted list of its members. */
  lemma {:induction false} SortedUnique(s: seq<nat>, members: set<nat>, n: nat)
    requires Lists(s, members, n)
    ensures s == Sorted(members, n)
  {
    hide Lists;
    if n == 0 {
      if s != [] {
        NoneBelow(s, members);
      }
    } else if n - 1 in members {
      DropLargest(s, members, n);
      SortedUnique(s[..|s| - 1], members, n - 1);
      assert s == s[..|s| - 1] + [n - 1];
    } else {
      DropAbsent(s, members, n);
      SortedUnique(s, members, n - 1);
    }
  }

  /** Round trip: decoding an encoded signer list gives its distinct in-range members, ascending. */
  lemma RoundTrip(signers: seq<nat>, n: nat)
    requires n <= INDEX_RANGE
    ensures Decode(Encode(signers, n)) == Sorted(Elems(signers), n)
  {
    var b := Encode(signers, n);
    DecodeExact(b);
    forall x: nat ensures x in Decode(b) <==> x in signers && x < n {
      EncodeBits(signers, n, x);
    }
    var d := Decode(b);
    assert forall i :: 0 <= i < |d| ==> d[i] in d;
    SortedUnique(d, Elems(signers), n);
  }

  /** The other way round: encoding a decoded bitmap gives the bitmap back. */
  lemma EncodeDecoded(b: seq<bv8>)
    requires |b| <= MAX_BYTES
    ensures Encode(Decode(b), 8 * |b|) == b
  {
    DecodeExact(b);
    var e := Encode(Decode(b), 8 * |b|);
    hide Bit, Decode;
    forall p: nat | p < 8 * |e| ensures BitAt(e, p) <==> BitAt(b, p) {
      EncodeBits(Decode(b), 8 * |b|, p);
    }
    BytesFromBits(e, b);
  }

  /** No two set positions denote the same index. */
  ghost predicate NoAliases(b: seq<bv8>) {
    forall p: nat, q: nat :: p < q && BitAt(b, p) && BitAt(b, q) ==> p % INDEX_RANGE != q % INDEX_RANGE
  }

  lemma {:induction false} DecodeToMembers(b: seq<bv8>, p: nat, x: nat)
    ensures x in DecodeTo(b, p) <==> exists q: nat :: q < p && BitAt(b, q) && q % INDEX_RANGE == x
  {
    hide BitAt;
    if p > 0 {
      DecodeToMembers(b, p - 1, x);
      if BitAt(b, p - 1) && (p - 1) % INDEX_RANGE == x {
        assert x in DecodeTo(b, p);
      }
    }
  }

  ghost predicate NoAliasesBelow(b: seq<bv8>, p: nat) {
    forall q: nat, r: nat :: q < r < p && BitAt(b, q) && BitAt(b, r) ==> q % INDEX_RANGE != r % INDEX_RANGE
  }

  lemma AppendDistinct(s: seq<nat>, x: nat)
    ensures Distinct(s + [x]) <==> Distinct(s) && x !in s
  {
    var t := s + [x];
    assert forall i :: 0 <= i < |s| ==> t[i] == s[i];
    if Distinct(t) {
      assert forall i :: 0 <= i < |s| ==> s[i] != t[|s|];
    }
  }

  lemma NoAliasesStep(b: seq<bv8>, p: nat)
    ensures NoAliasesBelow(b, p + 1) <==>
            NoAliasesBelow(b, p) && (BitAt(b, p) ==> p % INDEX_RANGE !in DecodeTo(b, p))
  {
    hide Bit;
    DecodeToMembers(b, p, p % INDEX_RANGE);
    if BitAt(b, p) && p % INDEX_RANGE in DecodeTo(b, p) {
      var q: nat :| q < p && BitAt(b, q) && q % INDEX_RANGE == p % INDEX_RANGE;
      assert !NoAliasesBelow(b, p + 1);
    }
  }

  lemma {:induction false} DecodeToDistinct(b: seq<bv8>, p: nat)
    ensures Distinct(DecodeTo(b, p)) <==> NoAliasesBelow(b, p)
  {
    hide Bit, BitAt;
    if p > 0 {
      hide NoAliasesBelow, Distinct;
      DecodeToDistinct(b, p - 1);
      NoAliasesStep(b, p - 1);
      AppendDistinct(DecodeTo(b, p - 1), (p - 1) % INDEX_RANGE);
      assert DecodeTo(b, p - 1) + [] == DecodeTo(b, p - 1);
    }
  }

  lemma BelowIsAll(b: seq<bv8>)
    ensures NoAliasesBelow(b, 8 * |b|) <==> NoAliases(b)
  {
    hide Bit;
    assert forall p: nat :: BitAt(b, p) ==> p < 8 * |b|;
  }

  lemma ShortNoAliases(b: seq<bv8>)
    requires |b| <= MAX_BYTES
    ensures NoAliases(b)
  {
    hide Bit;
    forall p: nat, q: nat | p < q && BitAt(b, p) && BitAt(b, q) ensures p % INDEX_RANGE != q % INDEX_RANGE {
      assert q < 8 * |b| <= INDEX_RANGE;
    }
  }

  /** No signer of a bitmap is listed twice exactly when no two set positions alias; a bitmap of at
      most 8192 bytes never aliases. */
  lemma DistinctExactly(b: seq<bv8>)
    ensures Distinct(Decode(b)) <==> NoAliases(b)
    ensures |b| <= MAX_BYTES ==> NoAliases(b)
  {
    hide NoAliases, NoAliasesBelow, Distinct, DecodeTo;
    DecodeToDistinct(b, 8 * |b|);
    BelowIsAll(b);
    if |b| <= MAX_BYTES {
      ShortNoAliases(b);
    }
  }

  function Aliased(): seq<bv8> {
    [1] + seq(MAX_BYTES - 1, _ => 0 as bv8) + [1]
  }

  /** The smallest aliasing bitmap: bit 0 of bytes 0 and 8192 both decode to signer 0, whose weight
      then counts twice. */
  lemma AliasedBitmap(v: ValidatorSet)
    ensures Decode(Aliased()) == [0, 0] && v.WeightOf(Decode(Aliased())) == 2 * v.Weight(0)
  {
    var b := Aliased();
    AliasedPrefix(b, 8 * MAX_BYTES);
    AliasedSuffix(b, 8 * MAX_BYTES + 8);
    var twice: seq<nat> := [0, 0];
    var once: seq<nat> := twice[..1];
    assert once[..0] == [];
    assert v.WeightOf(twice) == v.WeightOf(once) + v.Weight(0);
  }

  lemma {:induction false} AliasedPrefix(b: seq<bv8>, p: nat)
    requires |b| == MAX_BYTES + 1 && b[0] == 1 && forall i :: 0 < i < MAX_BYTES ==> b[i] == 0
    requires 1 <= p <= 8 * MAX_BYTES
    ensures DecodeTo(b, p) == [0]
  {
    if p > 1 {
      AliasedPrefix(b, p - 1);
    } else {
      assert DecodeTo(b, 0) == [];
    }
  }

  lemma {:induction false} AliasedSuffix(b: seq<bv8>, p: nat)
    requires |b| == MAX_BYTES + 1 && b[0] == 1 && b[MAX_BYTES] == 1
    requires forall i :: 0 < i < MAX_BYTES ==> b[i] == 0
    requires 8 * MAX_BYTES < p <= 8 * MAX_BYTES + 8
    ensures DecodeTo(b, p) == [0, 0]
  {
    if p > 8 * MAX_BYTES + 1 {
      AliasedSuffix(b, p - 1);
    } else {
      AliasedPrefix(b, p - 1);
    }
  }
}
