/** Fixed-width integers as bytes, and reads at an offset. */
module ByteCodec {
  import opened Options

  type Bytes = seq<bv8>

  /** The low byte of `n`, as a number and as a byte. */
  function Low(n: nat): (r: nat)
    ensures r < 256
  {
    n % 256
  }

  function Byte(n: nat): bv8 {
    Low(n) as bv8
  }

  function Value(b: bv8): nat {
    b as nat
  }

  lemma Converted(r: nat)
    requires r < 256
    ensures Value(r as bv8) == r
  {
  }

  lemma ByteValue(n: nat)
    ensures Value(Byte(n)) == n % 256
  {
    hide Value;
    Converted(Low(n));
  }

  function Pow256(k: nat): nat {
    if k == 0 then 1 else 256 * Pow256(k - 1)
  }

  /** The low `k` bytes of `n`, least significant first. */
  function Le(n: nat, k: nat): (b: Bytes)
    ensures |b| == k
    decreases k
  {
    if k == 0 then [] else [Byte(n)] + Le(n / 256, k - 1)
  }

  function FromLe(b: Bytes): nat {
    if b == [] then 0 else Value(b[0]) + 256 * FromLe(b[1..])
  }

  /** The low `k` bytes of `n`, most significant first. */
  function Be(n: nat, k: nat): (b: Bytes)
    ensures |b| == k
    decreases k
  {
    if k == 0 then [] else Be(n / 256, k - 1) + [Byte(n)]
  }

  function FromBe(b: Bytes): nat {
    if b == [] then 0 else 256 * FromBe(b[..|b| - 1]) + Value(b[|b| - 1])
  }

  lemma {:induction false} LeRoundTrip(n: nat, k: nat)
    requires n < Pow256(k)
    ensures FromLe(Le(n, k)) == n
    decreases k
  {
    if k > 0 {
      hide Byte, Value;
      LeRoundTrip(n / 256, k - 1);
      ByteValue(n);
      assert Le(n, k)[1..] == Le(n / 256, k - 1);
    }
  }

  lemma {:induction false} BeRoundTrip(n: nat, k: nat)
    requires n < Pow256(k)
    ensures FromBe(Be(n, k)) == n
    decreases k
  {
    if k > 0 {
      hide Byte, Value;
      BeRoundTrip(n / 256, k - 1);
      ByteValue(n);
      assert Be(n, k)[..k - 1] == Be(n / 256, k - 1);
    }
  }

  lemma Recast(b: bv8)
    ensures b as nat < 256 && (b as nat) as bv8 == b
  {
  }

  lemma ConvertedBack(b: bv8)
    ensures Value(b) < 256 && Byte(Value(b)) == b
  {
    Recast(b);
    assert Low(Value(b)) == Value(b);
  }

  lemma LowDigit(k: nat, r: nat)
    requires r < 256
    ensures (256 * k + r) / 256 == k && Byte(256 * k + r) == Byte(r)
  {
    assert Low(256 * k + r) == Low(r);
  }

  /** Every byte string is the encoding of its value. */
  lemma {:induction false} BeOfFromBe(b: Bytes)
    ensures Be(FromBe(b), |b|) == b
  {
    hide Byte, Value;
    if b != [] {
      var less, x := b[..|b| - 1], b[|b| - 1];
      BeOfFromBe(less);
      ConvertedBack(x);
      LowDigit(FromBe(less), Value(x));
      BeStep(FromBe(less), Value(x), |less|);
      assert b == less + [x];
    }
  }

  lemma BeStep(k: nat, r: nat, n: nat)
    requires (256 * k + r) / 256 == k
    ensures Be(256 * k + r, n + 1) == Be(k, n) + [Byte(256 * k + r)]
  {
    hide Byte;
  }

  lemma {:induction false} LeOfFromLe(b: Bytes)
    ensures Le(FromLe(b), |b|) == b && FromLe(b) < Pow256(|b|)
  {
    hide Byte, Value;
    if b != [] {
      var rest, x := b[1..], b[0];
      LeOfFromLe(rest);
      ConvertedBack(x);
      LowDigit(FromLe(rest), Value(x));
      LeStep(FromLe(rest), Value(x), |rest|);
      assert b == [x] + rest;
    }
  }

  lemma LeStep(k: nat, r: nat, n: nat)
    requires (256 * k + r) / 256 == k
    ensures Le(256 * k + r, n + 1) == [Byte(256 * k + r)] + Le(k, n)
  {
    hide Byte;
  }

  lemma Widths()
    ensures Pow256(1) == 0x100 && Pow256(2) == 0x1_0000 && Pow256(4) == 0x1_0000_0000
    ensures Pow256(8) == 0x1_0000_0000_0000_0000
  {
    assert Pow256(2) == 0x1_0000;
    assert Pow256(3) == 0x100_0000;
    assert Pow256(4) == 0x1_0000_0000;
    assert Pow256(5) == 0x100_0000_0000;
    assert Pow256(6) == 0x1_0000_0000_0000;
    assert Pow256(7) == 0x100_0000_0000_0000;
  }

  // ---- reads from the front

  datatype Parsed<T> = Got(value: T, rest: Bytes) | Short

  function TakeBytes(d: Bytes, n: nat): Parsed<Bytes> {
    if n <= |d| then Got(d[..n], d[n..]) else Short
  }

  function TakeLe(d: Bytes, n: nat): Parsed<nat> {
    match TakeBytes(d, n)
    case Got(b, rest) => Got(FromLe(b), rest)
    case Short => Short
  }

  function TakeBe(d: Bytes, n: nat): Parsed<nat> {
    match TakeBytes(d, n)
    case Got(b, rest) => Got(FromBe(b), rest)
    case Short => Short
  }

  /** A TPM2B: two-byte length, which wraps at 65536, and the bytes. */
  function Frame(b: Bytes): Bytes {
    Be(|b|, 2) + b
  }

  function TakeFrame(d: Bytes): Parsed<Bytes> {
    match TakeBe(d, 2)
    case Got(n, rest) => TakeBytes(rest, n)
    case Short => Short
  }

  lemma TakeFront(b: Bytes, rest: Bytes)
    ensures TakeBytes(b + rest, |b|) == Got(b, rest)
  {
    assert (b + rest)[..|b|] == b && (b + rest)[|b|..] == rest;
  }

  lemma TakeLeFront(n: nat, k: nat, rest: Bytes)
    requires n < Pow256(k)
    ensures TakeLe(Le(n, k) + rest, k) == Got(n, rest)
  {
    TakeFront(Le(n, k), rest);
    LeRoundTrip(n, k);
  }

  /** What was read is what was written. */
  lemma TakeLeBack(d: Bytes, k: nat)
    ensures var r := TakeLe(d, k); r.Got? ==> d == Le(r.value, k) + r.rest && r.value < Pow256(k)
  {
    if k <= |d| {
      LeOfFromLe(d[..k]);
      assert d == d[..k] + d[k..];
    }
  }

  lemma TakeBeFront(n: nat, k: nat, rest: Bytes)
    requires n < Pow256(k)
    ensures TakeBe(Be(n, k) + rest, k) == Got(n, rest)
  {
    TakeFront(Be(n, k), rest);
    BeRoundTrip(n, k);
  }

  /** A length kept in two bytes. */
  function Wrapped(n: nat): (m: nat)
    ensures m <= n && (n < 0x1_0000 ==> m == n) && (n >= 0x1_0000 ==> m <= n - 0x1_0000)
  {
    n % 0x1_0000
  }

  lemma WrappedLength(n: nat)
    ensures FromBe(Be(n, 2)) == Wrapped(n)
  {
    hide Byte, Value;
    var b, hi := Be(n, 2), [Byte(n / 256)];
    assert Be(n / 256 / 256, 0) == [];
    assert Be(n / 256, 1) == hi;
    assert b == hi + [Byte(n)] && b[..1] == hi && hi[..0] == [];
    assert FromBe(hi) == Value(Byte(n / 256));
    ByteValue(n);
    ByteValue(n / 256);
    TwoBytes(n, n / 256);
  }

  lemma TwoBytes(n: nat, q: nat)
    requires q == n / 256
    ensures 256 * (q % 256) + n % 256 == Wrapped(n)
  {
    assert n == 256 * q + n % 256;
    assert q == 256 * (q / 256) + q % 256;
  }

  lemma TakeBeWrapped(n: nat, rest: Bytes)
    ensures TakeBe(Be(n, 2) + rest, 2) == Got(Wrapped(n), rest)
  {
    hide Wrapped;
    TakeFront(Be(n, 2), rest);
    WrappedLength(n);
  }

  /** Reading a frame gives what was framed, cut to its length modulo 65536. */
  lemma FrameFront(b: Bytes, rest: Bytes)
    ensures var n := Wrapped(|b|); TakeFrame(Frame(b) + rest) == Got(b[..n], b[n..] + rest)
    ensures |Frame(b)| == 2 + |b|
  {
    var n := Wrapped(|b|);
    TakeBeWrapped(|b|, b + rest);
    hide TakeBe, Be, Wrapped;
    assert Frame(b) + rest == Be(|b|, 2) + (b + rest);
    assert b + rest == b[..n] + (b[n..] + rest);
    TakeFront(b[..n], b[n..] + rest);
  }

  lemma FrameWhole(b: Bytes, rest: Bytes)
    requires |b| < 0x1_0000
    ensures TakeFrame(Frame(b) + rest) == Got(b, rest) && TakeFrame(Frame(b)) == Got(b, [])
    ensures |Frame(b)| == 2 + |b|
  {
    hide TakeFrame, Frame, Wrapped;
    FrameFront(b, rest);
    FrameFront(b, []);
    assert b[..|b|] == b && b[|b|..] == [];
    assert [] + rest == rest && Frame(b) + [] == Frame(b);
  }

  /** The cursor TPM structures are parsed with. */
  class Reader {
    const d: Bytes
    var p: nat

    ghost predicate Valid()
      reads this
    {
      p <= |d|
    }

    function Rest(): Bytes
      reads this
      requires Valid()
    {
      d[p..]
    }

    constructor (d: Bytes)
      ensures Valid() && Rest() == d
    {
      this.d := d;
      p := 0;
    }

    method Take(n: nat) returns (b: Option<Bytes>)
      requires Valid()
      modifies this
      ensures Valid()
      ensures match TakeBytes(old(Rest()), n)
              case Got(v, rest) => b == Some(v) && Rest() == rest
              case Short => b == None && Rest() == old(Rest())
    {
      if p + n > |d| {
        return None;
      }
      assert d[p..][..n] == d[p..p + n] && d[p..][n..] == d[p + n..];
      b := Some(d[p..p + n]);
      p := p + n;
    }

    method Number(n: nat) returns (v: Option<nat>)
      requires Valid()
      modifies this
      ensures Valid()
      ensures match TakeBe(old(Rest()), n)
              case Got(x, rest) => v == Some(x) && Rest() == rest
              case Short => v == None
    {
      var b := Take(n);
      v := match b case Some(x) => Some(FromBe(x)) case None => None;
    }

    method Framed() returns (b: Option<Bytes>)
      requires Valid()
      modifies this
      ensures Valid()
      ensures match TakeFrame(old(Rest()))
              case Got(v, rest) => b == Some(v) && Rest() == rest
              case Short => b == None
    {
      var n := Number(2);
      match n {
        case None => b := None;
        case Some(k) => b := Take(k);
      }
    }
  }
}
