/** Which byte strings parse as a quote and to what (crates/attest/src/tpm.rs, `Quote::parse`): the grammar of
    a quote with any number of register selections, against the parser. */
module Quotes {
  import opened Options
  import opened ByteCodec
  import opened MeasuredBoot
  import Bitmap

  /** A selection of registers in the bank of one algorithm. */
  datatype Sel = Sel(alg: nat, bits: Bytes)

  /** A quote as it stands on the wire. */
  datatype Layout = Layout(
    signer: Bytes,
    extra: Bytes,
    clock: nat,
    reset: nat,
    restart: nat,
    safe: nat,
    firmware: nat,
    sels: seq<Sel>,
    digest: Bytes)

  function WireSels(xs: seq<Sel>): Bytes
    decreases |xs|
  {
    if xs == [] then [] else Be(xs[0].alg, 2) + (Be(|xs[0].bits|, 1) + (xs[0].bits + WireSels(xs[1..])))
  }

  function WireTail(l: Layout): Bytes {
    Be(|l.sels|, 4) + (WireSels(l.sels) + Frame(l.digest))
  }

  function WireClock(l: Layout, rest: Bytes): Bytes {
    Be(l.clock, 8) + (Be(l.reset, 4) + (Be(l.restart, 4) + (Be(l.safe, 1) + (Be(l.firmware, 8) + rest))))
  }

  function WireQuote(l: Layout): Bytes {
    Be(TPM_GENERATED, 4) + (Be(ST_ATTEST_QUOTE, 2) + (Frame(l.signer) + (Frame(l.extra) + WireClock(l, WireTail(l)))))
  }

  /** Only SHA-256 registers may be selected. */
  predicate SelOk(x: Sel) {
    x.alg < 0x1_0000 && |x.bits| < 0x100 && (x.alg == ALG_SHA256 || AllZero(x.bits))
  }

  predicate SelsOk(xs: seq<Sel>) {
    forall i :: 0 <= i < |xs| ==> SelOk(xs[i])
  }

  predicate ClockOk(l: Layout) {
    && l.clock < 0x1_0000_0000_0000_0000 && l.firmware < 0x1_0000_0000_0000_0000
    && l.reset < 0x1_0000_0000 && l.restart < 0x1_0000_0000 && l.safe < 0x100
  }

  predicate LayoutOk(l: Layout) {
    && |l.signer| < 0x1_0000 && |l.extra| < 0x1_0000 && |l.digest| < 0x1_0000 && |l.sels| < 0x1_0000_0000
    && ClockOk(l) && SelsOk(l.sels)
  }

  // ---- selections

  /** The bits of SHA-256 selections, put together. */
  function Masked(mask: Bytes, xs: seq<Sel>): (m: Bytes)
    requires |mask| == 4
    ensures |m| == 4
    decreases |xs|
  {
    if xs == [] then mask
    else Masked(if xs[0].alg == ALG_SHA256 then AddSelection(mask, xs[0].bits) else mask, xs[1..])
  }

  ghost predicate Selects(xs: seq<Sel>, p: nat) {
    exists i :: 0 <= i < |xs| && xs[i].alg == ALG_SHA256 && Bitmap.BitAt(xs[i].bits, p)
  }

  lemma OrBits(x: bv8, y: bv8, k: nat)
    requires k < 8
    ensures Bitmap.Bit(x | y, k) <==> Bitmap.Bit(x, k) || Bitmap.Bit(y, k)
  {
  }

  lemma OrByteBits(mask: Bytes, sel: Bytes, i: nat, k: nat)
    requires i < |mask| && k < 8
    ensures Bitmap.Bit(OrByte(mask, sel, i), k) <==> Bitmap.Bit(mask[i], k) || (i < |sel| && Bitmap.Bit(sel[i], k))
  {
    hide Bitmap.Bit;
    if i < |sel| {
      OrBits(mask[i], sel[i], k);
    }
  }

  lemma AddByte(mask: Bytes, sel: Bytes, i: nat)
    requires |mask| == 4 && i < 3
    ensures AddSelection(mask, sel)[i] == OrByte(mask, sel, i) && AddSelection(mask, sel)[3] == mask[3]
  {
    hide OrByte;
    if i == 0 {
    } else if i == 1 {
    } else {
    }
  }

  lemma AddBits(mask: Bytes, sel: Bytes, p: nat)
    requires |mask| == 4 && p < PCR_COUNT
    ensures Bitmap.BitAt(AddSelection(mask, sel), p) <==> Bitmap.BitAt(mask, p) || Bitmap.BitAt(sel, p)
    ensures AddSelection(mask, sel)[3] == mask[3]
  {
    hide Bitmap.Bit, OrByte, AddSelection;
    var i, k := p / 8, p % 8;
    assert i < 3;
    AddByte(mask, sel, i);
    OrByteBits(mask, sel, i, k);
  }

  lemma SelectsFirst(xs: seq<Sel>, p: nat)
    requires xs != []
    ensures Selects(xs, p) <==> (xs[0].alg == ALG_SHA256 && Bitmap.BitAt(xs[0].bits, p)) || Selects(xs[1..], p)
  {
    hide Bitmap.BitAt;
    if i :| 0 <= i < |xs| && xs[i].alg == ALG_SHA256 && Bitmap.BitAt(xs[i].bits, p) {
      if i > 0 {
        assert xs[1..][i - 1] == xs[i];
      }
    }
    if j :| 0 <= j < |xs[1..]| && xs[1..][j].alg == ALG_SHA256 && Bitmap.BitAt(xs[1..][j].bits, p) {
      assert xs[j + 1] == xs[1..][j];
    }
  }

  lemma {:induction false} MaskedBits(mask: Bytes, xs: seq<Sel>, p: nat)
    requires |mask| == 4 && p < PCR_COUNT
    ensures Bitmap.BitAt(Masked(mask, xs), p) <==> Bitmap.BitAt(mask, p) || Selects(xs, p)
    ensures Masked(mask, xs)[3] == mask[3]
    decreases |xs|
  {
    hide Bitmap.BitAt, AddSelection;
    if xs != [] {
      SelectsFirst(xs, p);
      AddBits(mask, xs[0].bits, p);
      hide Selects;
      MaskedBits(if xs[0].alg == ALG_SHA256 then AddSelection(mask, xs[0].bits) else mask, xs[1..], p);
    }
  }

  /** A register is quoted exactly when some SHA-256 selection of the quote has its bit. */
  lemma MaskExactly(xs: seq<Sel>, p: nat)
    requires p < PCR_COUNT
    ensures Bitmap.BitAt(Masked([0, 0, 0, 0], xs), p) <==> Selects(xs, p)
    ensures Masked([0, 0, 0, 0], xs)[3] == 0
  {
    MaskedBits([0, 0, 0, 0], xs, p);
    NoBits(p);
    hide Masked, Bitmap.BitAt, Selects;
  }

  lemma NoBits(p: nat)
    ensures !Bitmap.BitAt([0, 0, 0, 0], p)
  {
    if p / 8 < 4 {
      var z: Bytes := [0, 0, 0, 0];
      assert z[p / 8] == 0;
      ZeroBit(p % 8);
    }
  }

  lemma ZeroBit(k: nat)
    requires k < 8
    ensures !Bitmap.Bit(0, k)
  {
  }

  // ---- what is written is read

  lemma SelRead(x: Sel, rest: Bytes, count: nat, mask: Bytes)
    requires SelOk(x) && count > 0 && |mask| == 4
    ensures Selections(Be(x.alg, 2) + (Be(|x.bits|, 1) + (x.bits + rest)), count, mask)
         == Selections(rest, count - 1, if x.alg == ALG_SHA256 then AddSelection(mask, x.bits) else mask)
  {
    Widths();
    TakeBeFront(x.alg, 2, Be(|x.bits|, 1) + (x.bits + rest));
    TakeBeFront(|x.bits|, 1, x.bits + rest);
    TakeFront(x.bits, rest);
    hide TakeBe, TakeBytes, Be, AddSelection, AllZero;
  }

  lemma SelsPush(x: Sel, xs: seq<Sel>, rest: Bytes)
    ensures WireSels([x] + xs) + rest == Be(x.alg, 2) + (Be(|x.bits|, 1) + (x.bits + (WireSels(xs) + rest)))
  {
    assert ([x] + xs)[1..] == xs;
    hide Be;
  }

  lemma MaskedPush(mask: Bytes, x: Sel, xs: seq<Sel>)
    requires |mask| == 4
    ensures Masked(mask, [x] + xs) == Masked(if x.alg == ALG_SHA256 then AddSelection(mask, x.bits) else mask, xs)
  {
    assert ([x] + xs)[1..] == xs;
    hide AddSelection;
  }

  lemma {:induction false} SelsRead(xs: seq<Sel>, rest: Bytes, mask: Bytes)
    requires SelsOk(xs) && |mask| == 4
    ensures Selections(WireSels(xs) + rest, |xs|, mask) == Got(Masked(mask, xs), rest)
    decreases |xs|
  {
    hide SelOk, Be, AddSelection;
    if xs == [] {
      assert WireSels(xs) + rest == rest;
    } else {
      var x, more := xs[0], xs[1..];
      assert xs == [x] + more;
      SelsPush(x, more, rest);
      MaskedPush(mask, x, more);
      hide Selections, WireSels, Masked;
      SelRead(x, WireSels(more) + rest, |xs|, mask);
      SelsRead(more, rest, if x.alg == ALG_SHA256 then AddSelection(mask, x.bits) else mask);
    }
  }

  lemma TailRead(l: Layout)
    requires |l.sels| < 0x1_0000_0000 && SelsOk(l.sels) && |l.digest| < 0x1_0000
    ensures ParseTail(WireTail(l)) == Some((Masked([0, 0, 0, 0], l.sels), l.digest))
  {
    Widths();
    hide TakeBe, TakeFrame, Be, Frame, Pow256, Selections, WireSels, Masked, SelsOk;
    TakeBeFront(|l.sels|, 4, WireSels(l.sels) + Frame(l.digest));
    SelsRead(l.sels, Frame(l.digest), [0, 0, 0, 0]);
    FrameWhole(l.digest, []);
  }

  lemma ClockReads(l: Layout, rest: Bytes)
    requires ClockOk(l)
    ensures ParseClock(WireClock(l, rest)) == Some(((l.clock, l.reset, l.restart, l.safe != 0, l.firmware), rest))
  {
    Widths();
    hide TakeBe, Be, Pow256;
    var d4 := Be(l.firmware, 8) + rest;
    var d3 := Be(l.safe, 1) + d4;
    var d2 := Be(l.restart, 4) + d3;
    var d1 := Be(l.reset, 4) + d2;
    TakeBeFront(l.clock, 8, d1);
    TakeBeFront(l.reset, 4, d2);
    TakeBeFront(l.restart, 4, d3);
    TakeBeFront(l.safe, 1, d4);
    TakeBeFront(l.firmware, 8, rest);
  }

  function QuoteOf(l: Layout): Quote {
    Quote(l.signer, l.extra, l.clock, l.reset, l.restart, l.safe != 0, l.firmware, Masked([0, 0, 0, 0], l.sels), l.digest)
  }

  lemma LayoutRead(l: Layout)
    requires LayoutOk(l)
    ensures ParseQuote(WireQuote(l)) == Some(QuoteOf(l))
  {
    Widths();
    hide TakeBe, TakeFrame, Be, Frame, Pow256, ParseClock, ParseTail, WireTail, WireClock, SelsOk, ClockOk, Masked;
    var d4 := WireClock(l, WireTail(l));
    var d3 := Frame(l.extra) + d4;
    var d2 := Frame(l.signer) + d3;
    var d1 := Be(ST_ATTEST_QUOTE, 2) + d2;
    TakeBeFront(TPM_GENERATED, 4, d1);
    TakeBeFront(ST_ATTEST_QUOTE, 2, d2);
    FrameWhole(l.signer, d3);
    FrameWhole(l.extra, d4);
    ClockReads(l, WireTail(l));
    TailRead(l);
  }

  // ---- what is read was written

  lemma TakeBeBack(d: Bytes, k: nat)
    ensures var r := TakeBe(d, k); r.Got? ==> d == Be(r.value, k) + r.rest && r.value < Pow256(k)
  {
    if k <= |d| {
      BeOfFromBe(d[..k]);
      FromBeSmall(d[..k]);
      assert d == d[..k] + d[k..];
    }
  }

  lemma {:induction false} FromBeSmall(b: Bytes)
    ensures FromBe(b) < Pow256(|b|)
  {
    hide Value;
    if b != [] {
      FromBeSmall(b[..|b| - 1]);
      ConvertedBack(b[|b| - 1]);
    }
  }

  lemma TakeFrameBack(d: Bytes)
    ensures var r := TakeFrame(d); r.Got? ==> d == Frame(r.value) + r.rest && |r.value| < 0x1_0000
  {
    Widths();
    TakeBeBack(d, 2);
    hide TakeBe, Be, Pow256;
  }

  ghost predicate SelsMet(d: Bytes, count: nat, mask: Bytes, xs: seq<Sel>)
    requires |mask| == 4
  {
    var g := Selections(d, count, mask);
    g.Got? ==> SelsOk(xs) && |xs| == count && g.value == Masked(mask, xs) && d == WireSels(xs) + g.rest
  }

  lemma NoneMet(d: Bytes, mask: Bytes)
    requires |mask| == 4
    ensures SelsMet(d, 0, mask, [])
  {
    assert WireSels([]) + d == d;
  }

  lemma OneMet(d: Bytes, count: nat, mask: Bytes, x: Sel, rest: Bytes, more: seq<Sel>)
    requires |mask| == 4 && count > 0 && SelOk(x) && d == Be(x.alg, 2) + (Be(|x.bits|, 1) + (x.bits + rest))
    requires SelsMet(rest, count - 1, if x.alg == ALG_SHA256 then AddSelection(mask, x.bits) else mask, more)
    ensures SelsMet(d, count, mask, [x] + more)
  {
    hide Selections, Masked, WireSels, AddSelection, Be;
    SelRead(x, rest, count, mask);
    MaskedPush(mask, x, more);
    var g := Selections(d, count, mask);
    if g.Got? {
      SelsPush(x, more, g.rest);
      SelsOkPush(x, more);
    }
  }

  lemma SelsOkPush(x: Sel, more: seq<Sel>)
    requires SelOk(x) && SelsOk(more)
    ensures SelsOk([x] + more)
  {
    hide SelOk;
  }

  /** The first selection, if there is a whole one that may be there. */
  lemma FirstSel(d: Bytes, count: nat, mask: Bytes) returns (x: Sel, rest: Bytes)
    requires |mask| == 4 && count > 0
    ensures Selections(d, count, mask).Got? ==> SelOk(x) && d == Be(x.alg, 2) + (Be(|x.bits|, 1) + (x.bits + rest))
  {
    Widths();
    TakeBeBack(d, 2);
    x, rest := Sel(0, []), [];
    if TakeBe(d, 2).Got? {
      var r0 := TakeBe(d, 2).rest;
      TakeBeBack(r0, 1);
      if TakeBe(r0, 1).Got? {
        var n, r1 := TakeBe(r0, 1).value, TakeBe(r0, 1).rest;
        if n <= |r1| {
          x, rest := Sel(TakeBe(d, 2).value, r1[..n]), r1[n..];
          assert r1 == r1[..n] + r1[n..];
        }
      }
    }
    hide TakeBe, Be, Pow256, AddSelection, AllZero;
  }

  lemma {:induction false} SelsBack(d: Bytes, count: nat, mask: Bytes) returns (xs: seq<Sel>)
    requires |mask| == 4
    ensures SelsMet(d, count, mask, xs)
    decreases count
  {
    hide Selections, Masked, WireSels, AddSelection, Be, SelsMet, SelOk;
    xs := [];
    if count == 0 {
      NoneMet(d, mask);
    } else if Selections(d, count, mask).Got? {
      var x, rest := FirstSel(d, count, mask);
      var more := SelsBack(rest, count - 1, if x.alg == ALG_SHA256 then AddSelection(mask, x.bits) else mask);
      xs := [x] + more;
      OneMet(d, count, mask, x, rest, more);
    } else {
      NotMet(d, count, mask, xs);
    }
  }

  lemma NotMet(d: Bytes, count: nat, mask: Bytes, xs: seq<Sel>)
    requires |mask| == 4 && !Selections(d, count, mask).Got?
    ensures SelsMet(d, count, mask, xs)
  {
    hide Selections;
  }

  lemma TailBack(d: Bytes) returns (xs: seq<Sel>, digest: Bytes)
    ensures ParseTail(d).Some? ==>
              && SelsOk(xs) && |xs| < 0x1_0000_0000 && |digest| < 0x1_0000
              && d == Be(|xs|, 4) + (WireSels(xs) + Frame(digest))
  {
    Widths();
    hide TakeBe, TakeFrame, Be, Frame, Pow256, Selections, WireSels, Masked, SelsOk;
    xs, digest := [], [];
    TakeBeBack(d, 4);
    if TakeBe(d, 4).Got? {
      var count, r0 := TakeBe(d, 4).value, TakeBe(d, 4).rest;
      xs := SelsBack(r0, count, [0, 0, 0, 0]);
      var g := Selections(r0, count, [0, 0, 0, 0]);
      if g.Got? {
        TakeFrameBack(g.rest);
        var f := TakeFrame(g.rest);
        if f.Got? {
          digest := f.value;
          assert f.rest == [] ==> g.rest == Frame(digest);
        }
      }
    }
  }

  lemma ClockBack(d: Bytes) returns (l: Layout, rest: Bytes)
    ensures ParseClock(d).Some? ==> ClockOk(l) && d == WireClock(l, rest) && rest == ParseClock(d).value.1
  {
    Widths();
    hide TakeBe, Be, Pow256;
    l, rest := Layout([], [], 0, 0, 0, 0, 0, [], []), [];
    if ParseClock(d).Some? {
      TakeBeBack(d, 8);
      var t0 := TakeBe(d, 8);
      TakeBeBack(t0.rest, 4);
      var t1 := TakeBe(t0.rest, 4);
      TakeBeBack(t1.rest, 4);
      var t2 := TakeBe(t1.rest, 4);
      TakeBeBack(t2.rest, 1);
      var t3 := TakeBe(t2.rest, 1);
      TakeBeBack(t3.rest, 8);
      var t4 := TakeBe(t3.rest, 8);
      l, rest := Layout([], [], t0.value, t1.value, t2.value, t3.value, t4.value, [], []), t4.rest;
    }
  }

  lemma LayoutBack(d: Bytes) returns (l: Layout)
    requires ParseQuote(d).Some?
    ensures LayoutOk(l) && d == WireQuote(l)
  {
    hide TakeBe, TakeFrame, Be, Frame, ParseClock, ParseTail, WireSels, SelsOk, ClockOk;
    TakeBeBack(d, 4);
    var r0 := TakeBe(d, 4).rest;
    TakeBeBack(r0, 2);
    var r1 := TakeBe(r0, 2).rest;
    TakeFrameBack(r1);
    var signer, r2 := TakeFrame(r1).value, TakeFrame(r1).rest;
    TakeFrameBack(r2);
    var extra, r3 := TakeFrame(r2).value, TakeFrame(r2).rest;
    var c, r4 := ClockBack(r3);
    var xs, digest := TailBack(r4);
    l := c.(signer := signer, extra := extra, sels := xs, digest := digest);
    ClockSame(c, l, r4);
  }

  lemma ClockSame(c: Layout, l: Layout, rest: Bytes)
    requires ClockOk(c) && l == c.(signer := l.signer, extra := l.extra, sels := l.sels, digest := l.digest)
    ensures ClockOk(l) && WireClock(l, rest) == WireClock(c, rest)
  {
    hide Be;
  }

  /** A byte string parses exactly when it is a quote of the TPM with nothing after it, whose selections outside
      the SHA-256 bank are empty; and it parses to that quote. */
  lemma ParsedExactly(d: Bytes)
    ensures ParseQuote(d).Some? <==> exists l :: LayoutOk(l) && d == WireQuote(l)
    ensures forall l :: LayoutOk(l) && d == WireQuote(l) ==> ParseQuote(d) == Some(QuoteOf(l))
  {
    hide ParseQuote, LayoutOk, WireQuote, QuoteOf;
    if ParseQuote(d).Some? {
      var l := LayoutBack(d);
      assert LayoutOk(l) && d == WireQuote(l);
    }
    forall l | LayoutOk(l) && d == WireQuote(l) ensures ParseQuote(d) == Some(QuoteOf(l)) {
      LayoutRead(l);
    }
  }
}
