/** What a replayed log says (crates/attest/src/tpm.rs, `replay`): the grammar of its header, and the value it
    gives each register. */
module Registers {
  import opened Options
  import opened ByteCodec
  import opened MeasuredBoot
  import opened EventLogs

  // ---- the header

  /** An algorithm and the size of its digests, as the header lists them. */
  datatype Bank = Bank(alg: nat, size: nat)

  function WireBanks(bs: seq<Bank>): (b: Bytes)
    ensures |b| == 4 * |bs|
  {
    if bs == [] then []
    else WireBanks(bs[..|bs| - 1]) + (Le(bs[|bs| - 1].alg, 2) + Le(bs[|bs| - 1].size, 2))
  }

  /** The last size listed for an algorithm counts. */
  function SizesOf(bs: seq<Bank>): map<nat, nat> {
    if bs == [] then map[] else SizesOf(bs[..|bs| - 1])[bs[|bs| - 1].alg := bs[|bs| - 1].size]
  }

  predicate BanksFit(bs: seq<Bank>) {
    forall i :: 0 <= i < |bs| ==> bs[i].alg < 0x1_0000 && bs[i].size < 0x1_0000
  }

  predicate BanksOk(bs: seq<Bank>) {
    |bs| < 0x1_0000_0000 && BanksFit(bs)
  }

  /** A header event: 28 bytes, its length, the signature, 8 bytes, the banks and anything else. */
  datatype Head = Head(front: Bytes, eight: Bytes, banks: seq<Bank>, extra: Bytes)

  function Spec(h: Head): Bytes {
    SPEC_ID + h.eight + Le(|h.banks|, 4) + (WireBanks(h.banks) + h.extra)
  }

  function WireHead(h: Head): Bytes {
    h.front + Le(|Spec(h)|, 4) + Spec(h)
  }

  predicate HeadOk(h: Head) {
    && |h.front| == 28 && |h.eight| == 8 && BanksOk(h.banks) && |Spec(h)| < 0x1_0000_0000
    && ALG_SHA256 in SizesOf(h.banks) && SizesOf(h.banks)[ALG_SHA256] == 32
  }

  lemma LeAtFound(before: Bytes, v: nat, n: nat, rest: Bytes)
    requires v < Pow256(n)
    ensures LeAt(before + (Le(v, n) + rest), |before|, n) == Some(v)
  {
    hide Le, FromLe, Pow256;
    LeRoundTrip(v, n);
    var d, p := before + (Le(v, n) + rest), |before|;
    assert d[p..p + n] == Le(v, n);
  }

  lemma LeAtIs(d: Bytes, p: nat, n: nat)
    ensures LeAt(d, p, n).Some? ==>
              && p + n <= |d| && LeAt(d, p, n).value < Pow256(n)
              && d == d[..p] + (Le(LeAt(d, p, n).value, n) + d[p + n..])
  {
    hide Le, FromLe, Pow256;
    if p + n <= |d| {
      LeOfFromLe(d[p..p + n]);
      assert d == d[..p] + (d[p..p + n] + d[p + n..]);
    }
  }

  lemma SizesStep(spec: Bytes, n: nat)
    requires n > 0
    ensures var m, alg, size := Sizes(spec, n - 1), LeAt(spec, 28 + 4 * (n - 1), 2), LeAt(spec, 30 + 4 * (n - 1), 2);
            Sizes(spec, n) == if m.Some? && alg.Some? && size.Some? then Some(m.value[alg.value := size.value]) else None
  {
    hide LeAt;
  }

  lemma BankShape(before: Bytes, less: seq<Bank>, x: Bank, extra: Bytes)
    ensures before + (WireBanks(less + [x]) + extra) == before + (WireBanks(less) + (Le(x.alg, 2) + (Le(x.size, 2) + extra)))
    ensures before + (WireBanks(less + [x]) + extra) == before + WireBanks(less) + (Le(x.alg, 2) + (Le(x.size, 2) + extra))
    ensures SizesOf(less + [x]) == SizesOf(less)[x.alg := x.size]
  {
    hide Le;
    assert (less + [x])[..|less|] == less;
    assert WireBanks(less + [x]) == WireBanks(less) + (Le(x.alg, 2) + Le(x.size, 2));
    hide WireBanks;
  }

  lemma SizesNone(spec: Bytes)
    ensures Sizes(spec, 0) == Some(SizesOf([]))
  {
  }

  lemma SizesOne(spec: Bytes, before: Bytes, less: seq<Bank>, x: Bank, extra: Bytes)
    requires |before| == 28 + 4 * |less| && x.alg < 0x1_0000 && x.size < 0x1_0000
    requires spec == before + (Le(x.alg, 2) + (Le(x.size, 2) + extra)) && Sizes(spec, |less|) == Some(SizesOf(less))
    ensures Sizes(spec, |less| + 1) == Some(SizesOf(less)[x.alg := x.size])
  {
    hide Sizes, SizesOf, Le, LeAt;
    BankRead(before, x, extra);
    SizesStep(spec, |less| + 1);
  }

  lemma {:induction false} SizesRead(before: Bytes, bs: seq<Bank>, extra: Bytes)
    requires |before| == 28 && BanksOk(bs)
    ensures Sizes(before + (WireBanks(bs) + extra), |bs|) == Some(SizesOf(bs))
  {
    hide Sizes, WireBanks, SizesOf, Le;
    if bs == [] {
      SizesNone(before + (WireBanks(bs) + extra));
    } else {
      var less, x := bs[..|bs| - 1], bs[|bs| - 1];
      assert bs == less + [x];
      var more := Le(x.alg, 2) + (Le(x.size, 2) + extra);
      SizesRead(before, less, more);
      BankShape(before, less, x, extra);
      var spec := before + (WireBanks(bs) + extra);
      assert spec == before + (WireBanks(less) + more);
      SizesOne(spec, before + WireBanks(less), less, x, extra);
    }
  }

  lemma BankRead(before: Bytes, x: Bank, extra: Bytes)
    requires x.alg < 0x1_0000 && x.size < 0x1_0000
    ensures var d := before + (Le(x.alg, 2) + (Le(x.size, 2) + extra));
            LeAt(d, |before|, 2) == Some(x.alg) && LeAt(d, |before| + 2, 2) == Some(x.size)
  {
    Widths();
    hide Le, FromLe, Pow256, LeAt;
    LeAtFound(before, x.alg, 2, Le(x.size, 2) + extra);
    LeAtFound(before + Le(x.alg, 2), x.size, 2, extra);
    assert before + Le(x.alg, 2) + (Le(x.size, 2) + extra) == before + (Le(x.alg, 2) + (Le(x.size, 2) + extra));
  }

  /** A header event is read as what it lists. */
  lemma HeadRead(h: Head, rest: Bytes)
    requires HeadOk(h)
    ensures ReadHeader(WireHead(h) + rest) == Some((SizesOf(h.banks), |WireHead(h)|))
  {
    Widths();
    hide Le, LeAt, Pow256, WireBanks, SizesOf, BanksOk, Sizes;
    var spec, log := Spec(h), WireHead(h) + rest;
    assert log == h.front + (Le(|spec|, 4) + (spec + rest));
    LeAtFound(h.front, |spec|, 4, spec + rest);
    assert log[32..32 + |spec|] == spec;
    assert SPEC_ID <= spec;
    assert spec == SPEC_ID + h.eight + (Le(|h.banks|, 4) + (WireBanks(h.banks) + h.extra));
    BanksFew(h.banks);
    LeAtFound(SPEC_ID + h.eight, |h.banks|, 4, WireBanks(h.banks) + h.extra);
    SizesRead(SPEC_ID + h.eight + Le(|h.banks|, 4), h.banks, h.extra);
  }

  lemma BanksFew(bs: seq<Bank>)
    requires BanksOk(bs)
    ensures |bs| < 0x1_0000_0000
  {
  }

  ghost predicate BanksMet(spec: Bytes, front: Bytes, n: nat, bs: seq<Bank>, extra: Bytes) {
    && |front| == 28 && |bs| == n && spec == front + (WireBanks(bs) + extra)
    && Sizes(spec, n) == Some(SizesOf(bs)) && BanksFit(bs)
  }

  lemma BanksNone(front: Bytes, extra: Bytes)
    requires |front| == 28
    ensures BanksMet(front + extra, front, 0, [], extra)
  {
    assert WireBanks([]) + extra == extra;
  }

  lemma FitPush(less: seq<Bank>, x: Bank)
    requires BanksFit(less) && x.alg < 0x1_0000 && x.size < 0x1_0000
    ensures BanksFit(less + [x])
  {
  }

  lemma MetParts(spec: Bytes, front: Bytes, less: seq<Bank>, more: Bytes)
    requires BanksMet(spec, front, |less|, less, more)
    ensures |front| == 28 && spec == front + WireBanks(less) + more && BanksFit(less) && Sizes(spec, |less|) == Some(SizesOf(less))
  {
    hide Sizes, WireBanks, SizesOf, BanksFit;
  }

  lemma MetMore(spec: Bytes, front: Bytes, less: seq<Bank>, x: Bank, extra: Bytes)
    requires |front| == 28 && spec == front + WireBanks(less) + (Le(x.alg, 2) + (Le(x.size, 2) + extra))
    requires BanksFit(less + [x]) && Sizes(spec, |less| + 1) == Some(SizesOf(less)[x.alg := x.size])
    ensures BanksMet(spec, front, |less| + 1, less + [x], extra)
  {
    hide Sizes, WireBanks, SizesOf, Le, BanksFit;
    BankShape(front, less, x, extra);
  }

  lemma BanksMore(spec: Bytes, front: Bytes, less: seq<Bank>, more: Bytes) returns (x: Bank, extra: Bytes)
    requires BanksMet(spec, front, |less|, less, more) && Sizes(spec, |less| + 1).Some?
    ensures BanksMet(spec, front, |less| + 1, less + [x], extra)
  {
    hide Sizes, WireBanks, SizesOf, Le, LeAt, BanksFit, BanksMet;
    MetParts(spec, front, less, more);
    var before := front + WireBanks(less);
    SizesStep(spec, |less| + 1);
    extra := NextBank(spec, before, more);
    x := Bank(LeAt(spec, |before|, 2).value, LeAt(spec, |before| + 2, 2).value);
    FitPush(less, x);
    MetMore(spec, front, less, x, extra);
  }

  lemma {:induction false} BanksBack(spec: Bytes, front: Bytes, rest: Bytes, n: nat) returns (bs: seq<Bank>, extra: Bytes)
    requires |front| == 28 && spec == front + rest && Sizes(spec, n).Some?
    ensures BanksMet(spec, front, n, bs, extra)
  {
    if n == 0 {
      bs, extra := [], rest;
      BanksNone(front, rest);
    } else {
      SizesStep(spec, n);
      hide Sizes, WireBanks, SizesOf, LeAt, BanksFit;
      var less, more := BanksBack(spec, front, rest, n - 1);
      var x;
      x, extra := BanksMore(spec, front, less, more);
      bs := less + [x];
    }
  }

  lemma NextBank(spec: Bytes, before: Bytes, more: Bytes) returns (extra: Bytes)
    requires spec == before + more && LeAt(spec, |before|, 2).Some? && LeAt(spec, |before| + 2, 2).Some?
    ensures var alg, size := LeAt(spec, |before|, 2).value, LeAt(spec, |before| + 2, 2).value;
            more == Le(alg, 2) + (Le(size, 2) + extra) && alg < 0x1_0000 && size < 0x1_0000
  {
    Widths();
    LeAtIs(spec, |before|, 2);
    LeAtIs(spec, |before| + 2, 2);
    var p := |before|;
    assert p + 4 <= |spec|;
    LeOfFromLe(spec[p..p + 2]);
    LeOfFromLe(spec[p + 2..p + 4]);
    hide Le, FromLe, Pow256;
    extra := spec[p + 4..];
    assert more == spec[p..];
    assert spec[p..] == spec[p..p + 2] + (spec[p + 2..p + 4] + spec[p + 4..]);
  }

  lemma SpecBack(spec: Bytes, n: nat) returns (bs: seq<Bank>, extra: Bytes)
    requires SPEC_ID <= spec && LeAt(spec, 24, 4) == Some(n) && Sizes(spec, n).Some?
    ensures |spec| >= 28 && BanksOk(bs) && Sizes(spec, n) == Some(SizesOf(bs))
    ensures spec == SPEC_ID + spec[16..24] + Le(|bs|, 4) + (WireBanks(bs) + extra)
  {
    Widths();
    LeAtIs(spec, 24, 4);
    hide Le, LeAt, Pow256, WireBanks, SizesOf, Sizes, BanksFit;
    var front := spec[..24] + Le(n, 4);
    assert spec == front + spec[28..];
    bs, extra := BanksBack(spec, front, spec[28..], n);
    assert spec[..24] == SPEC_ID + spec[16..24] by { SpecFront(spec); }
  }

  lemma SpecFront(spec: Bytes)
    requires SPEC_ID <= spec && |spec| >= 24
    ensures |SPEC_ID| == 16 && spec[..24] == SPEC_ID + spec[16..24]
  {
    assert |SPEC_ID| == 16;
    assert spec[..16] == SPEC_ID;
    assert spec[..24] == spec[..16] + spec[16..24];
  }

  lemma HeadBack(log: Bytes) returns (h: Head, rest: Bytes)
    requires ReadHeader(log).Some?
    ensures HeadOk(h) && log == WireHead(h) + rest
  {
    Widths();
    hide Le, LeAt, Pow256, WireBanks, SizesOf, Sizes, BanksOk;
    LeAtIs(log, 28, 4);
    var size := LeAt(log, 28, 4).value;
    var spec := log[32..32 + size];
    var n := LeAt(spec, 24, 4).value;
    var bs, extra := SpecBack(spec, n);
    h, rest := Head(log[..28], spec[16..24], bs, extra), log[32 + size..];
    assert Spec(h) == spec;
    hide Spec;
    assert log == log[..28] + (Le(size, 4) + log[32..]);
    assert log[32..] == spec + rest;
  }

  /** A log's header is read exactly when the log starts with a header event that lists SHA-256 with 32 bytes;
      then the sizes are those it lists, and the events follow it. */
  lemma HeaderExactly(log: Bytes)
    ensures ReadHeader(log).Some? <==> exists h, rest :: HeadOk(h) && log == WireHead(h) + rest
    ensures forall h, rest :: HeadOk(h) && log == WireHead(h) + rest ==> ReadHeader(log) == Some((SizesOf(h.banks), |WireHead(h)|))
  {
    hide ReadHeader, HeadOk, WireHead, SizesOf;
    if ReadHeader(log).Some? {
      var h, rest := HeadBack(log);
      assert HeadOk(h) && log == WireHead(h) + rest;
    }
    forall h, rest | HeadOk(h) && log == WireHead(h) + rest ensures ReadHeader(log) == Some((SizesOf(h.banks), |WireHead(h)|)) {
      HeadRead(h, rest);
    }
  }

  // ---- the registers

  /** Extending a register by digests, in order. */
  function Fold(hash: Hash, start: Bytes, ds: seq<Bytes>): Bytes {
    if ds == [] then start else hash(Fold(hash, start, ds[..|ds| - 1]) + ds[|ds| - 1])
  }

  /** The digests that entries measure into register `k`, in order. */
  function Measured(sizes: map<nat, nat>, es: seq<Entry>, k: nat): seq<Bytes>
    requires AllUsable(sizes, es)
  {
    if es == [] then []
    else
      var e := es[|es| - 1];
      Measured(sizes, es[..|es| - 1], k) + if e.kind != EV_NO_ACTION && e.pcr == k then [Sha(None, e.digests).value] else []
  }

  /** The entry says from which locality the machine was started. */
  predicate Locates(e: Entry) {
    e.kind == EV_NO_ACTION && e.pcr == 0 && LOCALITY <= e.data
  }

  lemma {:induction false} AbsorbPush(hash: Hash, sizes: map<nat, nat>, s: State, es: seq<Entry>, e: Entry)
    requires |s.pcrs| == PCR_COUNT && AllUsable(sizes, es) && Usable(sizes, e)
    ensures AllUsable(sizes, es + [e])
    ensures AbsorbEntries(hash, sizes, s, es + [e]) == AbsorbEntry(hash, sizes, AbsorbEntries(hash, sizes, s, es), e)
    decreases |es|
  {
    hide AbsorbEntry, Usable;
    assert forall i :: 0 <= i < |es + [e]| ==> Usable(sizes, (es + [e])[i]);
    if es == [] {
      assert ([] + [e])[1..] == [];
      assert es + [e] == [e];
    } else {
      assert (es + [e])[1..] == es[1..] + [e];
      AbsorbPush(hash, sizes, AbsorbEntry(hash, sizes, s, es[0]), es[1..], e);
    }
  }

  /** After a log each register holds the fold of the digests measured into it, in order, from what it held. For
      register 0 that is so as long as no entry sets the locality. */
  lemma {:induction false} RegisterExactly(hash: Hash, sizes: map<nat, nat>, s: State, es: seq<Entry>, k: nat)
    requires |s.pcrs| == PCR_COUNT && AllUsable(sizes, es) && k < PCR_COUNT
    requires k == 0 ==> forall i :: 0 <= i < |es| ==> !Locates(es[i])
    ensures AbsorbEntries(hash, sizes, s, es).pcrs[k] == Fold(hash, s.pcrs[k], Measured(sizes, es, k))
  {
    hide Usable, AbsorbEntries;
    if es == [] {
      NoneAbsorbed(hash, sizes, s);
    } else {
      var less, e := es[..|es| - 1], es[|es| - 1];
      assert es == less + [e];
      RegisterExactly(hash, sizes, s, less, k);
      AbsorbPush(hash, sizes, s, less, e);
      OneMeasured(hash, sizes, AbsorbEntries(hash, sizes, s, less), e, k);
      var ds := Measured(sizes, less, k);
      if e.kind != EV_NO_ACTION && e.pcr == k {
        var d := Sha(None, e.digests).value;
        assert Measured(sizes, es, k) == ds + [d] && (ds + [d])[..|ds|] == ds;
      } else {
        assert Measured(sizes, es, k) == ds + [] && ds + [] == ds;
      }
    }
  }

  lemma NoneAbsorbed(hash: Hash, sizes: map<nat, nat>, s: State)
    requires |s.pcrs| == PCR_COUNT
    ensures AbsorbEntries(hash, sizes, s, []) == s
  {
  }

  lemma OneMeasured(hash: Hash, sizes: map<nat, nat>, s: State, e: Entry, k: nat)
    requires |s.pcrs| == PCR_COUNT && Usable(sizes, e) && k < PCR_COUNT && (k == 0 ==> !Locates(e))
    ensures e.kind != EV_NO_ACTION ==> Sha(None, e.digests).Some?
    ensures AbsorbEntry(hash, sizes, s, e).pcrs[k] ==
            if e.kind != EV_NO_ACTION && e.pcr == k then hash(s.pcrs[k] + Sha(None, e.digests).value) else s.pcrs[k]
  {
    hide Sha;
  }

  /** The events a log reports: the entries that measure, in order. */
  function EventsOf(sizes: map<nat, nat>, es: seq<Entry>): seq<Event>
    requires AllUsable(sizes, es)
  {
    if es == [] then []
    else
      var e := es[|es| - 1];
      EventsOf(sizes, es[..|es| - 1]) +
      if e.kind != EV_NO_ACTION then [Event(e.pcr, e.kind, Sha(None, e.digests).value, e.data)] else []
  }

  lemma {:induction false} EventsExactly(hash: Hash, sizes: map<nat, nat>, s: State, es: seq<Entry>)
    requires |s.pcrs| == PCR_COUNT && AllUsable(sizes, es)
    ensures AbsorbEntries(hash, sizes, s, es).events == s.events + EventsOf(sizes, es)
  {
    hide AbsorbEntries;
    if es == [] {
      NoneAbsorbed(hash, sizes, s);
    } else {
      var less, e := es[..|es| - 1], es[|es| - 1];
      assert es == less + [e];
      EventsExactly(hash, sizes, s, less);
      AbsorbPush(hash, sizes, s, less, e);
      hide Sha;
    }
  }

  /** Register 0 started from a locality: zero up to the last byte. */
  predicate StartsAt(start: Bytes, locality: bv8) {
    |start| == 32 && start[31] == locality && forall i :: 0 <= i < 31 ==> start[i] == 0
  }

  /** The last entry that sets the locality starts register 0 again, from the byte after its name. */
  lemma LocalityExactly(hash: Hash, sizes: map<nat, nat>, s: State, before: seq<Entry>, e: Entry, es: seq<Entry>) returns (start: Bytes)
    requires |s.pcrs| == PCR_COUNT && AllUsable(sizes, before + [e] + es) && Locates(e)
    requires forall i :: 0 <= i < |es| ==> !Locates(es[i])
    ensures AllUsable(sizes, es) && StartsAt(start, if |e.data| > |LOCALITY| then e.data[|LOCALITY|] else 0)
    ensures AbsorbEntries(hash, sizes, s, before + [e] + es).pcrs[0] == Fold(hash, start, Measured(sizes, es, 0))
  {
    hide Usable, AbsorbEntries, Fold;
    UsableParts(sizes, before, e, es);
    AbsorbJoin(hash, sizes, s, before + [e], es);
    AbsorbPush(hash, sizes, s, before, e);
    var t := AbsorbEntries(hash, sizes, s, before + [e]);
    start := t.pcrs[0];
    Located(hash, sizes, AbsorbEntries(hash, sizes, s, before), e);
    hide Measured;
    RegisterExactly(hash, sizes, t, es, 0);
  }

  lemma Zeros()
    ensures |ZERO32| == 32 && |LOCALITY| == 16 && forall i :: 0 <= i < 32 ==> ZERO32[i] == 0
  {
  }

  lemma Located(hash: Hash, sizes: map<nat, nat>, s: State, e: Entry)
    requires |s.pcrs| == PCR_COUNT && Usable(sizes, e) && Locates(e)
    ensures StartsAt(AbsorbEntry(hash, sizes, s, e).pcrs[0], if |e.data| > |LOCALITY| then e.data[|LOCALITY|] else 0)
  {
    Zeros();
    var x: bv8 := if |e.data| > 16 then e.data[16] else 0;
    var start := ZERO32[..31] + [x];
    assert AbsorbEntry(hash, sizes, s, e).pcrs[0] == start;
    assert forall i :: 0 <= i < 31 ==> start[i] == ZERO32[i];
    assert start[31] == x;
  }

  lemma UsableParts(sizes: map<nat, nat>, before: seq<Entry>, e: Entry, es: seq<Entry>)
    requires AllUsable(sizes, before + [e] + es)
    ensures AllUsable(sizes, before) && Usable(sizes, e) && AllUsable(sizes, es) && AllUsable(sizes, before + [e])
  {
    hide Usable;
    var all := before + [e] + es;
    assert forall i :: 0 <= i < |before| ==> before[i] == all[i];
    assert forall i :: 0 <= i < |es| ==> es[i] == all[|before| + 1 + i];
    assert e == all[|before|];
  }

  lemma {:induction false} AbsorbJoin(hash: Hash, sizes: map<nat, nat>, s: State, a: seq<Entry>, b: seq<Entry>)
    requires |s.pcrs| == PCR_COUNT && AllUsable(sizes, a) && AllUsable(sizes, b)
    ensures AllUsable(sizes, a + b)
    ensures AbsorbEntries(hash, sizes, s, a + b) == AbsorbEntries(hash, sizes, AbsorbEntries(hash, sizes, s, a), b)
    decreases |b|
  {
    hide Usable, AbsorbEntry;
    assert forall i :: 0 <= i < |a + b| ==> Usable(sizes, (a + b)[i]);
    if b == [] {
      assert a + b == a;
    } else {
      var less, e := b[..|b| - 1], b[|b| - 1];
      assert b == less + [e] && a + b == a + less + [e];
      AbsorbJoin(hash, sizes, s, a, less);
      AbsorbPush(hash, sizes, s, a + less, e);
      AbsorbPush(hash, sizes, AbsorbEntries(hash, sizes, s, a), less, e);
    }
  }
}
