/** Which event logs the replay accepts, refuses and panics on (crates/attest/src/tpm.rs, `replay`): the
    grammar of a log's events, whatever digests they carry, against the parser. */
module EventLogs {
  import opened Options
  import opened ByteCodec
  import opened MeasuredBoot

  datatype Digest = Digest(alg: nat, bytes: Bytes)

  /** An event as it stands in a log, with a digest per algorithm. */
  datatype Entry = Entry(pcr: nat, kind: nat, digests: seq<Digest>, data: Bytes)

  function WireDigests(ds: seq<Digest>): Bytes {
    if ds == [] then [] else Le(ds[0].alg, 2) + (ds[0].bytes + WireDigests(ds[1..]))
  }

  function Wire(e: Entry): Bytes {
    Le(e.pcr, 4) + (Le(e.kind, 4) + (Le(|e.digests|, 4) + (WireDigests(e.digests) + (Le(|e.data|, 4) + e.data))))
  }

  function WireAll(es: seq<Entry>): Bytes {
    if es == [] then [] else Wire(es[0]) + WireAll(es[1..])
  }

  predicate DigestFits(sizes: map<nat, nat>, d: Digest) {
    d.alg < 0x1_0000 && d.alg in sizes && |d.bytes| == sizes[d.alg]
  }

  predicate DigestsFit(sizes: map<nat, nat>, ds: seq<Digest>) {
    forall i :: 0 <= i < |ds| ==> DigestFits(sizes, ds[i])
  }

  /** The SHA-256 digest: the last one counts. */
  function Sha(found: Option<Bytes>, ds: seq<Digest>): Option<Bytes>
    decreases |ds|
  {
    if ds == [] then found else Sha(if ds[0].alg == ALG_SHA256 then Some(ds[0].bytes) else found, ds[1..])
  }

  /** The entry fits its fields and the digest sizes of the log, names a register that exists, and has a
      SHA-256 digest unless it measures nothing. */
  predicate Usable(sizes: map<nat, nat>, e: Entry) {
    && e.pcr < PCR_COUNT && e.kind < 0x1_0000_0000 && |e.digests| < 0x1_0000_0000 && |e.data| < 0x1_0000_0000
    && DigestsFit(sizes, e.digests)
    && (e.kind == EV_NO_ACTION || Sha(None, e.digests).Some?)
  }

  function AbsorbEntry(hash: Hash, sizes: map<nat, nat>, s: State, e: Entry): (t: State)
    requires |s.pcrs| == PCR_COUNT && Usable(sizes, e)
    ensures |t.pcrs| == PCR_COUNT
  {
    if e.kind == EV_NO_ACTION then Noted(s, e.pcr, e.data)
    else Extended(hash, s, Event(e.pcr, e.kind, Sha(None, e.digests).value, e.data))
  }

  predicate AllUsable(sizes: map<nat, nat>, es: seq<Entry>) {
    forall i :: 0 <= i < |es| ==> Usable(sizes, es[i])
  }

  /** The reference reading: the entries in order. */
  function AbsorbEntries(hash: Hash, sizes: map<nat, nat>, s: State, es: seq<Entry>): (t: State)
    requires |s.pcrs| == PCR_COUNT && AllUsable(sizes, es)
    ensures |t.pcrs| == PCR_COUNT
    decreases |es|
  {
    if es == [] then s else AbsorbEntries(hash, sizes, AbsorbEntry(hash, sizes, s, es[0]), es[1..])
  }

  // ---- digests

  lemma DigestFront(sizes: map<nat, nat>, x: Digest, rest: Bytes, count: nat, found: Option<Bytes>)
    requires DigestFits(sizes, x) && count > 0
    ensures Digests(sizes, Le(x.alg, 2) + (x.bytes + rest), count, found)
         == Digests(sizes, rest, count - 1, if x.alg == ALG_SHA256 then Some(x.bytes) else found)
  {
    Widths();
    TakeLeFront(x.alg, 2, x.bytes + rest);
    TakeFront(x.bytes, rest);
    hide TakeLe, TakeBytes, Le;
  }

  lemma {:induction false} DigestsFront(sizes: map<nat, nat>, ds: seq<Digest>, rest: Bytes, count: nat, found: Option<Bytes>)
    requires DigestsFit(sizes, ds) && |ds| <= count
    ensures Digests(sizes, WireDigests(ds) + rest, count, found) == Digests(sizes, rest, count - |ds|, Sha(found, ds))
    decreases |ds|
  {
    hide Digests, WireDigests, Le, Sha;
    if ds == [] {
      NoDigests(rest);
      ShaNone(found);
    } else {
      var x, more := ds[0], ds[1..];
      assert [x] + more == ds;
      MetPush(x, more, rest);
      ShaPush(found, x, more);
      DigestFront(sizes, x, WireDigests(more) + rest, count, found);
      DigestsFront(sizes, more, rest, count - 1, if x.alg == ALG_SHA256 then Some(x.bytes) else found);
    }
  }

  /** What a walk over digests met: all of them, or those before a SHA-256 digest that the log cuts off. */
  ghost predicate Met(sizes: map<nat, nat>, d: Bytes, count: nat, found: Option<Bytes>, ds: seq<Digest>, tail: Bytes) {
    var g := Digests(sizes, d, count, found);
    && DigestsFit(sizes, ds)
    && (g.Digested? ==> |ds| == count && tail == g.rest && g.d == Sha(found, ds) && d == WireDigests(ds) + g.rest)
    && (g.OutOfBounds? ==>
          && |ds| < count && ALG_SHA256 in sizes && |tail| < sizes[ALG_SHA256]
          && d == WireDigests(ds) + (Le(ALG_SHA256, 2) + tail))
  }

  lemma MetPush(x: Digest, ds: seq<Digest>, rest: Bytes)
    ensures WireDigests([x] + ds) + rest == Le(x.alg, 2) + (x.bytes + (WireDigests(ds) + rest))
  {
    assert ([x] + ds)[1..] == ds;
    hide Le;
  }

  lemma ShaPush(found: Option<Bytes>, x: Digest, ds: seq<Digest>)
    ensures Sha(found, [x] + ds) == Sha(if x.alg == ALG_SHA256 then Some(x.bytes) else found, ds)
  {
    assert ([x] + ds)[1..] == ds;
  }

  lemma {:induction false} DigestsMet(sizes: map<nat, nat>, d: Bytes, count: nat, found: Option<Bytes>) returns (ds: seq<Digest>, tail: Bytes)
    ensures Met(sizes, d, count, found, ds, tail)
    decreases count
  {
    ds, tail := [], d;
    if count == 0 {
      assert WireDigests([]) + d == d;
    } else {
      Widths();
      TakeLeBack(d, 2);
      hide Le, FromLe;
      var r := TakeLe(d, 2);
      if r.Got? && r.value in sizes {
        var n := sizes[r.value];
        if n <= |r.rest| {
          var x := Digest(r.value, r.rest[..n]);
          var f := if x.alg == ALG_SHA256 then Some(x.bytes) else found;
          var more, end := DigestsMet(sizes, r.rest[n..], count - 1, f);
          ds, tail := [x] + more, end;
          assert r.rest == x.bytes + r.rest[n..];
          MetStep(sizes, d, count, found, x, r.rest[n..], more, tail);
        } else {
          tail := r.rest;
          assert WireDigests([]) + d == d;
        }
      }
    }
  }

  lemma MetStep(sizes: map<nat, nat>, d: Bytes, count: nat, found: Option<Bytes>, x: Digest, rest: Bytes, more: seq<Digest>, tail: Bytes)
    requires count > 0 && DigestFits(sizes, x) && d == Le(x.alg, 2) + (x.bytes + rest)
    requires Met(sizes, rest, count - 1, if x.alg == ALG_SHA256 then Some(x.bytes) else found, more, tail)
    ensures Met(sizes, d, count, found, [x] + more, tail)
  {
    DigestFront(sizes, x, rest, count, found);
    MetPush(x, more, tail);
    MetPush(x, more, Le(ALG_SHA256, 2) + tail);
    ShaPush(found, x, more);
    hide Digests, WireDigests, Sha, Le;
  }

  lemma ShaNone(found: Option<Bytes>)
    ensures Sha(found, []) == found
  {
  }

  lemma NoDigests(rest: Bytes)
    ensures WireDigests([]) + rest == rest
  {
  }

  // ---- events

  /** The front of an event up to its digests. */
  function Opening(pcr: nat, kind: nat, count: nat, rest: Bytes): Bytes {
    Le(pcr, 4) + (Le(kind, 4) + (Le(count, 4) + rest))
  }

  lemma OpeningRead(sizes: map<nat, nat>, pcr: nat, kind: nat, count: nat, rest: Bytes)
    requires pcr < 0x1_0000_0000 && kind < 0x1_0000_0000 && count < 0x1_0000_0000
    ensures ReadEvent(sizes, Opening(pcr, kind, count, rest)) == ReadData(pcr, kind, Digests(sizes, rest, count, None))
    ensures Opening(pcr, kind, count, rest) != []
  {
    Widths();
    TakeLeFront(pcr, 4, Le(kind, 4) + (Le(count, 4) + rest));
    TakeLeFront(kind, 4, Le(count, 4) + rest);
    TakeLeFront(count, 4, rest);
    hide TakeLe, Le, Digests, ReadData;
  }

  /** Every event that is long enough opens like this. */
  lemma OpeningMet(d: Bytes) returns (pcr: nat, kind: nat, count: nat, rest: Bytes)
    requires |d| >= 12
    ensures d == Opening(pcr, kind, count, rest) && pcr < 0x1_0000_0000 && kind < 0x1_0000_0000 && count < 0x1_0000_0000
  {
    Widths();
    TakeLeBack(d, 4);
    hide Le, FromLe, Pow256;
    var a := TakeLe(d, 4);
    TakeLeBack(a.rest, 4);
    var b := TakeLe(a.rest, 4);
    TakeLeBack(b.rest, 4);
    var c := TakeLe(b.rest, 4);
    pcr, kind, count, rest := a.value, b.value, c.value, c.rest;
  }

  lemma ShortEvent(sizes: map<nat, nat>, d: Bytes)
    requires |d| < 12
    ensures ReadEvent(sizes, d) == BadEvent
  {
    hide FromLe;
  }

  lemma WireOpens(e: Entry, rest: Bytes)
    ensures Wire(e) + rest == Opening(e.pcr, e.kind, |e.digests|, WireDigests(e.digests) + (Le(|e.data|, 4) + (e.data + rest)))
  {
    hide Le, WireDigests;
  }

  lemma DataRead(pcr: nat, kind: nat, digest: Option<Bytes>, data: Bytes, rest: Bytes)
    requires |data| < 0x1_0000_0000
    ensures ReadData(pcr, kind, Digested(digest, Le(|data|, 4) + (data + rest))) == Raw(pcr, kind, digest, data, rest)
  {
    Widths();
    TakeLeFront(|data|, 4, data + rest);
    TakeFront(data, rest);
    hide TakeLe, TakeBytes, Le;
  }

  /** A usable entry at the front is read as it was written. */
  lemma EntryRead(sizes: map<nat, nat>, e: Entry, rest: Bytes)
    requires Usable(sizes, e)
    ensures Wire(e) + rest != []
    ensures ReadEvent(sizes, Wire(e) + rest) == Raw(e.pcr, e.kind, Sha(None, e.digests), e.data, rest)
  {
    WireOpens(e, rest);
    var tail := Le(|e.data|, 4) + (e.data + rest);
    hide Wire, Opening, WireDigests, ReadEvent, ReadData, Sha, Le;
    OpeningRead(sizes, e.pcr, e.kind, |e.digests|, WireDigests(e.digests) + tail);
    DigestsFront(sizes, e.digests, tail, |e.digests|, None);
    assert Digests(sizes, tail, 0, Sha(None, e.digests)) == Digested(Sha(None, e.digests), tail);
    hide Digests;
    DataRead(e.pcr, e.kind, Sha(None, e.digests), e.data, rest);
  }

  /** A SHA-256 digest runs past the end of the log. */
  ghost predicate CutOff(sizes: map<nat, nat>, d: Bytes) {
    exists pcr: nat, kind: nat, count: nat, ds: seq<Digest>, tail: Bytes :: CutAt(sizes, d, pcr, kind, count, ds, tail)
  }

  predicate CutAt(sizes: map<nat, nat>, d: Bytes, pcr: nat, kind: nat, count: nat, ds: seq<Digest>, tail: Bytes) {
    && pcr < 0x1_0000_0000 && kind < 0x1_0000_0000 && |ds| < count < 0x1_0000_0000
    && DigestsFit(sizes, ds) && ALG_SHA256 in sizes && |tail| < sizes[ALG_SHA256]
    && d == Opening(pcr, kind, count, WireDigests(ds) + (Le(ALG_SHA256, 2) + tail))
  }

  lemma CutDigest(sizes: map<nat, nat>, tail: Bytes, count: nat, found: Option<Bytes>)
    requires count > 0 && ALG_SHA256 in sizes && |tail| < sizes[ALG_SHA256]
    ensures Digests(sizes, Le(ALG_SHA256, 2) + tail, count, found) == OutOfBounds
  {
    Widths();
    TakeLeFront(ALG_SHA256, 2, tail);
    hide TakeLe, Le;
  }

  lemma CutPanics(sizes: map<nat, nat>, d: Bytes)
    requires CutOff(sizes, d)
    ensures d != [] && ReadEvent(sizes, d) == PanicEvent
  {
    var pcr: nat, kind: nat, count: nat, ds: seq<Digest>, tail: Bytes :| CutAt(sizes, d, pcr, kind, count, ds, tail);
    var last := Le(ALG_SHA256, 2) + tail;
    hide Opening, WireDigests, ReadEvent, Le, Digests, Sha;
    OpeningRead(sizes, pcr, kind, count, WireDigests(ds) + last);
    DigestsFront(sizes, ds, last, count, None);
    CutDigest(sizes, tail, count - |ds|, Sha(None, ds));
  }

  lemma DataMet(pcr: nat, kind: nat, digest: Option<Bytes>, r: Bytes)
    ensures var raw := ReadData(pcr, kind, Digested(digest, r));
            !raw.PanicEvent? && (raw.Raw? ==>
              && raw.pcr == pcr && raw.kind == kind && raw.digest == digest
              && |raw.data| < 0x1_0000_0000 && r == Le(|raw.data|, 4) + (raw.data + raw.rest))
  {
    Widths();
    TakeLeBack(r, 4);
    hide Le, FromLe;
    var n := TakeLe(r, 4);
    if n.Got? && n.value <= |n.rest| {
      assert n.rest == n.rest[..n.value] + n.rest[n.value..];
    }
  }

  /** Whatever is read was written, and only a cut-off digest panics. */
  lemma EventMet(sizes: map<nat, nat>, d: Bytes) returns (ds: seq<Digest>)
    ensures var raw := ReadEvent(sizes, d);
            && (raw.PanicEvent? ==> CutOff(sizes, d))
            && (raw.Raw? ==>
                  var e := Entry(raw.pcr, raw.kind, ds, raw.data);
                  && DigestsFit(sizes, ds) && |ds| < 0x1_0000_0000 && |raw.data| < 0x1_0000_0000
                  && raw.pcr < 0x1_0000_0000 && raw.kind < 0x1_0000_0000
                  && raw.digest == Sha(None, ds) && d == Wire(e) + raw.rest)
  {
    ds := [];
    if |d| < 12 {
      ShortEvent(sizes, d);
    } else {
      var pcr, kind, count, rest := OpeningMet(d);
      OpeningRead(sizes, pcr, kind, count, rest);
      var tail;
      ds, tail := DigestsMet(sizes, rest, count, None);
      hide ReadEvent, Opening, Digests, WireDigests, Le, Sha;
      var g := Digests(sizes, rest, count, None);
      if g.OutOfBounds? {
        assert CutAt(sizes, d, pcr, kind, count, ds, tail);
      } else if g.Digested? {
        DataMet(pcr, kind, g.d, g.rest);
        var raw := ReadData(pcr, kind, g);
        if raw.Raw? {
          WireOpens(Entry(raw.pcr, raw.kind, ds, raw.data), raw.rest);
        }
      }
    }
  }

  // ---- whole logs

  /** The bytes are usable entries and a tail. */
  ghost predicate Splits(sizes: map<nat, nat>, d: Bytes, es: seq<Entry>, tail: Bytes) {
    AllUsable(sizes, es) && d == WireAll(es) + tail
  }

  lemma WireCons(e: Entry, es: seq<Entry>, tail: Bytes)
    ensures WireAll([e] + es) + tail == Wire(e) + (WireAll(es) + tail)
  {
    assert ([e] + es)[1..] == es;
    hide Wire;
  }

  lemma SplitsMore(sizes: map<nat, nat>, d: Bytes, e: Entry, rest: Bytes, es: seq<Entry>, tail: Bytes)
    requires Usable(sizes, e) && d == Wire(e) + rest && Splits(sizes, rest, es, tail)
    ensures Splits(sizes, d, [e] + es, tail)
  {
    hide Wire, Usable, WireAll;
    WireCons(e, es, tail);
  }

  lemma AbsorbCons(hash: Hash, sizes: map<nat, nat>, s: State, e: Entry, es: seq<Entry>)
    requires |s.pcrs| == PCR_COUNT && Usable(sizes, e) && AllUsable(sizes, es)
    ensures AllUsable(sizes, [e] + es)
    ensures AbsorbEntries(hash, sizes, s, [e] + es) == AbsorbEntries(hash, sizes, AbsorbEntry(hash, sizes, s, e), es)
  {
    assert ([e] + es)[1..] == es;
    hide Usable, AbsorbEntry;
  }

  /** A usable entry that was read is absorbed. */
  lemma EntryReplayed(hash: Hash, sizes: map<nat, nat>, d: Bytes, e: Entry, rest: Bytes, s: State)
    requires |s.pcrs| == PCR_COUNT && Usable(sizes, e) && d != []
    requires ReadEvent(sizes, d) == Raw(e.pcr, e.kind, Sha(None, e.digests), e.data, rest)
    ensures Replayed(hash, sizes, d, s) == Replayed(hash, sizes, rest, AbsorbEntry(hash, sizes, s, e))
  {
    ReadShrinks(sizes, d);
    NotedSize(s);
    hide ReadEvent, Noted, Sha, DigestsFit;
  }

  lemma NoEntries(hash: Hash, sizes: map<nat, nat>, tail: Bytes, s: State)
    requires |s.pcrs| == PCR_COUNT
    ensures WireAll([]) + tail == tail && AbsorbEntries(hash, sizes, s, []) == s
  {
  }

  /** Usable entries are absorbed one by one. */
  lemma {:induction false} EntriesReplay(hash: Hash, sizes: map<nat, nat>, es: seq<Entry>, tail: Bytes, s: State)
    requires |s.pcrs| == PCR_COUNT && AllUsable(sizes, es)
    ensures Replayed(hash, sizes, WireAll(es) + tail, s) == Replayed(hash, sizes, tail, AbsorbEntries(hash, sizes, s, es))
    decreases |es|
  {
    hide ReadEvent, Wire, WireAll, Usable, AbsorbEntry, AbsorbEntries, Replayed, Sha;
    if es == [] {
      NoEntries(hash, sizes, tail, s);
    } else {
      var e, more := es[0], es[1..];
      assert es == [e] + more;
      WireCons(e, more, tail);
      AbsorbCons(hash, sizes, s, e, more);
      var rest := WireAll(more) + tail;
      EntryRead(sizes, e, rest);
      EntryReplayed(hash, sizes, Wire(e) + rest, e, rest, s);
      EntriesReplay(hash, sizes, more, tail, AbsorbEntry(hash, sizes, s, e));
    }
  }

  lemma NotUsable(hash: Hash, sizes: map<nat, nat>, d: Bytes, s: State)
    requires |s.pcrs| == PCR_COUNT && d != []
    requires var raw := ReadEvent(sizes, d); raw.Raw? ==> raw.pcr >= PCR_COUNT || (raw.kind != EV_NO_ACTION && raw.digest.None?)
    ensures var r := Replayed(hash, sizes, d, s); !r.Ok? && (r.Panics? ==> ReadEvent(sizes, d).PanicEvent?)
  {
    hide ReadEvent, Noted;
  }

  /** A log's events are usable entries up to a tail that is empty, cut off, or refused. */
  lemma {:induction false} LogSplits(hash: Hash, sizes: map<nat, nat>, d: Bytes, s: State) returns (es: seq<Entry>, tail: Bytes)
    requires |s.pcrs| == PCR_COUNT
    ensures Splits(sizes, d, es, tail)
    ensures var r := Replayed(hash, sizes, d, s); (r.Ok? ==> tail == []) && (r.Panics? ==> CutOff(sizes, tail))
    decreases |d|
  {
    es, tail := [], d;
    assert WireAll([]) + d == d;
    if d == [] {
      EmptyReplay(hash, sizes, s);
    } else {
      hide ReadEvent, Wire, WireAll, Sha, DigestsFit, CutOff, AbsorbEntry, Replayed;
      var ds := EventMet(sizes, d);
      ReadShrinks(sizes, d);
      var raw := ReadEvent(sizes, d);
      if raw.Raw? && raw.pcr < PCR_COUNT && (raw.kind == EV_NO_ACTION || raw.digest.Some?) {
        var e := Entry(raw.pcr, raw.kind, ds, raw.data);
        EntryReplayed(hash, sizes, d, e, raw.rest, s);
        var more, end := LogSplits(hash, sizes, raw.rest, AbsorbEntry(hash, sizes, s, e));
        SplitsMore(sizes, d, e, raw.rest, more, end);
        es, tail := [e] + more, end;
      } else {
        NotUsable(hash, sizes, d, s);
      }
    }
  }

  /** The replay panics exactly on a well-formed header followed by usable entries and an event whose SHA-256
      digest is cut off by the end of the log. */
  lemma PanicExactly(hash: Hash, log: Bytes)
    ensures Replay(hash, log).Panics? <==>
            && ReadHeader(log).Some?
            && var h := ReadHeader(log).value;
               h.1 <= |log| && exists es, tail :: Splits(h.0, log[h.1..], es, tail) && CutOff(h.0, tail)
  {
    hide ReadHeader, Replayed, CutOff, Splits, Fresh;
    var o := ReadHeader(log);
    if o.Some? && o.value.1 <= |log| {
      var sizes, d := o.value.0, log[o.value.1..];
      FreshSize();
      if Replayed(hash, sizes, d, Fresh()).Panics? {
        var es, tail := LogSplits(hash, sizes, d, Fresh());
      }
      if es, tail :| Splits(sizes, d, es, tail) && CutOff(sizes, tail) {
        SplitPanics(hash, sizes, d, es, tail);
      }
    }
  }

  lemma FreshSize()
    ensures |Fresh().pcrs| == PCR_COUNT
  {
  }

  lemma SplitPanics(hash: Hash, sizes: map<nat, nat>, d: Bytes, es: seq<Entry>, tail: Bytes)
    requires Splits(sizes, d, es, tail) && CutOff(sizes, tail)
    ensures Replayed(hash, sizes, d, Fresh()).Panics?
  {
    FreshSize();
    EntriesReplay(hash, sizes, es, tail, Fresh());
    CutPanics(sizes, tail);
    hide ReadEvent, CutOff, WireAll, Fresh;
  }

  /** Such logs exist: the TPM's own header and one event whose digest is cut anywhere. */
  lemma CutLogPanics(hash: Hash, pcr: nat, kind: nat, part: Bytes)
    requires pcr < 0x1_0000_0000 && kind < 0x1_0000_0000 && |part| < 32
    ensures Replay(hash, LogHeader() + Opening(pcr, kind, 1, Le(ALG_SHA256, 2) + part)).Panics?
  {
    hide Opening, Le, LogHeader, ReadHeader, Replayed, Fresh;
    var d := Opening(pcr, kind, 1, Le(ALG_SHA256, 2) + part);
    HeaderRead(d);
    OnlyCut(hash, map[ALG_SHA256 := 32], pcr, kind, part);
  }

  lemma OnlyCut(hash: Hash, sizes: map<nat, nat>, pcr: nat, kind: nat, part: Bytes)
    requires pcr < 0x1_0000_0000 && kind < 0x1_0000_0000 && ALG_SHA256 in sizes && |part| < sizes[ALG_SHA256]
    ensures Replayed(hash, sizes, Opening(pcr, kind, 1, Le(ALG_SHA256, 2) + part), Fresh()).Panics?
  {
    hide Opening, Le, Replayed, Fresh, ReadEvent, WireDigests;
    var d := Opening(pcr, kind, 1, Le(ALG_SHA256, 2) + part);
    NoDigests(Le(ALG_SHA256, 2) + part);
    assert CutAt(sizes, d, pcr, kind, 1, [], part);
    assert WireAll([]) + d == d;
    SplitPanics(hash, sizes, d, [], d);
  }

  /** The replay accepts exactly the logs whose events are usable entries, and reads them in order. */
  lemma AcceptedExactly(hash: Hash, log: Bytes)
    ensures Replay(hash, log).Ok? <==>
            && ReadHeader(log).Some?
            && var h := ReadHeader(log).value;
               h.1 <= |log| && exists es :: Splits(h.0, log[h.1..], es, [])
    ensures forall es :: ReadHeader(log).Some? && ReadHeader(log).value.1 <= |log|
              && Splits(ReadHeader(log).value.0, log[ReadHeader(log).value.1..], es, [])
              ==> |Fresh().pcrs| == PCR_COUNT && Replay(hash, log) == Ok(AbsorbEntries(hash, ReadHeader(log).value.0, Fresh(), es))
  {
    hide ReadHeader, Replayed, Fresh, WireAll, Usable;
    FreshSize();
    var o := ReadHeader(log);
    if o.Some? && o.value.1 <= |log| {
      var sizes, d := o.value.0, log[o.value.1..];
      if Replayed(hash, sizes, d, Fresh()).Ok? {
        var es, tail := LogSplits(hash, sizes, d, Fresh());
        assert Splits(sizes, d, es, []);
      }
      forall es | Splits(sizes, d, es, []) ensures Replayed(hash, sizes, d, Fresh()) == Ok(AbsorbEntries(hash, sizes, Fresh(), es)) {
        EntriesReplay(hash, sizes, es, [], Fresh());
        EmptyReplay(hash, sizes, AbsorbEntries(hash, sizes, Fresh(), es));
      }
    }
  }

  lemma EmptyReplay(hash: Hash, sizes: map<nat, nat>, s: State)
    requires |s.pcrs| == PCR_COUNT
    ensures Replayed(hash, sizes, [], s) == Ok(s)
  {
  }
}
