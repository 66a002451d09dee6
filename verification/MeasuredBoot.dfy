/** Measured boot: the TPM's event log, its replay and the quote over its registers
    (crates/attest/src/tpm.rs, crates/attest/src/tpm_sim.rs). The hash is a parameter; keys and
    signatures are left out. */
module MeasuredBoot {
  import opened Options
  import opened ByteCodec
  import Bitmap

  const PCR_COUNT: nat := 24
  const ALG_SHA256: nat := 0x000b
  const EV_NO_ACTION: nat := 3

  type Hash = Bytes -> Bytes

  datatype Event = Event(pcr: nat, kind: nat, digest: Bytes, data: Bytes)

  /** Registers and events, in log order. */
  datatype State = State(pcrs: seq<Bytes>, events: seq<Event>)

  const ZERO32: Bytes := [0, 0, 0, 0, 0, 0, 0, 0, 0, 0, 0, 0, 0, 0, 0, 0, 0, 0, 0, 0, 0, 0, 0, 0, 0, 0, 0, 0, 0, 0, 0, 0]
  /** "Spec ID Event03" and a zero byte. */
  const SPEC_ID: Bytes := [83, 112, 101, 99, 32, 73, 68, 32, 69, 118, 101, 110, 116, 48, 51, 0]
  /** "StartupLocality" and a zero byte. */
  const LOCALITY: Bytes := [83, 116, 97, 114, 116, 117, 112, 76, 111, 99, 97, 108, 105, 116, 121, 0]

  function Fresh(): State {
    State(seq(PCR_COUNT, _ => ZERO32), [])
  }

  // ---- what a log means

  function Extended(hash: Hash, s: State, e: Event): State
    requires e.pcr < |s.pcrs|
  {
    State(s.pcrs[e.pcr := hash(s.pcrs[e.pcr] + e.digest)], s.events + [e])
  }

  /** An event that measures nothing only may set the startup locality of register 0. */
  function Noted(s: State, pcr: nat, data: Bytes): State
    requires |s.pcrs| > 0
  {
    if LOCALITY <= data && pcr == 0 then
      s.(pcrs := s.pcrs[0 := ZERO32[..31] + [if |data| > 16 then data[16] else 0]])
    else s
  }

  /** The reference reading of one event of a log. */
  function Absorb(hash: Hash, s: State, e: Event): State
    requires |s.pcrs| == PCR_COUNT && e.pcr < PCR_COUNT
  {
    if e.kind == EV_NO_ACTION then Noted(s, e.pcr, e.data) else Extended(hash, s, e)
  }

  datatype Outcome = Ok(s: State) | Refused | Panics

  function AbsorbAll(hash: Hash, s: State, events: seq<Event>): Outcome
    requires |s.pcrs| == PCR_COUNT
    decreases |events|
  {
    if events == [] then Ok(s)
    else if events[0].pcr >= PCR_COUNT then Refused
    else AbsorbAll(hash, Absorb(hash, s, events[0]), events[1..])
  }

  // ---- encoding

  function EncodeEvent(e: Event): Bytes {
    Le(e.pcr, 4) + (Le(e.kind, 4) + (Le(1, 4) + (Le(ALG_SHA256, 2) + (e.digest + (Le(|e.data|, 4) + e.data)))))
  }

  function EncodeEvents(events: seq<Event>): Bytes {
    if events == [] then [] else EncodeEvent(events[0]) + EncodeEvents(events[1..])
  }

  function SpecId(): Bytes {
    SPEC_ID + Le(0, 4) + [0, 2, 0, 2] + Le(1, 4) + Le(ALG_SHA256, 2) + Le(32, 2) + [0]
  }

  function LogHeader(): Bytes {
    Le(0, 4) + Le(EV_NO_ACTION, 4) + ZERO32[..20] + Le(|SpecId()|, 4) + SpecId()
  }

  function EncodeLog(events: seq<Event>): Bytes {
    LogHeader() + EncodeEvents(events)
  }

  lemma {:induction false} EncodeLast(events: seq<Event>, e: Event)
    ensures EncodeEvents(events + [e]) == EncodeEvents(events) + EncodeEvent(e)
  {
    hide EncodeEvent;
    if events == [] {
      assert (events + [e])[1..] == [];
    } else {
      EncodeLast(events[1..], e);
      assert (events + [e])[1..] == events[1..] + [e];
    }
  }

  method EncodeLoop(events: seq<Event>) returns (b: Bytes)
    ensures b == EncodeLog(events)
  {
    hide EncodeEvent, LogHeader;
    b := LogHeader();
    for i := 0 to |events|
      invariant b == LogHeader() + EncodeEvents(events[..i])
    {
      EncodeLast(events[..i], events[i]);
      assert events[..i + 1] == events[..i] + [events[i]];
      b := b + EncodeEvent(events[i]);
    }
    assert events[..|events|] == events;
  }

  // ---- replay

  function LeAt(d: Bytes, p: nat, n: nat): Option<nat> {
    if p + n <= |d| then Some(FromLe(d[p..p + n])) else None
  }

  /** Digest sizes by algorithm, from the first `n` entries of the header. */
  function Sizes(spec: Bytes, n: nat): Option<map<nat, nat>> {
    if n == 0 then Some(map[])
    else
      match Sizes(spec, n - 1)
      case None => None
      case Some(m) =>
        var alg, size := LeAt(spec, 28 + 4 * (n - 1), 2), LeAt(spec, 30 + 4 * (n - 1), 2);
        if alg.None? || size.None? then None else Some(m[alg.value := size.value])
  }

  datatype Digested = Digested(d: Option<Bytes>, rest: Bytes) | Malformed | OutOfBounds

  /** Walks `count` digests, remembering the SHA-256 one. Skipping past the end fails at the next
      read; slicing a SHA-256 digest past the end panics. */
  function Digests(sizes: map<nat, nat>, d: Bytes, count: nat, found: Option<Bytes>): (r: Digested)
    ensures r.Digested? ==> |r.rest| <= |d|
    decreases count
  {
    if count == 0 then Digested(found, d)
    else
      match TakeLe(d, 2)
      case Short => Malformed
      case Got(alg, rest) =>
        if alg !in sizes then Malformed
        else
          match TakeBytes(rest, sizes[alg])
          case Short => if alg == ALG_SHA256 then OutOfBounds else Malformed
          case Got(b, more) => Digests(sizes, more, count - 1, if alg == ALG_SHA256 then Some(b) else found)
  }

  datatype Raw = Raw(pcr: nat, kind: nat, digest: Option<Bytes>, data: Bytes, rest: Bytes) | BadEvent | PanicEvent

  function ReadData(pcr: nat, kind: nat, g: Digested): Raw {
    match g
    case Malformed => BadEvent
    case OutOfBounds => PanicEvent
    case Digested(digest, r3) =>
      match TakeLe(r3, 4)
      case Short => BadEvent
      case Got(n, r4) =>
        match TakeBytes(r4, n)
        case Short => BadEvent
        case Got(data, rest) => Raw(pcr, kind, digest, data, rest)
  }

  function ReadEvent(sizes: map<nat, nat>, d: Bytes): (r: Raw)
    ensures r.Raw? ==> |r.rest| < |d|
  {
    match TakeLe(d, 4)
    case Short => BadEvent
    case Got(pcr, r0) =>
      match TakeLe(r0, 4)
      case Short => BadEvent
      case Got(kind, r1) =>
        match TakeLe(r1, 4)
        case Short => BadEvent
        case Got(count, r2) => ReadData(pcr, kind, Digests(sizes, r2, count, None))
  }

  function Replayed(hash: Hash, sizes: map<nat, nat>, d: Bytes, s: State): Outcome
    requires |s.pcrs| == PCR_COUNT
    decreases |d|
  {
    if d == [] then Ok(s)
    else
      match ReadEvent(sizes, d)
      case BadEvent => Refused
      case PanicEvent => Panics
      case Raw(pcr, kind, digest, data, rest) =>
        if pcr >= PCR_COUNT then Refused
        else if kind == EV_NO_ACTION then Replayed(hash, sizes, rest, Noted(s, pcr, data))
        else if digest.None? then Refused
        else Replayed(hash, sizes, rest, Extended(hash, s, Event(pcr, kind, digest.value, data)))
  }

  /** The digest sizes and the start of the events, if the header is that of a crypto-agile log. */
  function ReadHeader(log: Bytes): Option<(map<nat, nat>, nat)> {
    match LeAt(log, 28, 4)
    case None => None
    case Some(size) =>
      if 32 + size > |log| || !(SPEC_ID <= log[32..32 + size]) then None
      else
        var spec := log[32..32 + size];
        match LeAt(spec, 24, 4)
        case None => None
        case Some(n) =>
          match Sizes(spec, n)
          case None => None
          case Some(sizes) => if ALG_SHA256 in sizes && sizes[ALG_SHA256] == 32 then Some((sizes, 32 + size)) else None
  }

  function Replay(hash: Hash, log: Bytes): Outcome {
    match ReadHeader(log)
    case None => Refused
    case Some(h) => if h.1 <= |log| then Replayed(hash, h.0, log[h.1..], Fresh()) else Refused
  }

  // ---- the loops

  method SizesLoop(spec: Bytes, n: nat) returns (r: Option<map<nat, nat>>)
    ensures r == Sizes(spec, n)
  {
    hide LeAt;
    var m: map<nat, nat> := map[];
    for i := 0 to n
      invariant Sizes(spec, i) == Some(m)
    {
      var alg, size := LeAt(spec, 28 + 4 * i, 2), LeAt(spec, 30 + 4 * i, 2);
      if alg.None? || size.None? {
        SizesStayNone(spec, i + 1, n);
        return None;
      }
      m := m[alg.value := size.value];
    }
    r := Some(m);
  }

  lemma {:induction false} SizesStayNone(spec: Bytes, i: nat, n: nat)
    requires i <= n && Sizes(spec, i).None?
    ensures Sizes(spec, n).None?
  {
    if i < n {
      SizesStayNone(spec, i, n - 1);
    }
  }

  method DigestsLoop(sizes: map<nat, nat>, d: Bytes, count: nat) returns (r: Digested)
    ensures r == Digests(sizes, d, count, None)
  {
    hide FromLe;
    var rest, found := d, None;
    for i := 0 to count
      invariant Digests(sizes, d, count, None) == Digests(sizes, rest, count - i, found)
    {
      var alg := TakeLe(rest, 2);
      if alg.Short? || alg.value !in sizes {
        return Malformed;
      }
      var b := TakeBytes(alg.rest, sizes[alg.value]);
      if b.Short? {
        return if alg.value == ALG_SHA256 then OutOfBounds else Malformed;
      }
      if alg.value == ALG_SHA256 {
        found := Some(b.value);
      }
      rest := b.rest;
    }
    r := Digested(found, rest);
  }

  method ReadEventLoop(sizes: map<nat, nat>, d: Bytes) returns (r: Raw)
    ensures r == ReadEvent(sizes, d)
  {
    hide Digests, FromLe;
    var pcr := TakeLe(d, 4);
    if pcr.Short? {
      return BadEvent;
    }
    var kind := TakeLe(pcr.rest, 4);
    if kind.Short? {
      return BadEvent;
    }
    var count := TakeLe(kind.rest, 4);
    if count.Short? {
      return BadEvent;
    }
    var g := DigestsLoop(sizes, count.rest, count.value);
    r := ReadData(pcr.value, kind.value, g);
  }

  method ReplayLoop(hash: Hash, log: Bytes) returns (r: Outcome)
    ensures r == Replay(hash, log)
  {
    hide ReadEvent, Noted, LeAt, Sizes;
    var size := LeAt(log, 28, 4);
    if size.None? || 32 + size.value > |log| || !(SPEC_ID <= log[32..32 + size.value]) {
      return Refused;
    }
    var spec := log[32..32 + size.value];
    var n := LeAt(spec, 24, 4);
    if n.None? {
      return Refused;
    }
    var sizes := SizesLoop(spec, n.value);
    if sizes.None? || ALG_SHA256 !in sizes.value || sizes.value[ALG_SHA256] != 32 {
      return Refused;
    }
    var rest, s := log[32 + size.value..], Fresh();
    while rest != []
      invariant |s.pcrs| == PCR_COUNT
      invariant Replayed(hash, sizes.value, rest, s) == Replay(hash, log)
      decreases |rest|
    {
      ReadShrinks(sizes.value, rest);
      NotedSize(s);
      var e := ReadEventLoop(sizes.value, rest);
      match e {
        case BadEvent => return Refused;
        case PanicEvent => return Panics;
        case Raw(pcr, kind, digest, data, next) =>
          if pcr >= PCR_COUNT {
            return Refused;
          }
          if kind == EV_NO_ACTION {
            s := Noted(s, pcr, data);
          } else if digest.None? {
            return Refused;
          } else {
            s := Extended(hash, s, Event(pcr, kind, digest.value, data));
          }
          rest := next;
      }
    }
    r := Ok(s);
  }

  lemma ReadShrinks(sizes: map<nat, nat>, d: Bytes)
    ensures ReadEvent(sizes, d).Raw? ==> |ReadEvent(sizes, d).rest| < |d|
  {
  }

  lemma NotedSize(s: State)
    requires |s.pcrs| > 0
    ensures forall pcr: nat, data :: |Noted(s, pcr, data).pcrs| == |s.pcrs|
  {
  }

  // ---- replaying what was encoded

  /** Fields that fit their widths in the log. */
  predicate Fits(e: Event) {
    e.pcr < 0x1_0000_0000 && e.kind < 0x1_0000_0000 && |e.digest| == 32 && |e.data| < 0x1_0000_0000
  }

  lemma DigestRead(sizes: map<nat, nat>, digest: Bytes, rest: Bytes)
    requires ALG_SHA256 in sizes && sizes[ALG_SHA256] == 32 && |digest| == 32
    ensures Digests(sizes, Le(ALG_SHA256, 2) + (digest + rest), 1, None) == Digested(Some(digest), rest)
  {
    Widths();
    TakeLeFront(ALG_SHA256, 2, digest + rest);
    TakeFront(digest, rest);
    hide TakeLe, TakeBytes, Le, Pow256;
    assert Digests(sizes, rest, 0, Some(digest)) == Digested(Some(digest), rest);
  }

  lemma EventSplit(e: Event, rest: Bytes)
    ensures EncodeEvent(e) + rest
         == Le(e.pcr, 4) + (Le(e.kind, 4) + (Le(1, 4) + (Le(ALG_SHA256, 2) + (e.digest + (Le(|e.data|, 4) + (e.data + rest))))))
  {
    hide Le;
  }

  lemma EventRead(sizes: map<nat, nat>, e: Event, rest: Bytes)
    requires ALG_SHA256 in sizes && sizes[ALG_SHA256] == 32 && Fits(e)
    ensures ReadEvent(sizes, EncodeEvent(e) + rest) == Raw(e.pcr, e.kind, Some(e.digest), e.data, rest)
  {
    Widths();
    EventSplit(e, rest);
    hide TakeLe, TakeBytes, Le, Pow256, Digests;
    var d6 := e.data + rest;
    var d5 := Le(|e.data|, 4) + d6;
    var d3 := Le(ALG_SHA256, 2) + (e.digest + d5);
    var d2 := Le(1, 4) + d3;
    var d1 := Le(e.kind, 4) + d2;
    TakeLeFront(e.pcr, 4, d1);
    TakeLeFront(e.kind, 4, d2);
    TakeLeFront(1, 4, d3);
    DigestRead(sizes, e.digest, d5);
    TakeLeFront(|e.data|, 4, d6);
    TakeFront(e.data, rest);
  }

  lemma EventNotEmpty(e: Event, rest: Bytes)
    ensures EncodeEvent(e) + rest != []
  {
  }

  lemma {:induction false} EventsReplay(hash: Hash, sizes: map<nat, nat>, events: seq<Event>, s: State)
    requires |s.pcrs| == PCR_COUNT && ALG_SHA256 in sizes && sizes[ALG_SHA256] == 32
    requires forall i :: 0 <= i < |events| ==> Fits(events[i])
    ensures Replayed(hash, sizes, EncodeEvents(events), s) == AbsorbAll(hash, s, events)
    decreases |events|
  {
    hide EncodeEvent, ReadEvent, Noted;
    if events != [] {
      var e, rest := events[0], events[1..];
      EventRead(sizes, e, EncodeEvents(rest));
      EventNotEmpty(e, EncodeEvents(rest));
      NotedSize(s);
      if e.pcr < PCR_COUNT {
        EventsReplay(hash, sizes, rest, Absorb(hash, s, e));
      }
    }
  }

  lemma SpecShape()
    ensures var s := SpecId();
            && |s| == 33 && SPEC_ID <= s && s[24..28] == Le(1, 4) && s[28..30] == Le(ALG_SHA256, 2) && s[30..32] == Le(32, 2)
  {
    hide Le;
  }

  lemma HeaderShape(rest: Bytes)
    ensures var log := LogHeader() + rest;
            && |LogHeader()| == 65 && log[28..32] == Le(33, 4) && log[32..65] == SpecId() && log[65..] == rest
  {
    SpecShape();
    hide Le, SpecId;
  }

  lemma HeaderRead(rest: Bytes)
    ensures ReadHeader(LogHeader() + rest) == Some((map[ALG_SHA256 := 32], 65))
    ensures (LogHeader() + rest)[65..] == rest && |LogHeader()| == 65
  {
    var log := LogHeader() + rest;
    HeaderShape(rest);
    SpecShape();
    Widths();
    LeRoundTrip(33, 4);
    LeRoundTrip(1, 4);
    LeRoundTrip(ALG_SHA256, 2);
    LeRoundTrip(32, 2);
    hide LogHeader, SpecId, Le, FromLe, Pow256;
    var spec := SpecId();
    assert LeAt(log, 28, 4) == Some(33);
    assert LeAt(spec, 24, 4) == Some(1);
    assert LeAt(spec, 28, 2) == Some(ALG_SHA256) && LeAt(spec, 30, 2) == Some(32);
    assert Sizes(spec, 0) == Some(map[]);
    assert Sizes(spec, 1) == Some(map[ALG_SHA256 := 32]);
  }

  /** Replaying an encoded log gives its reference reading; it is refused exactly when some event
      names a register that does not exist. */
  lemma LogRoundTrip(hash: Hash, events: seq<Event>)
    requires forall i :: 0 <= i < |events| ==> Fits(events[i])
    ensures Replay(hash, EncodeLog(events)) == AbsorbAll(hash, Fresh(), events)
    ensures Replay(hash, EncodeLog(events)).Ok? <==> forall i :: 0 <= i < |events| ==> events[i].pcr < PCR_COUNT
  {
    HeaderRead(EncodeEvents(events));
    hide ReadHeader, LogHeader, EncodeEvents, Replayed;
    EventsReplay(hash, map[ALG_SHA256 := 32], events, Fresh());
    AbsorbsAll(hash, Fresh(), events);
  }

  lemma {:induction false} AbsorbsAll(hash: Hash, s: State, events: seq<Event>)
    requires |s.pcrs| == PCR_COUNT
    ensures AbsorbAll(hash, s, events).Ok? <==> forall i :: 0 <= i < |events| ==> events[i].pcr < PCR_COUNT
    ensures !AbsorbAll(hash, s, events).Panics?
    decreases |events|
  {
    hide Noted;
    if events != [] && events[0].pcr < PCR_COUNT {
      NotedSize(s);
      AbsorbsAll(hash, Absorb(hash, s, events[0]), events[1..]);
      if forall i :: 0 <= i < |events| ==> events[i].pcr < PCR_COUNT {
        assert forall i :: 0 <= i < |events| - 1 ==> events[1..][i].pcr < PCR_COUNT;
      }
      if forall i :: 0 <= i < |events[1..]| ==> events[1..][i].pcr < PCR_COUNT {
        assert forall i :: 0 < i < |events| ==> events[i] == events[1..][i - 1];
      }
    }
  }

  // ---- the TPM

  datatype Measurement = Measurement(pcr: nat, kind: nat, data: Bytes)

  function EventOf(hash: Hash, m: Measurement): Event {
    Event(m.pcr, m.kind, hash(m.data), m.data)
  }

  predicate InBank(ms: seq<Measurement>) {
    forall i :: 0 <= i < |ms| ==> ms[i].pcr < PCR_COUNT
  }

  /** The TPM after these extends. */
  function Booted(hash: Hash, ms: seq<Measurement>): (s: State)
    requires InBank(ms)
    ensures |s.pcrs| == PCR_COUNT && |s.events| == |ms|
    ensures forall i :: 0 <= i < |ms| ==> s.events[i] == EventOf(hash, ms[i])
  {
    if ms == [] then Fresh()
    else Extended(hash, Booted(hash, ms[..|ms| - 1]), EventOf(hash, ms[|ms| - 1]))
  }

  /** The log's fields are wide enough. */
  predicate Recordable(m: Measurement) {
    m.kind < 0x1_0000_0000 && |m.data| < 0x1_0000_0000
  }

  lemma {:induction false} AbsorbLast(hash: Hash, s: State, events: seq<Event>, e: Event)
    requires |s.pcrs| == PCR_COUNT && e.pcr < PCR_COUNT && AbsorbAll(hash, s, events).Ok?
    ensures var t := AbsorbAll(hash, s, events).s;
            |t.pcrs| == PCR_COUNT && AbsorbAll(hash, s, events + [e]) == Ok(Absorb(hash, t, e))
    decreases |events|
  {
    hide Noted;
    if events == [] {
      var one := [e];
      assert events + [e] == one && one[1..] == [];
      NotedSize(s);
      assert AbsorbAll(hash, Absorb(hash, s, e), []) == Ok(Absorb(hash, s, e));
    } else {
      NotedSize(s);
      AbsorbLast(hash, Absorb(hash, s, events[0]), events[1..], e);
      assert (events + [e])[1..] == events[1..] + [e];
    }
  }

  predicate Measures(ms: seq<Measurement>) {
    forall i :: 0 <= i < |ms| ==> ms[i].kind != EV_NO_ACTION
  }

  lemma {:induction false} AbsorbBooted(hash: Hash, ms: seq<Measurement>)
    requires InBank(ms)
    ensures var s := Booted(hash, ms);
            var a := AbsorbAll(hash, Fresh(), s.events);
            a.Ok? && |a.s.events| <= |ms| && (a == Ok(s) <==> Measures(ms)) && (|a.s.events| == |ms| ==> Measures(ms))
  {
    if ms != [] {
      var less, m := ms[..|ms| - 1], ms[|ms| - 1];
      AbsorbBooted(hash, less);
      var s := Booted(hash, less);
      AbsorbLast(hash, Fresh(), s.events, EventOf(hash, m));
      assert Measures(ms) <==> Measures(less) && m.kind != EV_NO_ACTION by {
        assert forall i :: 0 <= i < |less| ==> ms[i] == less[i];
      }
      NotedEvents(AbsorbAll(hash, Fresh(), s.events).s, m.pcr, m.data);
    }
  }

  lemma NotedEvents(s: State, pcr: nat, data: Bytes)
    requires |s.pcrs| > 0
    ensures Noted(s, pcr, data).events == s.events
  {
  }

  /** Measured-boot agreement: replaying the encoded log returns the registers and the events the TPM
      holds exactly when no measurement was logged as one that measures nothing. */
  lemma BootExact(hash: Hash, ms: seq<Measurement>)
    requires InBank(ms) && forall i :: 0 <= i < |ms| ==> Recordable(ms[i])
    requires forall b :: |hash(b)| == 32
    ensures var s := Booted(hash, ms); Replay(hash, EncodeLog(s.events)) == Ok(s) <==> Measures(ms)
  {
    hide Replay, EncodeLog, AbsorbAll;
    var s := Booted(hash, ms);
    LogRoundTrip(hash, s.events);
    AbsorbBooted(hash, ms);
  }

  // ---- quotes

  /** `mask` holds the four little-endian bytes of the register mask. */
  datatype Quote = Quote(
    signer: Bytes,
    extraData: Bytes,
    clock: nat,
    resetCount: nat,
    restartCount: nat,
    safe: bool,
    firmware: nat,
    mask: Bytes,
    digest: Bytes)

  const TPM_GENERATED: nat := 0xff54_4347
  const ST_ATTEST_QUOTE: nat := 0x8018

  /** The values of the selected registers, in index order. */
  function SelectedTo(pcrs: seq<Bytes>, mask: Bytes, n: nat): Bytes
    requires n <= |pcrs|
  {
    if n == 0 then []
    else SelectedTo(pcrs, mask, n - 1) + if Bitmap.BitAt(mask, n - 1) then pcrs[n - 1] else []
  }

  function PcrDigest(hash: Hash, pcrs: seq<Bytes>, mask: Bytes): Bytes {
    hash(SelectedTo(pcrs, mask, |pcrs|))
  }

  method PcrDigestLoop(hash: Hash, pcrs: seq<Bytes>, mask: Bytes) returns (d: Bytes)
    ensures d == PcrDigest(hash, pcrs, mask)
  {
    var input: Bytes := [];
    for i := 0 to |pcrs|
      invariant input == SelectedTo(pcrs, mask, i)
    {
      if Bitmap.BitAt(mask, i) {
        input := input + pcrs[i];
      }
    }
    d := hash(input);
  }

  function EncodeSelection(mask: Bytes, digest: Bytes): Bytes
    requires |mask| == 4
  {
    Be(1, 4) + (Be(ALG_SHA256, 2) + (Be(3, 1) + (mask[..3] + Frame(digest))))
  }

  function EncodeQuote(q: Quote): Bytes
    requires |q.mask| == 4
  {
    Be(TPM_GENERATED, 4) + (Be(ST_ATTEST_QUOTE, 2) + (Frame(q.signer) + (Frame(q.extraData) + (Be(q.clock, 8)
      + (Be(q.resetCount, 4) + (Be(q.restartCount, 4) + (Be(if q.safe then 1 else 0, 1) + (Be(q.firmware, 8)
      + EncodeSelection(q.mask, q.digest)))))))))
  }

  function OrByte(mask: Bytes, sel: Bytes, i: nat): bv8
    requires i < |mask|
  {
    if i < |sel| then mask[i] | sel[i] else mask[i]
  }

  /** Adds a selection of the SHA-256 bank to the mask; only its first three bytes count. */
  function AddSelection(mask: Bytes, sel: Bytes): (m: Bytes)
    requires |mask| == 4
    ensures |m| == 4
  {
    [OrByte(mask, sel, 0), OrByte(mask, sel, 1), OrByte(mask, sel, 2), mask[3]]
  }

  predicate AllZero(b: Bytes) {
    forall i :: 0 <= i < |b| ==> b[i] == 0
  }

  /** Reads `count` bank selections; selecting another bank fails. */
  function Selections(d: Bytes, count: nat, mask: Bytes): (r: Parsed<Bytes>)
    requires |mask| == 4
    ensures r.Got? ==> |r.value| == 4
    decreases count
  {
    if count == 0 then Got(mask, d)
    else
      match TakeBe(d, 2)
      case Short => Short
      case Got(alg, r0) =>
        match TakeBe(r0, 1)
        case Short => Short
        case Got(n, r1) =>
          match TakeBytes(r1, n)
          case Short => Short
          case Got(sel, r2) =>
            if alg == ALG_SHA256 then Selections(r2, count - 1, AddSelection(mask, sel))
            else if AllZero(sel) then Selections(r2, count - 1, mask)
            else Short
  }

  /** The bank selections and the digest, which end the structure. */
  function ParseTail(d: Bytes): Option<(Bytes, Bytes)> {
    match TakeBe(d, 4)
    case Short => None
    case Got(count, r0) =>
      match Selections(r0, count, [0, 0, 0, 0])
      case Short => None
      case Got(mask, r1) =>
        match TakeFrame(r1)
        case Short => None
        case Got(digest, r2) => if r2 == [] then Some((mask, digest)) else None
  }

  /** The clock information and the firmware version. */
  function ParseClock(d: Bytes): Option<((nat, nat, nat, bool, nat), Bytes)> {
    match TakeBe(d, 8)
    case Short => None
    case Got(clock, r0) =>
      match TakeBe(r0, 4)
      case Short => None
      case Got(reset, r1) =>
        match TakeBe(r1, 4)
        case Short => None
        case Got(restart, r2) =>
          match TakeBe(r2, 1)
          case Short => None
          case Got(safe, r3) =>
            match TakeBe(r3, 8)
            case Short => None
            case Got(firmware, r4) => Some(((clock, reset, restart, safe != 0, firmware), r4))
  }

  function ParseQuote(d: Bytes): Option<Quote> {
    match TakeBe(d, 4)
    case Short => None
    case Got(magic, r0) =>
      if magic != TPM_GENERATED then None
      else
        match TakeBe(r0, 2)
        case Short => None
        case Got(kind, r1) =>
          if kind != ST_ATTEST_QUOTE then None
          else
            match TakeFrame(r1)
            case Short => None
            case Got(signer, r2) =>
              match TakeFrame(r2)
              case Short => None
              case Got(extra, r3) =>
                match ParseClock(r3)
                case None => None
                case Some((c, r4)) =>
                  match ParseTail(r4)
                  case None => None
                  case Some((mask, digest)) => Some(Quote(signer, extra, c.0, c.1, c.2, c.3, c.4, mask, digest))
  }

  predicate QuoteFits(q: Quote) {
    && |q.signer| < 0x1_0000 && |q.extraData| < 0x1_0000 && |q.digest| < 0x1_0000 && |q.mask| == 4
    && q.clock < 0x1_0000_0000_0000_0000 && q.firmware < 0x1_0000_0000_0000_0000
    && q.resetCount < 0x1_0000_0000 && q.restartCount < 0x1_0000_0000
  }

  lemma OrZero(mask: Bytes)
    requires |mask| == 4
    ensures AddSelection([0, 0, 0, 0], mask[..3]) == mask[..3] + [0]
  {
    assert (0 as bv8) | mask[0] == mask[0] && (0 as bv8) | mask[1] == mask[1] && (0 as bv8) | mask[2] == mask[2];
  }

  lemma SelectionRead(mask: Bytes, digest: Bytes)
    requires |mask| == 4 && |digest| < 0x1_0000
    ensures ParseTail(EncodeSelection(mask, digest)) == Some((mask[..3] + [0], digest))
  {
    Widths();
    var d3 := mask[..3] + Frame(digest);
    var d2 := Be(3, 1) + d3;
    var d1 := Be(ALG_SHA256, 2) + d2;
    TakeBeFront(1, 4, d1);
    TakeBeFront(ALG_SHA256, 2, d2);
    TakeBeFront(3, 1, d3);
    TakeFront(mask[..3], Frame(digest));
    OrZero(mask);
    FrameWhole(digest, []);
    hide TakeBe, TakeBytes, TakeFrame, Be, Frame, Pow256, AddSelection;
    assert Selections(Frame(digest), 0, mask[..3] + [0]) == Got(mask[..3] + [0], Frame(digest));
  }

  lemma ClockRead(clock: nat, reset: nat, restart: nat, safe: bool, firmware: nat, rest: Bytes)
    requires clock < 0x1_0000_0000_0000_0000 && firmware < 0x1_0000_0000_0000_0000
    requires reset < 0x1_0000_0000 && restart < 0x1_0000_0000
    ensures ParseClock(Be(clock, 8) + (Be(reset, 4) + (Be(restart, 4) + (Be(if safe then 1 else 0, 1) + (Be(firmware, 8) + rest)))))
         == Some(((clock, reset, restart, safe, firmware), rest))
  {
    Widths();
    hide TakeBe, Be, Pow256;
    var flag := if safe then 1 else 0;
    var d4 := Be(firmware, 8) + rest;
    var d3 := Be(flag, 1) + d4;
    var d2 := Be(restart, 4) + d3;
    var d1 := Be(reset, 4) + d2;
    TakeBeFront(clock, 8, d1);
    TakeBeFront(reset, 4, d2);
    TakeBeFront(restart, 4, d3);
    TakeBeFront(flag, 1, d4);
    TakeBeFront(firmware, 8, rest);
  }

  /** Round trip of quotes, up to the mask bits above the 24 registers. */
  lemma QuoteRoundTrip(q: Quote)
    requires QuoteFits(q)
    ensures ParseQuote(EncodeQuote(q)) == Some(q.(mask := q.mask[..3] + [0]))
  {
    Widths();
    hide TakeBe, TakeFrame, Be, Frame, Pow256, ParseClock, ParseTail, EncodeSelection;
    var tail := EncodeSelection(q.mask, q.digest);
    var d4 := Be(q.clock, 8) + (Be(q.resetCount, 4) + (Be(q.restartCount, 4) + (Be(if q.safe then 1 else 0, 1) + (Be(q.firmware, 8) + tail))));
    var d3 := Frame(q.extraData) + d4;
    var d2 := Frame(q.signer) + d3;
    var d1 := Be(ST_ATTEST_QUOTE, 2) + d2;
    TakeBeFront(TPM_GENERATED, 4, d1);
    TakeBeFront(ST_ATTEST_QUOTE, 2, d2);
    FrameWhole(q.signer, d3);
    FrameWhole(q.extraData, d4);
    ClockRead(q.clock, q.resetCount, q.restartCount, q.safe, q.firmware, tail);
    SelectionRead(q.mask, q.digest);
  }

  lemma {:induction false} SelectedMasked(pcrs: seq<Bytes>, mask: Bytes, n: nat)
    requires n <= |pcrs| && n <= PCR_COUNT && |mask| == 4
    ensures SelectedTo(pcrs, mask[..3] + [0], n) == SelectedTo(pcrs, mask, n)
  {
    hide Bitmap.Bit;
    if n > 0 {
      SelectedMasked(pcrs, mask, n - 1);
      var m := mask[..3] + [0];
      assert (n - 1) / 8 < 3 && m[(n - 1) / 8] == mask[(n - 1) / 8];
      assert Bitmap.BitAt(m, n - 1) == Bitmap.BitAt(mask, n - 1);
    }
  }

  lemma MaskSize(q: Quote)
    requires QuoteFits(q)
    ensures |q.mask| == 4
  {
  }

  lemma DigestMasked(hash: Hash, pcrs: seq<Bytes>, mask: Bytes)
    requires |pcrs| == PCR_COUNT && |mask| == 4
    ensures PcrDigest(hash, pcrs, mask[..3] + [0]) == PcrDigest(hash, pcrs, mask)
  {
    hide SelectedTo;
    SelectedMasked(pcrs, mask, |pcrs|);
  }

  /** The appraisal of a quote against an event log: the quoted digest is that of the replayed
      registers. */
  predicate Appraises(hash: Hash, quote: Bytes, log: Bytes) {
    var q, r := ParseQuote(quote), Replay(hash, log);
    q.Some? && r.Ok? && q.value.digest == PcrDigest(hash, r.s.pcrs, q.value.mask)
  }

  /** Whatever was measured, unless as an event that measures nothing, the quote of the registers passes
      appraisal against the TPM's log. */
  lemma EvidenceAppraises(hash: Hash, ms: seq<Measurement>, q: Quote)
    requires forall b :: |hash(b)| == 32
    requires InBank(ms) && Measures(ms) && forall i :: 0 <= i < |ms| ==> Recordable(ms[i])
    requires QuoteFits(q) && q.digest == PcrDigest(hash, Booted(hash, ms).pcrs, q.mask)
    ensures Appraises(hash, EncodeQuote(q), EncodeLog(Booted(hash, ms).events))
  {
    hide Replay, EncodeLog, ParseQuote, EncodeQuote, PcrDigest, Measures, Booted, InBank, QuoteFits, Recordable;
    BootExact(hash, ms);
    QuoteRoundTrip(q);
    MaskSize(q);
    DigestMasked(hash, Booted(hash, ms).pcrs, q.mask);
  }

  /** The simulated TPM, updated in place. `done` is what it measured so far. */
  class SoftTpm {
    const hash: Hash
    const name: Bytes
    var pcrs: seq<Bytes>
    var events: seq<Event>
    var clock: nat
    ghost var done: seq<Measurement>

    ghost predicate Valid()
      reads this
    {
      && InBank(done)
      && State(pcrs, events) == Booted(hash, done)
    }

    constructor (hash: Hash, name: Bytes)
      ensures Valid() && done == [] && clock == 0 && this.hash == hash && this.name == name
    {
      this.hash := hash;
      this.name := name;
      pcrs, events, clock, done := Fresh().pcrs, [], 0, [];
    }

    method Extend(pcr: nat, kind: nat, data: Bytes)
      requires Valid() && pcr < PCR_COUNT
      modifies this
      ensures Valid() && done == old(done) + [Measurement(pcr, kind, data)] && clock == old(clock)
    {
      var digest := hash(data);
      pcrs := pcrs[pcr := hash(pcrs[pcr] + digest)];
      events := events + [Event(pcr, kind, digest, data)];
      done := done + [Measurement(pcr, kind, data)];
      assert done[..|done| - 1] == old(done);
    }

    /** A quote of the registers in `mask` and the log, as evidence. */
    method Evidence(mask: Bytes, qualifying: Bytes) returns (quote: Bytes, log: Bytes)
      requires Valid() && |mask| == 4
      modifies this`clock
      ensures Valid() && clock == old(clock) + 1000
      ensures log == EncodeLog(events)
      ensures quote == EncodeQuote(Quote(name, qualifying, clock, 0, 0, true, 0x0001_0002_0003_0004, mask, PcrDigest(hash, pcrs, mask)))
      ensures (forall b :: |hash(b)| == 32) && |name| < 0x1_0000 && |qualifying| < 0x1_0000 && clock < 0x1_0000_0000_0000_0000
              && Measures(done) && (forall i :: 0 <= i < |done| ==> Recordable(done[i]))
              ==> Appraises(hash, quote, log)
    {
      hide EncodeQuote, EncodeLog, Appraises, Booted;
      clock := clock + 1000;
      var digest := PcrDigestLoop(hash, pcrs, mask);
      var q := Quote(name, qualifying, clock, 0, 0, true, 0x0001_0002_0003_0004, mask, digest);
      quote := EncodeQuote(q);
      log := EncodeLoop(events);
      if (forall b :: |hash(b)| == 32) && QuoteFits(q) && Measures(done)
         && (forall i :: 0 <= i < |done| ==> Recordable(done[i])) {
        EvidenceAppraises(hash, done, q);
      }
    }
  }
}
