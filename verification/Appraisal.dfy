/** Exactly which evidence passes appraisal: the registers the quote selects, replayed from the log, are those
    of the TPM. */
module Appraisal {
  import opened Options
  import opened ByteCodec
  import opened MeasuredBoot
  import Bitmap

  /** Registers of a SHA-256 bank. */
  ghost predicate Bank(pcrs: seq<Bytes>) {
    |pcrs| == PCR_COUNT && forall i :: 0 <= i < |pcrs| ==> |pcrs[i]| == 32
  }

  ghost predicate SameTo(a: seq<Bytes>, b: seq<Bytes>, mask: Bytes, n: nat)
    requires n <= |a| && n <= |b|
  {
    forall i :: 0 <= i < n && Bitmap.BitAt(mask, i) ==> a[i] == b[i]
  }

  lemma Split(x: Bytes, p: Bytes, y: Bytes, q: Bytes)
    requires |p| == |q|
    ensures x + p == y + q <==> x == y && p == q
  {
    if x + p == y + q {
      assert |x| == |y|;
      assert (x + p)[..|x|] == x && (y + q)[..|y|] == y && (x + p)[|x|..] == p && (y + q)[|y|..] == q;
    }
  }

  /** The selected values say which registers were selected and what they hold. */
  lemma {:induction false} SelectedExactly(a: seq<Bytes>, b: seq<Bytes>, mask: Bytes, n: nat)
    requires Bank(a) && Bank(b) && n <= PCR_COUNT
    ensures SelectedTo(a, mask, n) == SelectedTo(b, mask, n) <==> SameTo(a, b, mask, n)
  {
    hide Bitmap.BitAt;
    if n > 0 {
      SelectedExactly(a, b, mask, n - 1);
      assert SameTo(a, b, mask, n) <==> SameTo(a, b, mask, n - 1) && (Bitmap.BitAt(mask, n - 1) ==> a[n - 1] == b[n - 1]);
      if Bitmap.BitAt(mask, n - 1) {
        Split(SelectedTo(a, mask, n - 1), a[n - 1], SelectedTo(b, mask, n - 1), b[n - 1]);
      } else {
        assert SelectedTo(a, mask, n - 1) + [] == SelectedTo(a, mask, n - 1);
        assert SelectedTo(b, mask, n - 1) + [] == SelectedTo(b, mask, n - 1);
      }
    }
  }

  lemma {:induction false} ReplayedBank(hash: Hash, sizes: map<nat, nat>, d: Bytes, s: State)
    requires Bank(s.pcrs) && forall b :: |hash(b)| == 32
    ensures var r := Replayed(hash, sizes, d, s); r.Ok? ==> Bank(r.s.pcrs)
    decreases |d|
  {
    if d != [] {
      ReadShrinks(sizes, d);
      hide ReadEvent;
      var e := ReadEvent(sizes, d);
      if e.Raw? && e.pcr < PCR_COUNT {
        NotedBank(s, e.pcr, e.data);
        if e.kind == EV_NO_ACTION {
          ReplayedBank(hash, sizes, e.rest, Noted(s, e.pcr, e.data));
        } else if e.digest.Some? {
          ReplayedBank(hash, sizes, e.rest, Extended(hash, s, Event(e.pcr, e.kind, e.digest.value, e.data)));
        }
      }
    }
  }

  lemma NotedBank(s: State, pcr: nat, data: Bytes)
    requires Bank(s.pcrs)
    ensures Bank(Noted(s, pcr, data).pcrs)
  {
  }

  lemma ReplayBank(hash: Hash, log: Bytes)
    requires forall b :: |hash(b)| == 32
    ensures Replay(hash, log).Ok? ==> Bank(Replay(hash, log).s.pcrs)
  {
    hide ReadHeader, Replayed;
    var o := ReadHeader(log);
    if o.Some? && o.value.1 <= |log| {
      ReplayedBank(hash, o.value.0, log[o.value.1..], Fresh());
    }
  }

  /** A TPM's quote over its registers passes appraisal against a log exactly when the log replays and gives every
      register the quote selects the value it has in the TPM, as long as the hash does not collide on the two
      selections. */
  lemma AppraisesExactly(hash: Hash, pcrs: seq<Bytes>, q: Quote, log: Bytes)
    requires Bank(pcrs) && (forall b :: |hash(b)| == 32) && QuoteFits(q) && q.digest == PcrDigest(hash, pcrs, q.mask)
    requires var r := Replay(hash, log);
             r.Ok? && |r.s.pcrs| == PCR_COUNT ==>
               var x, y := SelectedTo(pcrs, q.mask, PCR_COUNT), SelectedTo(r.s.pcrs, q.mask, PCR_COUNT);
               hash(x) == hash(y) ==> x == y
    ensures var r := Replay(hash, log);
            Appraises(hash, EncodeQuote(q), log) <==> r.Ok? && |r.s.pcrs| == PCR_COUNT && SameTo(r.s.pcrs, pcrs, q.mask, PCR_COUNT)
  {
    hide Replay, ParseQuote, EncodeQuote, SelectedTo, QuoteFits;
    ReplayBank(hash, log);
    QuoteRoundTrip(q);
    MaskSize(q);
    var r := Replay(hash, log);
    if r.Ok? {
      DigestMasked(hash, r.s.pcrs, q.mask);
      SelectedExactly(r.s.pcrs, pcrs, q.mask, PCR_COUNT);
    }
  }
}
