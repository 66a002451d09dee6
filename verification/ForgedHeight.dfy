/** What a wrong height can do: a Byzantine member sends a genuine certificate with its unsigned height
    altered, and an engine then emits a nil-chain proof that verification rejects. */
module ForgedHeight {
  import opened Options
  import opened Committee
  import opened Certificates
  import opened EngineSpec
  import opened Protocol
  import opened EngineSafety
  import opened EpochEnd
  import opened TrueHeights
  import Bitmap

  const ANCHOR := BlockInfo(Bare(0), Bare(0), 0, 0)

  function Four(): ValidatorSet {
    ValidatorSet([1, 1, 1, 1], [])
  }

  /** Four members of equal weight, member 3 Byzantine; the epoch ends at height 1; the engine signs for
      member 0. */
  function Epoch(): Config {
    Config(0, 0, Four(), [0], ANCHOR, 1)
  }

  const REAL := Header(Bare(0), 1, 1, 0)
  const NIL := Nil(0, REAL, 2)
  const REAL_INFO := BlockInfo(REAL, Bare(0), 1, 1)
  const NIL_INFO := BlockInfo(NIL, REAL, 2, 2)

  function Ballots3(round: nat, block: Hash): seq<Sig> {
    var m := VoteMsg(0, 0, round, block);
    [Signed(1, m), Signed(2, m), Signed(3, m)]
  }

  function Map3(): seq<bv8> {
    var three: seq<nat> := [1, 2, 3];
    Bitmap.Encode(three, 4)
  }

  function Cert(round: nat, block: Hash, height: nat): Qc {
    Qc(0, round, block, height, Map3(), Some(Ballots3(round, block)))
  }

  /** The certificate of the real block, with height 7 instead of 1. */
  function Altered(): Qc {
    Cert(1, REAL, 7)
  }

  /** A timeout of round 3 by the Byzantine member. */
  function Late(q: Qc): Event {
    EvMessage(TimeoutM(Timeout(0, 3, q, 3, Signed(3, TimeoutMsg(0, 0, 3, q.round)), None)))
  }

  function Events(): seq<Event> {
    [EvBlock(REAL_INFO), EvBlock(NIL_INFO), Late(Altered()), Late(Cert(2, NIL, 2))]
  }

  /** Members 1, 2 and 3 voted for both blocks. */
  function World(): Net {
    Net(Epoch(), {3}, (set x | x in Ballots3(1, REAL)) + (set x | x in Ballots3(2, NIL)))
  }

  lemma Weights()
    ensures Four().Total() == 4 && Four().WeightOf([1, 2, 3]) == 3 && Four().WeightOf([3]) == 1
  {
    var v := Four();
    assert PrefixSum(v.weights, 1) == 1 && PrefixSum(v.weights, 2) == 2 && PrefixSum(v.weights, 3) == 3;
    var l3: seq<nat> := [1, 2, 3];
    var l2: seq<nat> := [1, 2];
    var l1: seq<nat> := [1];
    assert l3[..2] == l2 && l2[..1] == l1 && l1[..0] == [];
    assert v.WeightOf(l1) == 1 && v.WeightOf(l2) == 2;
    var l: seq<nat> := [3];
    assert l[..0] == [];
  }

  lemma SortedThree(s: set<nat>)
    requires s == {1, 2, 3}
    ensures Sorted(s, 4) == [1, 2, 3]
  {
    assert Sorted(s, 1) == [];
    assert Sorted(s, 2) == [1];
    assert Sorted(s, 3) == [1, 2];
  }

  lemma Decoded()
    ensures Bitmap.Decode(Map3()) == [1, 2, 3] && Bitmap.NoAliases(Map3())
  {
    hide Bitmap.Decode, Bitmap.Encode, Bitmap.NoAliases, Sorted;
    var three: seq<nat> := [1, 2, 3];
    Bitmap.RoundTrip(three, 4);
    assert Elems(three) == {1, 2, 3} by {
      assert three[0] in three && three[1] in three && three[2] in three;
    }
    SortedThree(Elems(three));
    Bitmap.DistinctExactly(Map3());
  }

  lemma CertVerifies(round: nat, block: Hash, height: nat)
    requires round > 0
    ensures Cert(round, block, height).Verify(Epoch().Scope()) && !Cert(round, block, height).IsAnchor()
  {
    Decoded();
    Weights();
    hide Bitmap.Decode, Map3, ValidatorSet.WeightOf, ValidatorSet.Total;
  }

  /** All four inputs are ones an engine can meet, Byzantine weight is within the bound. */
  lemma EventsAdmissible()
    ensures World().Assumed() && forall i :: 0 <= i < |Events()| ==> Admissible(World(), Events()[i])
  {
    Decoded();
    Weights();
    hide Bitmap.NoAliases, Map3;
    var net := World();
    var w := Four().weights;
    assert SetWeight(w, {3}, 1) == 0 && SetWeight(w, {3}, 2) == 0 && SetWeight(w, {3}, 3) == 0 && SetWeight(w, {3}, 4) == 1;
    forall i | 0 <= i < 3 ensures Known(net, Ballots3(1, REAL)[i]) && Known(net, Ballots3(2, NIL)[i]) {
      assert Ballots3(1, REAL)[i] in Ballots3(1, REAL) && Ballots3(2, NIL)[i] in Ballots3(2, NIL);
    }
  }

  lemma OnlyThese(v: nat, r: nat, h: Hash)
    requires World().Ballot(v, r, h) in World().rel
    ensures (r == 1 && h == REAL) || (r == 2 && h == NIL)
  {
  }

  lemma RealCertified()
    ensures World().CertAt(1, REAL)
  {
    var net := World();
    var voters := net.Voters(1, REAL);
    assert forall i :: 0 <= i < 3 ==> Ballots3(1, REAL)[i] in Ballots3(1, REAL);
    forall v | 1 <= v < 4 ensures v in voters {
      assert Ballots3(1, REAL)[v - 1] == net.Ballot(v, 1, REAL);
    }
    Weights();
    var w := Four().weights;
    assert SetWeight(w, voters, 1) >= 0;
    assert SetWeight(w, voters, 2) >= 1;
    assert SetWeight(w, voters, 3) >= 2;
    assert SetWeight(w, voters, 4) >= 3;
  }

  lemma JustifiedFrom(net: Net)
    requires net.cfg == Epoch() && net.CertAt(0, ANCHOR.hash) && net.CertAt(1, REAL)
    ensures net.Justified(1, REAL) && net.Justified(2, NIL)
  {
    hide Net.CertAt, Net.TimedOut;
    assert HeightOf(net.cfg, REAL) == 1;
    assert HeightOf(net.cfg, NIL) == 2;
  }

  lemma BothJustified()
    ensures World().Justified(1, REAL) && World().Justified(2, NIL)
  {
    RealCertified();
    hide Net.Certified, Net.Justified;
    JustifiedFrom(World());
  }

  lemma TwoBallots(net: Net)
    requires net.Justified(1, REAL) && net.Justified(2, NIL)
    requires forall v: nat, r: nat, h :: net.Ballot(v, r, h) in net.rel ==> (r == 1 && h == REAL) || (r == 2 && h == NIL)
    requires forall v: nat, r: nat, q: nat :: net.GaveUp(v, r, q) !in net.rel
    ensures net.Disciplined()
  {
    hide Net.Justified;
  }

  /** The honest members followed the vote rule. */
  lemma HonestDisciplined()
    ensures World().Disciplined()
  {
    BothJustified();
    forall v: nat, r: nat, h | World().Ballot(v, r, h) in World().rel ensures (r == 1 && h == REAL) || (r == 2 && h == NIL) {
      OnlyThese(v, r, h);
    }
    forall v: nat, r: nat, q: nat ensures World().GaveUp(v, r, q) !in World().rel {
      NoTimeouts(v, r, q);
    }
    hide World, Net.Justified, Net.Disciplined;
    TwoBallots(World());
  }

  lemma NoTimeouts(v: nat, r: nat, q: nat)
    ensures World().GaveUp(v, r, q) !in World().rel
  {
  }

  // ---- the run, state by state

  function Blocks2(): map<Hash, BlockInfo> {
    map[ANCHOR.hash := ANCHOR, REAL := REAL_INFO, NIL := NIL_INFO]
  }

  function S2(): State {
    New(Epoch()).(blocks := Blocks2())
  }

  lemma FirstTwo()
    ensures Handle(New(Epoch()), EvBlock(REAL_INFO)) == Result(New(Epoch()).(blocks := map[ANCHOR.hash := ANCHOR, REAL := REAL_INFO]), [])
    ensures Handle(New(Epoch()).(blocks := map[ANCHOR.hash := ANCHOR, REAL := REAL_INFO]), EvBlock(NIL_INFO)) == Result(S2(), [])
  {
  }

  /** After the real block's certificate, stating height `h`, was processed. */
  function S3(h: nat): State {
    var q := Cert(1, REAL, h);
    S2().(round := 2, highQc := q, qcs := map[ANCHOR.hash := Epoch().AnchorCert(), REAL := q],
          timeouts := map[3 := TimeoutSet(map[3 := Report(1, Signed(3, TimeoutMsg(0, 0, 3, 1)))], q, false)])
  }

  lemma CertKept(h: nat)
    ensures ProcessQc(S2(), Cert(1, REAL, h)) == Result(S3(h).(timeouts := map[]), [ScheduleTimeout(2)])
  {
    hide Map3;
    var q := Cert(1, REAL, h);
    var t := AddQc(S2(), q);
    assert TryCommit(t, q) == Result(t, []);
    var u := t.(round := 2, entryTc := None, requested := {});
    PrunesNothing(u);
    assert OpenRound(u) == Result(u, [ScheduleTimeout(2)]);
    assert [] + [ScheduleTimeout(2)] == [ScheduleTimeout(2)];
  }

  lemma PrunesNothing(u: State)
    requires u.round == 2 && u.votes == map[] && u.timeouts == map[] && u.timedOut == {} && u.proposed == {} && u.pending == map[]
    requires u.committed.height == 0 && (forall h :: h in u.qcs ==> h in u.blocks)
    ensures Prune(u) == u
  {
    assert VotesFrom(u.votes, 0) == u.votes && TimeoutsFrom(u.timeouts, 0) == u.timeouts;
    assert RoundsFrom(u.timedOut, 0) == {} && RoundsFrom(u.proposed, 0) == {};
    assert ProposalsAbove(u.pending, 0) == u.pending && BlocksFrom(u.blocks, 0) == u.blocks;
    assert QcsOf(u.qcs, u.blocks) == u.qcs;
  }

  /** A timeout without a timeout certificate: its high QC is processed, then it is counted. */
  lemma TimeoutHandled(s: State, q: Qc)
    requires s.cfg == Epoch() && !s.finished && s.round <= 5 && q.round < 3 && q.Verify(Epoch().Scope())
    ensures Handle(s, Late(q)) == CountTimeout(ProcessQc(s, q).s, Late(q).m.t).After(ProcessQc(s, q).out)
  {
    hide Qc.Verify, ProcessQc, CountTimeout;
    assert [] + ProcessQc(s, q).out == ProcessQc(s, q).out;
  }

  lemma CountedOne(h: nat)
    ensures CountTimeout(S3(h).(timeouts := map[]), Late(Cert(1, REAL, h)).m.t) == Result(S3(h), [])
  {
    Weights();
    OneSigner(map[3 := Report(1, Signed(3, TimeoutMsg(0, 0, 3, 1)))]);
    hide Map3, ValidatorSet.WeightOf, ValidatorSet.Total, Sorted;
  }

  lemma Third(h: nat)
    ensures Handle(S2(), Late(Cert(1, REAL, h))) == Result(S3(h), [ScheduleTimeout(2)])
  {
    CertVerifies(1, REAL, h);
    hide ProcessQc, Qc.Verify, CountTimeout, Map3, Handle;
    TimeoutHandled(S2(), Cert(1, REAL, h));
    CertKept(h);
    CountedOne(h);
    assert [ScheduleTimeout(2)] + [] == [ScheduleTimeout(2)];
  }

  lemma OneSigner(entries: map<nat, Report>)
    requires entries.Keys == {3}
    ensures Sorted(entries.Keys, Four().Len()) == [3]
  {
    Bitmap.SortedUnique([3], entries.Keys, 4);
  }

  /** The nil block's certificate commits the real block with the altered certificate in the proof. */
  function BadProof(): CommitProof {
    CommitProof(Altered(), Cert(2, NIL, 2), None, [2], REAL, 1)
  }

  lemma Committed()
    ensures Commit([REAL_INFO], BadProof()) in ProcessQc(S3(7), Cert(2, NIL, 2)).out
  {
    hide Map3;
    var q := Cert(2, NIL, 2);
    var t := AddQc(S3(7), q);
    assert WalkBack(t.blocks, t.committed, REAL_INFO) == Path([REAL_INFO]);
    assert NilWalk(t.blocks, 1, REAL_INFO) == Some(([], REAL_INFO));
    var none: seq<nat> := [];
    assert none + [2] == [2];
    assert ProofFor(t.(committed := REAL_INFO), REAL_INFO, NIL_INFO, Altered(), q) == Some(BadProof());
    assert [REAL_INFO][..0] == [] && RealBlocks([REAL_INFO], 1) == [REAL_INFO];
    assert Commit([REAL_INFO], BadProof()) in TryCommit(t, q).out;
  }

  lemma Fourth()
    ensures Commit([REAL_INFO], BadProof()) in Handle(S3(7), Late(Cert(2, NIL, 2))).out
  {
    CertVerifies(2, NIL, 2);
    hide ProcessQc, Qc.Verify, CountTimeout, Map3, Handle;
    TimeoutHandled(S3(7), Cert(2, NIL, 2));
    Committed();
  }

  lemma {:induction false} LiveStep(s: State, events: seq<Event>)
    requires events != []
    ensures var less := events[..|events| - 1];
            Live(s, events) == Handle(Live(s, less).s, events[|events| - 1]).After(Live(s, less).out)
  {
  }

  /** An engine fed these inputs from a fresh start emits a nil-chain proof with correct links that
      verification rejects: only its height is wrong. */
  lemma ForgedHeightRejected()
    ensures Commit([REAL_INFO], BadProof()) in Live(New(Epoch()), Events()).out
    ensures BadProof().nilRounds != [] && BadProof().Verify(Epoch().Scope()) == None
    ensures BadProof().(qc := Cert(1, REAL, 1)).Verify(Epoch().Scope()) == Some(REAL)
  {
    var ev, s := Events(), New(Epoch());
    assert ev[..3][..2] == ev[..2] && ev[..2][..1] == ev[..1] && ev[..1][..0] == [];
    FirstTwo();
    Third(7);
    Fourth();
    LiveStep(s, ev[..1]);
    LiveStep(s, ev[..2]);
    LiveStep(s, ev[..3]);
    LiveStep(s, ev);
    hide Handle, Live;
    assert Live(s, ev[..0]) == Result(s, []) by { LiveNothing(s); }
    Verdicts();
  }

  lemma LiveNothing(s: State)
    ensures Live(s, []) == Result(s, [])
  {
  }

  lemma Verdicts()
    ensures BadProof().Verify(Epoch().Scope()) == None
    ensures BadProof().(qc := Cert(1, REAL, 1)).Verify(Epoch().Scope()) == Some(REAL)
  {
    CertVerifies(1, REAL, 1);
    CertVerifies(2, NIL, 2);
    hide Qc.Verify, Map3;
    assert Epoch().Scope().(epoch := 0) == Epoch().Scope();
    var rounds: seq<nat> := [2];
    assert rounds[..0] == [];
    assert NilChain(0, REAL, []) == (REAL, REAL);
    assert NilChain(0, REAL, rounds) == (REAL, NIL);
  }
}
