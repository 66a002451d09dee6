/** A run in which the call that ends the epoch signs a timeout: a quarter of the committee has given up on
    the next round, and the message that makes it a half also brings the certificate that ends the epoch. */
module EndingTimeout {
  import opened Options
  import opened Committee
  import opened Certificates
  import opened EngineSpec
  import opened Protocol
  import opened EngineSafety
  import opened EpochEnd
  import opened EpochSilence
  import opened ForgedHeight
  import Bitmap

  /** Member 1 gave up on round 3 after it had seen the nil block certified. */
  function Joiner(): Timeout {
    Timeout(0, 3, Cert(2, NIL, 2), 1, Signed(1, TimeoutMsg(0, 0, 3, 2)), None)
  }

  function Inputs(): seq<Event> {
    [EvBlock(REAL_INFO), EvBlock(NIL_INFO), Late(Cert(1, REAL, 1)), EvMessage(TimeoutM(Joiner()))]
  }

  /** The votes for both blocks and the timeout of member 1 were released. */
  function Released(): Net {
    World().(rel := World().rel + {Joiner().sig})
  }

  // ---- the inputs can be met

  lemma InputsAdmissible()
    ensures Released().Assumed() && forall i :: 0 <= i < |Inputs()| ==> Admissible(Released(), Inputs()[i])
  {
    Decoded();
    Weights();
    hide Bitmap.NoAliases, Map3;
    var net := Released();
    var w := Four().weights;
    assert SetWeight(w, {3}, 1) == 0 && SetWeight(w, {3}, 2) == 0 && SetWeight(w, {3}, 3) == 0 && SetWeight(w, {3}, 4) == 1;
    forall i | 0 <= i < 3 ensures Known(net, Ballots3(1, REAL)[i]) && Known(net, Ballots3(2, NIL)[i]) {
      assert Ballots3(1, REAL)[i] in Ballots3(1, REAL) && Ballots3(2, NIL)[i] in Ballots3(2, NIL);
    }
  }

  lemma VotesGrow()
    ensures Released().CertAt(1, REAL)
  {
    RealCertified();
    var a, b := World(), Released();
    assert a.Voters(1, REAL) == b.Voters(1, REAL);
  }

  lemma OnlyTheseNow(v: nat, r: nat, h: Hash)
    requires Released().Ballot(v, r, h) in Released().rel
    ensures (r == 1 && h == REAL) || (r == 2 && h == NIL)
  {
    OnlyThese(v, r, h);
  }

  lemma OneTimeout(v: nat, r: nat, q: nat)
    requires Released().GaveUp(v, r, q) in Released().rel
    ensures q == 2
  {
    NoTimeouts(v, r, q);
  }

  lemma Discipline(net: Net)
    requires net.cfg == Epoch() && net.Justified(1, REAL) && net.Justified(2, NIL)
    requires forall v: nat, r: nat, h :: net.Ballot(v, r, h) in net.rel ==> (r == 1 && h == REAL) || (r == 2 && h == NIL)
    requires forall v: nat, r: nat, q: nat :: net.GaveUp(v, r, q) in net.rel ==> q == 2
    ensures net.Disciplined()
  {
    hide Net.Justified;
    assert RoundOf(net.cfg, ParentOf(REAL)) == 0 && RoundOf(net.cfg, ParentOf(NIL)) == 1;
  }

  /** The honest members followed the rules. */
  lemma InputsDisciplined()
    ensures Released().Disciplined()
  {
    VotesGrow();
    forall v: nat, r: nat, h | Released().Ballot(v, r, h) in Released().rel ensures (r == 1 && h == REAL) || (r == 2 && h == NIL) {
      OnlyTheseNow(v, r, h);
    }
    forall v: nat, r: nat, q: nat | Released().GaveUp(v, r, q) in Released().rel ensures q == 2 {
      OneTimeout(v, r, q);
    }
    assert Released().cfg == Epoch();
    hide Released, Net.Justified, Net.Disciplined, Net.Certified;
    JustifiedFrom(Released());
    Discipline(Released());
  }

  // ---- the run

  /** The nil block's certificate ends the epoch and moves the engine to round 3. */
  lemma EpochOver()
    ensures var s := ProcessQc(S3(1), Cert(2, NIL, 2)).s;
            && s.finished && s.round == 3 && s.timeouts == S3(1).timeouts && s.timedOut == {} && s.cfg == Epoch()
  {
    hide Map3;
    var q := Cert(2, NIL, 2);
    var t := AddQc(S3(1), q);
    assert WalkBack(t.blocks, t.committed, REAL_INFO) == Path([REAL_INFO]);
    assert NilWalk(t.blocks, 1, REAL_INFO) == Some(([], REAL_INFO));
    hide RealBlocks;
    var r := TryCommit(t, q);
    assert r.s == t.(committed := REAL_INFO, finished := true);
  }

  lemma TwoSigners(s: set<nat>)
    requires s == {1, 3}
    ensures Sorted(s, 4) == [1, 3] && Four().WeightOf([1, 3]) == 2
  {
    var two: seq<nat> := [1, 3];
    Bitmap.SortedUnique(two, s, 4);
    hide Sorted;
    var one: seq<nat> := [1];
    assert two[..1] == one && one[..0] == [];
    assert Four().WeightOf(one) == 1;
  }

  lemma AfterJoiner()
    ensures AfterCerts(S3(1), Joiner()).s == ProcessQc(S3(1), Cert(2, NIL, 2)).s
  {
    hide ProcessQc, Cert, S3;
  }

  lemma Accepted()
    ensures AcceptsTimeout(S3(1), Joiner())
  {
    CertVerifies(2, NIL, 2);
    hide Qc.Verify, Map3;
  }

  /** Two of four have given up on the engine's round. */
  lemma TipsOver(s: State, t: Timeout)
    requires s.cfg == Epoch() && s.round == 3 && s.timedOut == {} && t.round == 3 && t.signer == 1
    requires 3 in s.timeouts && !s.timeouts[3].done && s.timeouts[3].entries.Keys == {3}
    ensures Joins(s, t)
  {
    Weights();
    TwoSigners({1, 3});
    hide Sorted, ValidatorSet.WeightOf, ValidatorSet.Total;
    assert s.timeouts[3].entries.Keys + {1} == {1, 3};
    assert Counted(s, t) == 2;
  }

  lemma JoinedLast(s: State, t: Timeout)
    requires AcceptsTimeout(s, t) && !s.finished && t.epoch == s.cfg.epoch
    requires Joins(AfterCerts(s, t).s, t) && AfterCerts(s, t).s.finished
    ensures var r := Handle(s, EvMessage(TimeoutM(t))); r.s.finished && Ballots(r.out) != {}
  {
    hide AcceptsTimeout, Joins, ProcessQc, ProcessTc, CountTimeout, Tc.Verify;
    TimeoutMsgSigns(s, t);
    CountTimeoutSigns(AfterCerts(s, t).s, t);
  }

  lemma LastCall()
    ensures var r := Handle(S3(1), EvMessage(TimeoutM(Joiner()))); r.s.finished && Ballots(r.out) != {}
  {
    hide AcceptsTimeout, Joins, ProcessQc, CountTimeout, Map3, AfterCerts, Handle;
    Accepted();
    EpochOver();
    AfterJoiner();
    TipsOver(AfterCerts(S3(1), Joiner()).s, Joiner());
    JoinedLast(S3(1), Joiner());
  }

  /** From a fresh start, the last of the four inputs ends the epoch and makes the engine sign a timeout. */
  lemma EndingCallSigns()
    ensures var s := Live(New(Epoch()), Inputs()[..3]).s;
            var r := Handle(s, Inputs()[3]);
            !s.finished && r.s.finished && Ballots(r.out) != {}
  {
    var ev, s := Inputs(), New(Epoch());
    assert ev[..3][..2] == ev[..2] && ev[..2][..1] == ev[..1] && ev[..1][..0] == [];
    FirstTwo();
    Third(1);
    LastCall();
    LiveStep(s, ev[..1]);
    LiveStep(s, ev[..2]);
    LiveStep(s, ev[..3]);
    hide Handle, Live, Ballots;
    assert Live(s, ev[..0]) == Result(s, []) by { LiveNothing(s); }
    assert Live(s, ev[..3]).s == S3(1);
  }
}
