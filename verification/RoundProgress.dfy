/** Rounds only move forward, every certificate moves an engine past its round, and the leader of the round
    an engine enters proposes. */
module RoundProgress {
  import opened Options
  import opened Committee
  import opened Certificates
  import opened EngineSpec
  import opened Protocol
  import opened EpochEnd
  import opened CommitProgress
  import Bitmap

  /** The high QC is not ahead of the round, and no later round was proposed in. */
  ghost predicate InOrder(s: State) {
    s.highQc.round <= s.round && forall x :: x in s.proposed ==> x <= s.round
  }

  /** Nothing went back. */
  ghost predicate Grows(s: State, t: State) {
    && t.cfg == s.cfg && InOrder(t)
    && t.round >= s.round && t.highQc.round >= s.highQc.round && t.lastVoted >= s.lastVoted
    && (s.finished ==> t.finished)
  }

  /** Only the fields of committing differ. */
  predicate OnlyCommits(s: State, t: State) {
    && t.cfg == s.cfg && t.round == s.round && t.lastVoted == s.lastVoted && t.highQc == s.highQc && t.entryTc == s.entryTc
    && t.blocks == s.blocks && t.qcs == s.qcs && t.votes == s.votes && t.timeouts == s.timeouts && t.pending == s.pending
    && t.timedOut == s.timedOut && t.proposed == s.proposed && (s.finished ==> t.finished)
  }

  lemma Touched(s: State, committed: BlockInfo, blocked: Option<Qc>, requested: set<Hash>, finished: bool)
    requires s.finished ==> finished
    ensures OnlyCommits(s, s.(committed := committed, blockedCommit := blocked, requested := requested, finished := finished))
  {
  }

  lemma BlockOnTouches(s: State, qc: Qc, missing: Hash)
    ensures OnlyCommits(s, BlockOn(s, qc, missing).s)
  {
    hide OnlyCommits;
    var blocked := if s.blockedCommit.None? || s.blockedCommit.value.round < qc.round then Some(qc) else s.blockedCommit;
    var requested := if missing in s.requested then s.requested else s.requested + {missing};
    Touched(s, s.committed, blocked, requested, s.finished);
    if s.blockedCommit.None? || s.blockedCommit.value.round < qc.round {
      var t := s.(blockedCommit := Some(qc));
      assert BlockOn(s, qc, missing).s == if missing in t.requested then t else t.(requested := t.requested + {missing});
    } else {
      assert BlockOn(s, qc, missing).s == if missing in s.requested then s else s.(requested := s.requested + {missing});
    }
  }

  lemma CommitChainTouches(s: State, qc: Qc, b: BlockInfo, p: BlockInfo, pqc: Qc, chain: seq<BlockInfo>)
    ensures OnlyCommits(s, CommitChain(s, qc, b, p, pqc, chain).s)
  {
    hide ProofFor, RealBlocks, OnlyCommits;
    var blocked := if s.blockedCommit.Some? && s.blockedCommit.value.round <= qc.round then None else s.blockedCommit;
    var t := s.(committed := p, blockedCommit := blocked);
    Touched(s, p, blocked, s.requested, true);
    Touched(s, p, blocked, s.requested, s.finished);
    assert t.(finished := true) == s.(committed := p, blockedCommit := blocked, requested := s.requested, finished := true);
    assert t == s.(committed := p, blockedCommit := blocked, requested := s.requested, finished := s.finished);
  }

  /** Committing touches nothing but the commit fields. */
  lemma CommitTouches(s: State, qc: Qc)
    ensures OnlyCommits(s, TryCommit(s, qc).s)
  {
    hide WalkBack, CommitChain, BlockOn;
    if !s.finished {
      if qc.block !in s.blocks {
        BlockOnTouches(s, qc, qc.block);
      } else {
        var b := s.blocks[qc.block];
        if b.parent !in s.blocks {
          BlockOnTouches(s, qc, b.parent);
        } else {
          var p := s.blocks[b.parent];
          if p.hash in s.qcs {
            match WalkBack(s.blocks, s.committed, p) {
              case Path(chain) => CommitChainTouches(s, qc, b, p, s.qcs[p.hash], chain);
              case Missing(h) => BlockOnTouches(s, qc, h);
              case Fork =>
            }
          }
        }
      }
    }
  }

  lemma PruneTouches(s: State)
    ensures var t := Prune(s);
            && t == s.(votes := t.votes, timeouts := t.timeouts, timedOut := t.timedOut, proposed := t.proposed,
                       pending := t.pending, blocks := t.blocks, qcs := t.qcs)
            && t.proposed <= s.proposed
  {
    hide VotesFrom, TimeoutsFrom, ProposalsAbove, BlocksFrom, QcsOf;
  }

  /** What the leader of round `s.round` sends out: a nil proposal past the epoch's last height, otherwise the
      request to build a block, on the high QC and with the certificate the round was entered by. */
  function Opens(s: State): Action {
    var qc := s.highQc;
    if qc.height + 1 > s.cfg.endHeight then
      OwnProposal(s.cfg, BlockInfo(Nil(s.cfg.epoch, qc.block, s.round), qc.block, s.round, qc.height + 1), qc, s.entryTc, [])
    else Propose(s.round, qc, s.entryTc)
  }

  lemma OpenGrows(s: State)
    requires InOrder(s)
    ensures var r := OpenRound(s);
            && Grows(s, r.s) && r.s.round == s.round && r.s.highQc == s.highQc && r.s.entryTc == s.entryTc
            && r.s.lastVoted == s.lastVoted && r.s.finished == s.finished
            && ScheduleTimeout(s.round) in r.out
            && (s.cfg.Leads(s.round) && s.round !in s.proposed ==> Opens(r.s) in r.out && s.round in r.s.proposed)
  {
    PruneTouches(s);
    hide Prune, OwnProposal;
    var u := Prune(s);
    if u.cfg.Leads(u.round) && u.round !in u.proposed {
      var out := OpenRound(s).out;
      assert out == [ScheduleTimeout(u.round)] + Lead(u);
      assert out[1] == Opens(OpenRound(s).s) && out[1] in out;
    }
  }

  /** Entering a later round: the engine is there, its timer is set, and it proposes if it leads. */
  lemma EnterGrows(s: State, round: nat, tc: Option<Tc>)
    requires s.highQc.round <= round && (forall x :: x in s.proposed ==> x <= s.round) && round > s.round
    ensures var r := EnterRound(s, round, tc);
            && r.s.cfg == s.cfg && InOrder(r.s) && r.s.round == round && r.s.highQc == s.highQc && r.s.lastVoted == s.lastVoted
            && (s.finished ==> r.s.finished)
            && (!r.s.finished ==>
                  r.s.entryTc == tc && ScheduleTimeout(round) in r.out && (s.cfg.Leads(round) ==> Opens(r.s) in r.out && round in r.s.proposed))
  {
    hide TryCommit, OpenRound, Opens;
    var t := s.(round := round, entryTc := tc, requested := {});
    var r := if t.blockedCommit.Some? then TryCommit(t, t.blockedCommit.value) else Result(t, []);
    if t.blockedCommit.Some? {
      CommitTouches(t, t.blockedCommit.value);
    }
    OpenGrows(r.s);
  }

  /** A processed certificate moves the engine past its round and counts towards the high QC. */
  lemma QcGrows(s: State, qc: Qc)
    requires InOrder(s)
    ensures var r := ProcessQc(s, qc);
            && Grows(s, r.s) && r.s.lastVoted == s.lastVoted
            && r.s.round == Max(s.round, qc.round + 1) && r.s.highQc == (if qc.round > s.highQc.round then qc else s.highQc)
            && (r.s.round == s.round ==>
                  r.s.pending == s.pending && r.s.votes == s.votes && r.s.timeouts == s.timeouts && r.s.timedOut == s.timedOut && r.s.entryTc == s.entryTc)
            && (r.s.round > s.round && !r.s.finished ==>
                  && r.s.entryTc == None && ScheduleTimeout(r.s.round) in r.out
                  && (s.cfg.Leads(r.s.round) ==> Opens(r.s) in r.out))
  {
    var t := AddQc(s, qc);
    CommitTouches(t, qc);
    hide TryCommit, EnterRound, Opens;
    var r := TryCommit(t, qc);
    if qc.round >= r.s.round {
      EnterGrows(r.s, qc.round + 1, None);
    }
  }

  lemma TcCases(s: State, tc: Tc)
    ensures var r := ProcessQc(s, tc.highQc);
            ProcessTc(s, tc) == if tc.round >= r.s.round then EnterRound(r.s, tc.round + 1, Some(tc)).After(r.out) else r
  {
    hide ProcessQc, EnterRound;
  }

  /** So does a timeout certificate; the round after it is entered with the certificate in hand. */
  lemma TcGrows(s: State, tc: Tc)
    requires InOrder(s) && tc.highQc.round < tc.round
    ensures var r := ProcessTc(s, tc);
            && Grows(s, r.s) && r.s.lastVoted == s.lastVoted
            && r.s.round == Max(s.round, tc.round + 1) && r.s.highQc == (if tc.highQc.round > s.highQc.round then tc.highQc else s.highQc)
            && (r.s.round == s.round ==>
                  r.s.pending == s.pending && r.s.votes == s.votes && r.s.timeouts == s.timeouts && r.s.timedOut == s.timedOut && r.s.entryTc == s.entryTc)
            && (tc.round >= s.round && !r.s.finished ==>
                  && r.s.entryTc == Some(tc) && ScheduleTimeout(r.s.round) in r.out
                  && (s.cfg.Leads(r.s.round) ==> Opens(r.s) in r.out))
  {
    hide ProcessQc, ProcessTc, EnterRound, Opens;
    QcGrows(s, tc.highQc);
    TcCases(s, tc);
    var r := ProcessQc(s, tc.highQc);
    if tc.round >= r.s.round {
      EnterGrows(r.s, tc.round + 1, Some(tc));
    }
  }

  /** The same without knowing that the certificate is well formed. */
  lemma AnyTcGrows(s: State, tc: Tc)
    requires InOrder(s)
    ensures var r := ProcessTc(s, tc);
            && Grows(s, r.s) && r.s.lastVoted == s.lastVoted && r.s.round > tc.round && r.s.highQc.round >= tc.highQc.round
  {
    hide ProcessQc, ProcessTc, EnterRound, Opens;
    QcGrows(s, tc.highQc);
    TcCases(s, tc);
    var r := ProcessQc(s, tc.highQc);
    if tc.round >= r.s.round {
      EnterGrows(r.s, tc.round + 1, Some(tc));
    }
  }

  // ---- every handler

  lemma AbsorbGrows(s: State, p: Proposal)
    requires InOrder(s)
    ensures var t := Absorb(s, p).s;
            && Grows(s, t) && t.lastVoted == s.lastVoted && t.round > p.qc.round && t.highQc.round >= p.qc.round
            && (p.tc.Some? ==> t.round > p.tc.value.round)
  {
    hide ProcessQc, ProcessTc;
    var b := p.block;
    var t := if b.hash !in s.blocks && b.height > s.committed.height
             then s.(blocks := s.blocks[b.hash := b]) else s;
    QcGrows(t, p.qc);
    if p.tc.Some? {
      AnyTcGrows(ProcessQc(t, p.qc).s, p.tc.value);
    }
  }

  lemma ValidatedGrows(s: State, block: Hash, valid: bool)
    requires InOrder(s)
    ensures Grows(s, OnValidated(s, block, valid).s)
  {
    hide CastVotes, SafeToVote;
  }

  lemma ProposalGrows(s: State, p: Proposal)
    requires InOrder(s)
    ensures Grows(s, OnProposal(s, p).s)
  {
    hide Absorb, WellFormed, SafeToVote, OnValidated;
    AbsorbGrows(s, p);
    var r := Absorb(s, p);
    var t := r.s.(pending := r.s.pending[p.block.hash := p]);
    ValidatedGrows(t, p.block.hash, true);
  }

  lemma VoteGrows(s: State, v: Vote)
    requires InOrder(s)
    ensures Grows(s, OnVote(s, v).s)
  {
    hide ProcessQc, AddVote, Bitmap.Encode;
    var key := (v.round, v.block);
    var vs := if key in s.votes then s.votes[key] else VoteSet(v.height, map[], map[], false);
    var tally := AddVote(s.cfg.validators, VoteMsg(s.cfg.chain, s.cfg.epoch, v.round, v.block),
                         vs, v.height, v.signer, v.sig);
    var t := s.(votes := s.votes[key := tally.votes]);
    if tally.formed.Some? {
      QcGrows(t, Qc(s.cfg.epoch, v.round, v.block, tally.votes.height,
                    Bitmap.Encode(tally.formed.value.signers, s.cfg.validators.Len()), Some(tally.formed.value.agg)));
    }
  }

  lemma LocalGrows(s: State)
    requires InOrder(s)
    ensures Grows(s, LocalTimeout(s).s) && LocalTimeout(s).s.lastVoted >= s.round
  {
  }

  lemma CountGrows(s: State, t: Timeout)
    requires InOrder(s)
    ensures Grows(s, CountTimeout(s, t).s)
  {
    hide ProcessTc, LocalTimeout, Entries, ValidatorSet.WeightOf, ValidatorSet.IsQuorum, ValidatorSet.IsOneThird, Sorted;
    var ts := if t.round in s.timeouts then s.timeouts[t.round] else TimeoutSet(map[], t.highQc, false);
    var high := if t.highQc.round > ts.highQc.round then t.highQc else ts.highQc;
    var entries := ts.entries[t.signer := Report(t.highQc.round, t.sig)];
    var signers := Sorted(entries.Keys, s.cfg.validators.Len());
    var quorum := s.cfg.validators.IsQuorum(s.cfg.validators.WeightOf(signers));
    var u := s.(timeouts := s.timeouts[t.round := TimeoutSet(entries, high, quorum)]);
    AnyTcGrows(u, Tc(s.cfg.epoch, t.round, high, Entries(entries, signers)));
    LocalGrows(u);
  }

  lemma TimeoutMsgGrows(s: State, t: Timeout)
    requires InOrder(s)
    ensures Grows(s, OnTimeoutMsg(s, t).s)
    ensures AcceptsTimeout(s, t) ==> OnTimeoutMsg(s, t).s.round > t.highQc.round && OnTimeoutMsg(s, t).s.highQc.round >= t.highQc.round
  {
    hide ProcessTc, ProcessQc, CountTimeout, AcceptsTimeout, Tc.Verify;
    if AcceptsTimeout(s, t) {
      var useTc := && t.lastTc.Some?
                   && t.lastTc.value.round + 1 == t.round
                   && t.lastTc.value.round >= s.round
                   && t.lastTc.value.Verify(s.cfg.Scope());
      var r := if useTc then ProcessTc(s, t.lastTc.value) else Result(s, []);
      if useTc {
        AnyTcGrows(s, t.lastTc.value);
      }
      QcGrows(r.s, t.highQc);
      CountGrows(ProcessQc(r.s, t.highQc).s, t);
    }
  }

  /** In one life nothing goes back: the round, the high QC, the last round signed in, the end. */
  lemma HandleGrows(s: State, ev: Event)
    requires InOrder(s)
    ensures Grows(s, Handle(s, ev).s)
  {
    hide OnProposal, OnVote, OnTimeoutMsg, TryCommit, EnterRound, OnValidated;
    match ev
    case EvStart => EnterGrows(s, s.round + 1, None);
    case EvMessage(m) =>
      match m {
        case ProposalM(p) => ProposalGrows(s, p);
        case VoteM(v) => VoteGrows(s, v);
        case TimeoutM(t) => TimeoutMsgGrows(s, t);
      }
    case EvValidated(h, valid) => ValidatedGrows(s, h, valid);
    case EvProposed(b, qc, tc, payload) =>
    case EvTimeout(round) => LocalGrows(s);
    case EvBlock(b) =>
      var t := s.(requested := s.requested - {b.hash},
                  blocks := if b.height > s.committed.height then s.blocks[b.hash := b] else s.blocks);
      if t.blockedCommit.Some? {
        CommitTouches(t, t.blockedCommit.value);
      }
  }

  lemma NewInOrder(cfg: Config)
    ensures InOrder(New(cfg)) && forall p :: InOrder(Resume(cfg, p))
  {
  }

  // ---- a processed certificate commits

  /** A certificate that decides a chain commits it when it is processed, before anything else is committed. */
  lemma QcCommits(s: State, qc: Qc, chain: seq<BlockInfo>)
    requires Tidy(s) && !s.finished && Decides(AddQc(s, qc), qc, chain) && s.committed.height <= s.cfg.endHeight
    ensures var bs, ledger := Batch(ProcessQc(s, qc).out), Real(s.cfg.endHeight, s.committed, chain);
            |ledger| <= |bs| && bs[..|ledger|] == ledger
  {
    hide Tidy, Decides, TryCommit, EnterRound, Real, Batch, Ends, AddQc;
    var t := AddQc(s, qc);
    AddQcTidy(s, qc);
    CommitsChain(t, qc, chain);
    var r := TryCommit(t, qc);
    var e := EnterRound(r.s, qc.round + 1, None);
    BatchAppend(r.out, e.out);
    Prefixed(Batch(r.out), Batch(e.out));
  }

  lemma AddQcTidy(s: State, qc: Qc)
    requires Tidy(s)
    ensures Tidy(AddQc(s, qc)) && AddQc(s, qc).cfg == s.cfg && AddQc(s, qc).committed == s.committed && AddQc(s, qc).finished == s.finished
  {
  }

  lemma Prefixed(a: seq<BlockInfo>, b: seq<BlockInfo>)
    ensures (a + b)[..|a|] == a && a[..|a|] == a
  {
  }
}
