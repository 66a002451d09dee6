/** Certificate heights. Votes do not sign the height, so a certificate may state a wrong one; an engine
    that meets only true heights stores, sends and proves only true heights. */
module TrueHeights {
  import opened Options
  import opened Committee
  import opened Certificates
  import opened EngineSpec
  import opened Protocol
  import Bitmap

  predicate TrueQc(cfg: Config, q: Qc) {
    q.height == HeightOf(cfg, q.block)
  }

  /** Both certificates of a finality proof state their block's true height. */
  predicate HeightsTrue(cfg: Config, proof: CommitProof) {
    TrueQc(cfg, proof.qc) && TrueQc(cfg, proof.childQc)
  }

  predicate TrueQcs(cfg: Config, qcs: map<Hash, Qc>) {
    forall h :: h in qcs ==> TrueQc(cfg, qcs[h])
  }

  predicate TrueVotes(cfg: Config, votes: map<(nat, Hash), VoteSet>) {
    forall k :: k in votes ==> votes[k].height == HeightOf(cfg, k.1)
  }

  predicate TrueTimeouts(cfg: Config, timeouts: map<nat, TimeoutSet>) {
    forall r :: r in timeouts ==> TrueQc(cfg, timeouts[r].highQc)
  }

  /** Everything an engine may build a certificate or a proof from. */
  predicate TrueState(s: State) {
    && TrueQcs(s.cfg, s.qcs)
    && TrueQc(s.cfg, s.highQc)
    && (s.blockedCommit.Some? ==> TrueQc(s.cfg, s.blockedCommit.value))
    && TrueVotes(s.cfg, s.votes)
    && TrueTimeouts(s.cfg, s.timeouts)
  }

  function ProofOf(a: Action): Option<CommitProof> {
    match a
    case Commit(_, proof) => Some(proof)
    case EpochEnd(_, proof) => Some(proof)
    case _ => None
  }

  predicate TrueAction(cfg: Config, a: Action) {
    ProofOf(a).Some? ==> HeightsTrue(cfg, ProofOf(a).value)
  }

  predicate TrueOut(cfg: Config, out: seq<Action>) {
    forall a :: a in out ==> TrueAction(cfg, a)
  }

  predicate StaysTrue(s: State, r: Result) {
    TrueState(r.s) && r.s.cfg == s.cfg && TrueOut(s.cfg, r.out)
  }

  /** Every certificate that verifies and every vote in the input states a true height. */
  predicate TrueEvent(cfg: Config, ev: Event) {
    match ev
    case EvMessage(ProposalM(p)) => TrueIfValid(cfg, p.qc) && (p.tc.Some? ==> TrueIfValid(cfg, p.tc.value.highQc))
    case EvMessage(VoteM(v)) => v.height == HeightOf(cfg, v.block)
    case EvMessage(TimeoutM(t)) => TrueIfValid(cfg, t.highQc) && (t.lastTc.Some? ==> TrueIfValid(cfg, t.lastTc.value.highQc))
    case _ => true
  }

  predicate TrueIfValid(cfg: Config, q: Qc) {
    q.Verify(cfg.Scope()) ==> TrueQc(cfg, q)
  }

  // ---- every handler

  lemma Compose(s: State, a: Result, b: Result)
    requires StaysTrue(s, a) && StaysTrue(a.s, b)
    ensures StaysTrue(s, b.After(a.out))
  {
    hide TrueState, TrueAction;
  }

  lemma Plain(s: State, r: Result)
    requires TrueState(r.s) && r.s.cfg == s.cfg && forall a :: a in r.out ==> ProofOf(a).None?
    ensures StaysTrue(s, r)
  {
    hide TrueState;
  }

  lemma BlockOnTrue(s: State, qc: Qc, missing: Hash)
    requires TrueState(s) && TrueQc(s.cfg, qc)
    ensures StaysTrue(s, BlockOn(s, qc, missing))
  {
    hide TrueQcs, TrueVotes, TrueTimeouts, TrueQc;
  }

  lemma CommitChainTrue(s: State, qc: Qc, b: BlockInfo, p: BlockInfo, pqc: Qc, chain: seq<BlockInfo>)
    requires TrueState(s) && TrueQc(s.cfg, qc) && TrueQc(s.cfg, pqc)
    ensures StaysTrue(s, CommitChain(s, qc, b, p, pqc, chain))
  {
    hide TrueQcs, TrueVotes, TrueTimeouts, TrueQc, NilWalk, RealBlocks;
  }

  lemma TryCommitTrue(s: State, qc: Qc)
    requires TrueState(s) && TrueQc(s.cfg, qc)
    ensures StaysTrue(s, TryCommit(s, qc))
  {
    hide CommitChain, BlockOn, WalkBack, TrueVotes, TrueTimeouts, TrueQc, TrueOut;
    Plain(s, Result(s, []));
    if !s.finished {
      if qc.block !in s.blocks {
        BlockOnTrue(s, qc, qc.block);
      } else {
        var b := s.blocks[qc.block];
        BlockOnTrue(s, qc, b.parent);
        if b.parent in s.blocks && s.blocks[b.parent].hash in s.qcs {
          var p := s.blocks[b.parent];
          var w := WalkBack(s.blocks, s.committed, p);
          if w.Missing? {
            BlockOnTrue(s, qc, w.h);
          } else if w.Path? {
            CommitChainTrue(s, qc, b, p, s.qcs[p.hash], w.chain);
          }
        }
      }
    }
  }

  lemma OpenRoundTrue(s: State)
    requires TrueState(s)
    ensures StaysTrue(s, OpenRound(s))
  {
    hide TrueQc;
    Plain(s, OpenRound(s));
  }

  lemma EnterRoundTrue(s: State, round: nat, tc: Option<Tc>)
    requires TrueState(s)
    ensures StaysTrue(s, EnterRound(s, round, tc))
  {
    hide TryCommit, OpenRound, TrueQcs, TrueVotes, TrueTimeouts, TrueQc, TrueOut;
    Plain(s, Result(s, []));
    if round > s.round {
      var t := s.(round := round, entryTc := tc, requested := {});
      Plain(t, Result(t, []));
      if t.blockedCommit.Some? {
        TryCommitTrue(t, t.blockedCommit.value);
      }
      var r := if t.blockedCommit.Some? then TryCommit(t, t.blockedCommit.value) else Result(t, []);
      if !r.s.finished {
        OpenRoundTrue(r.s);
        Compose(t, r, OpenRound(r.s));
      }
    }
  }

  lemma ProcessQcTrue(s: State, qc: Qc)
    requires TrueState(s) && TrueQc(s.cfg, qc)
    ensures StaysTrue(s, ProcessQc(s, qc))
  {
    hide TryCommit, EnterRound, TrueQc, TrueVotes, TrueTimeouts, TrueOut;
    var t := AddQc(s, qc);
    assert TrueState(t);
    TryCommitTrue(t, qc);
    var r := TryCommit(t, qc);
    if qc.round >= r.s.round {
      EnterRoundTrue(r.s, qc.round + 1, None);
      Compose(t, r, EnterRound(r.s, qc.round + 1, None));
    }
  }

  lemma ProcessTcTrue(s: State, tc: Tc)
    requires TrueState(s) && TrueQc(s.cfg, tc.highQc)
    ensures StaysTrue(s, ProcessTc(s, tc))
  {
    hide ProcessQc, EnterRound, TrueState, TrueQc, TrueOut;
    ProcessQcTrue(s, tc.highQc);
    var r := ProcessQc(s, tc.highQc);
    if tc.round >= r.s.round {
      EnterRoundTrue(r.s, tc.round + 1, Some(tc));
      Compose(s, r, EnterRound(r.s, tc.round + 1, Some(tc)));
    }
  }

  lemma OnValidatedTrue(s: State, block: Hash, valid: bool)
    requires TrueState(s)
    ensures StaysTrue(s, OnValidated(s, block, valid))
  {
    hide TrueQcs, TrueVotes, TrueTimeouts, TrueQc, SafeToVote;
    Plain(s, OnValidated(s, block, valid));
  }

  lemma AbsorbTrue(s: State, p: Proposal)
    requires TrueState(s) && TrueQc(s.cfg, p.qc) && (p.tc.Some? ==> TrueQc(s.cfg, p.tc.value.highQc))
    ensures StaysTrue(s, Absorb(s, p))
  {
    hide ProcessQc, ProcessTc, TrueQcs, TrueVotes, TrueTimeouts, TrueQc, TrueOut;
    var b := p.block;
    var t := if b.hash !in s.blocks && b.height > s.committed.height
             then s.(blocks := s.blocks[b.hash := b]) else s;
    ProcessQcTrue(t, p.qc);
    var r := ProcessQc(t, p.qc);
    if p.tc.Some? {
      ProcessTcTrue(r.s, p.tc.value);
      Compose(t, r, ProcessTc(r.s, p.tc.value));
    }
  }

  lemma OnProposalTrue(s: State, p: Proposal)
    requires TrueState(s) && TrueEvent(s.cfg, EvMessage(ProposalM(p)))
    ensures StaysTrue(s, OnProposal(s, p))
  {
    hide Absorb, OnValidated, SafeToVote, TrueQcs, TrueVotes, TrueTimeouts, TrueQc, Qc.Verify;
    Plain(s, Result(s, []));
    if WellFormed(s.cfg, p) {
      AbsorbTrue(s, p);
      var r := Absorb(s, p);
      var t := r.s.(pending := r.s.pending[p.block.hash := p]);
      OnValidatedTrue(t, p.block.hash, true);
      Compose(s, Result(t, r.out), OnValidated(t, p.block.hash, true));
      Plain(r.s, Result(t, [Validate(p)]));
      Compose(s, r, Result(t, [Validate(p)]));
    }
  }

  lemma CountTimeoutTrue(s: State, t: Timeout)
    requires TrueState(s) && TrueQc(s.cfg, t.highQc)
    ensures StaysTrue(s, CountTimeout(s, t))
  {
    hide ProcessTc, Entries, ValidatorSet.WeightOf, ValidatorSet.IsQuorum, ValidatorSet.IsOneThird, Sorted,
      TrueQcs, TrueVotes, TrueQc;
    Plain(s, Result(s, []));
    var ts := if t.round in s.timeouts then s.timeouts[t.round] else TimeoutSet(map[], t.highQc, false);
    if !ts.done {
      var high := if t.highQc.round > ts.highQc.round then t.highQc else ts.highQc;
      var entries := ts.entries[t.signer := Report(t.highQc.round, t.sig)];
      var signers := Sorted(entries.Keys, s.cfg.validators.Len());
      var quorum := s.cfg.validators.IsQuorum(s.cfg.validators.WeightOf(signers));
      var u := s.(timeouts := s.timeouts[t.round := TimeoutSet(entries, high, quorum)]);
      assert TrueState(u);
      hide TrueTimeouts;
      if quorum {
        ProcessTcTrue(u, Tc(s.cfg.epoch, t.round, high, Entries(entries, signers)));
      } else {
        Plain(s, LocalTimeout(u));
        Plain(s, Result(u, []));
      }
    }
  }

  lemma OnTimeoutMsgTrue(s: State, t: Timeout)
    requires TrueState(s) && TrueEvent(s.cfg, EvMessage(TimeoutM(t)))
    ensures StaysTrue(s, OnTimeoutMsg(s, t))
  {
    hide ProcessTc, ProcessQc, CountTimeout, TrueState, TrueQc, TrueOut, Qc.Verify;
    Plain(s, Result(s, []));
    if AcceptsTimeout(s, t) {
      var useTc := && t.lastTc.Some?
                   && t.lastTc.value.round + 1 == t.round
                   && t.lastTc.value.round >= s.round
                   && t.lastTc.value.Verify(s.cfg.Scope());
      var r := if useTc then ProcessTc(s, t.lastTc.value) else Result(s, []);
      if useTc {
        ProcessTcTrue(s, t.lastTc.value);
      }
      var q := ProcessQc(r.s, t.highQc);
      ProcessQcTrue(r.s, t.highQc);
      Compose(s, r, q);
      CountTimeoutTrue(q.s, t);
      Compose(s, q.After(r.out), CountTimeout(q.s, t));
    }
  }

  lemma AddVoteHeight(v: ValidatorSet, msg: Msg, vs: VoteSet, height: nat, signer: nat, sig: Sig)
    ensures AddVote(v, msg, vs, height, signer, sig).votes.height == vs.height
  {
    hide ValidatorSet.WeightOf, ValidatorSet.IsQuorum, Sorted, VerifyAggregate, SigsOf, VerifiedVotes;
  }

  lemma OnVoteTrue(s: State, v: Vote)
    requires TrueState(s) && v.height == HeightOf(s.cfg, v.block)
    ensures StaysTrue(s, OnVote(s, v))
  {
    hide ProcessQc, AddVote, Bitmap.Encode, TrueQcs, TrueTimeouts;
    Plain(s, Result(s, []));
    var key := (v.round, v.block);
    var vs := if key in s.votes then s.votes[key] else VoteSet(v.height, map[], map[], false);
    var msg := VoteMsg(s.cfg.chain, s.cfg.epoch, v.round, v.block);
    var tally := AddVote(s.cfg.validators, msg, vs, v.height, v.signer, v.sig);
    AddVoteHeight(s.cfg.validators, msg, vs, v.height, v.signer, v.sig);
    var t := s.(votes := s.votes[key := tally.votes]);
    Plain(s, Result(t, []));
    if tally.formed.Some? {
      ProcessQcTrue(t, Qc(s.cfg.epoch, v.round, v.block, tally.votes.height,
                          Bitmap.Encode(tally.formed.value.signers, s.cfg.validators.Len()),
                          Some(tally.formed.value.agg)));
    }
  }

  /** An engine that meets only true heights keeps only true heights, and the proofs it emits state them. */
  lemma HandleTrue(s: State, ev: Event)
    requires TrueState(s) && TrueEvent(s.cfg, ev)
    ensures StaysTrue(s, Handle(s, ev))
  {
    hide OnProposal, OnVote, OnTimeoutMsg, TryCommit, EnterRound, TrueQcs, TrueVotes, TrueTimeouts, TrueQc, TrueIfValid;
    Plain(s, Result(s, []));
    match ev
    case EvStart => EnterRoundTrue(s, s.round + 1, None);
    case EvMessage(m) =>
      match m {
        case ProposalM(p) => OnProposalTrue(s, p);
        case VoteM(v) => OnVoteTrue(s, v);
        case TimeoutM(t) => OnTimeoutMsgTrue(s, t);
      }
    case EvValidated(h, valid) => OnValidatedTrue(s, h, valid);
    case EvProposed(b, qc, tc, payload) => Plain(s, OnProposed(s, b, qc, tc, payload));
    case EvTimeout(round) => Plain(s, LocalTimeout(s));
    case EvBlock(b) =>
      var t := s.(requested := s.requested - {b.hash},
                  blocks := if b.height > s.committed.height then s.blocks[b.hash := b] else s.blocks);
      Plain(s, Result(t, []));
      if t.blockedCommit.Some? {
        TryCommitTrue(t, t.blockedCommit.value);
      }
  }

  // ---- disk

  predicate TrueDisk(cfg: Config, p: Persisted) {
    TrueQc(cfg, p.committedQc) && TrueQc(cfg, p.highQc)
  }

  lemma NewTrue(cfg: Config)
    ensures TrueState(New(cfg)) && TrueDisk(cfg, Persist(New(cfg)))
  {
  }

  lemma PersistTrue(s: State)
    requires TrueState(s)
    ensures TrueDisk(s.cfg, Persist(s))
  {
  }

  lemma ResumeTrue(cfg: Config, p: Persisted)
    requires TrueDisk(cfg, p)
    ensures TrueState(Resume(cfg, p))
  {
    NewTrue(cfg);
  }
}
