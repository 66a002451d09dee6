/** Whose proposals an engine sends: those of the rounds its own members lead, signed by them. */
module OwnProposals {
  import opened Options
  import opened Committee
  import opened Certificates
  import opened EngineSpec
  import opened RoundProgress
  import opened Retention
  import Bitmap

  predicate Own(cfg: Config, a: Action) {
    a.Broadcast? && a.m.ProposalM? ==>
      var p := a.m.p;
      && p.epoch == cfg.epoch && p.proposer in cfg.me && p.proposer == cfg.validators.Leader(p.block.round)
      && VerifySig(p.proposer, ProposalMsg(cfg.chain, cfg.epoch, p.block.round, p.block.hash, p.payload), p.sig)
  }

  predicate AllOwn(cfg: Config, out: seq<Action>) {
    forall i :: 0 <= i < |out| ==> Own(cfg, out[i])
  }

  lemma OwnIs(cfg: Config, block: BlockInfo, qc: Qc, tc: Option<Tc>, payload: seq<nat>)
    requires cfg.Leads(block.round)
    ensures Own(cfg, OwnProposal(cfg, block, qc, tc, payload))
  {
  }

  lemma Joined(cfg: Config, a: seq<Action>, b: seq<Action>)
    requires AllOwn(cfg, a) && AllOwn(cfg, b)
    ensures AllOwn(cfg, a + b)
  {
  }

  lemma CommitOwn(s: State, qc: Qc)
    ensures AllOwn(s.cfg, TryCommit(s, qc).out)
  {
    hide WalkBack, ProofFor, RealBlocks;
  }

  lemma OpenOwn(s: State)
    ensures AllOwn(s.cfg, OpenRound(s).out)
  {
    PruneTouches(s);
    hide Prune, OwnProposal, Own;
    var u := Prune(s);
    var qc := u.highQc;
    var b := BlockInfo(Nil(u.cfg.epoch, qc.block, u.round), qc.block, u.round, qc.height + 1);
    if u.cfg.Leads(u.round) {
      OwnIs(u.cfg, b, qc, u.entryTc, []);
    }
    NotProposal(u.cfg, ScheduleTimeout(u.round));
    NotProposal(u.cfg, Propose(u.round, qc, u.entryTc));
  }

  lemma NotProposal(cfg: Config, a: Action)
    requires !a.Broadcast?
    ensures Own(cfg, a)
  {
  }

  lemma EnterOwn(s: State, round: nat, tc: Option<Tc>)
    ensures AllOwn(s.cfg, EnterRound(s, round, tc).out)
  {
    hide TryCommit, OpenRound, Own;
    if round > s.round {
      var t := s.(round := round, entryTc := tc, requested := {});
      var r := if t.blockedCommit.Some? then TryCommit(t, t.blockedCommit.value) else Result(t, []);
      if t.blockedCommit.Some? {
        CommitOwn(t, t.blockedCommit.value);
        CommitFewer(t, t.blockedCommit.value);
      }
      OpenOwn(r.s);
      Joined(s.cfg, r.out, OpenRound(r.s).out);
    }
  }

  lemma QcOwn(s: State, qc: Qc)
    ensures AllOwn(s.cfg, ProcessQc(s, qc).out)
  {
    hide TryCommit, EnterRound, Own;
    var t := AddQc(s, qc);
    CommitOwn(t, qc);
    CommitFewer(t, qc);
    var r := TryCommit(t, qc);
    EnterOwn(r.s, qc.round + 1, None);
    Joined(s.cfg, r.out, EnterRound(r.s, qc.round + 1, None).out);
  }

  lemma TcOwn(s: State, tc: Tc)
    ensures AllOwn(s.cfg, ProcessTc(s, tc).out)
  {
    hide ProcessQc, EnterRound, Own;
    QcOwn(s, tc.highQc);
    QcFewer(s, tc.highQc);
    var r := ProcessQc(s, tc.highQc);
    EnterOwn(r.s, tc.round + 1, Some(tc));
    Joined(s.cfg, r.out, EnterRound(r.s, tc.round + 1, Some(tc)).out);
  }

  lemma AbsorbOwn(s: State, p: Proposal)
    ensures AllOwn(s.cfg, Absorb(s, p).out)
  {
    hide ProcessQc, ProcessTc, Own;
    var b := p.block;
    var t := if b.hash !in s.blocks && b.height > s.committed.height
             then s.(blocks := s.blocks[b.hash := b]) else s;
    QcOwn(t, p.qc);
    QcFewer(t, p.qc);
    var r := ProcessQc(t, p.qc);
    if p.tc.Some? {
      TcOwn(r.s, p.tc.value);
      Joined(s.cfg, r.out, ProcessTc(r.s, p.tc.value).out);
    }
  }

  lemma ValidatedOwn(s: State, h: Hash, valid: bool)
    ensures AllOwn(s.cfg, OnValidated(s, h, valid).out)
  {
    hide SafeToVote;
  }

  lemma ProposalOwn(s: State, p: Proposal)
    ensures AllOwn(s.cfg, OnProposal(s, p).out)
  {
    hide Absorb, WellFormed, SafeToVote, OnValidated, Own;
    AbsorbOwn(s, p);
    AbsorbFewer(s, p);
    var r := Absorb(s, p);
    var t := r.s.(pending := r.s.pending[p.block.hash := p]);
    ValidatedOwn(t, p.block.hash, true);
    Joined(s.cfg, r.out, OnValidated(t, p.block.hash, true).out);
    NotProposal(s.cfg, Validate(p));
    Joined(s.cfg, r.out, [Validate(p)]);
  }

  lemma VoteOwn(s: State, v: Vote)
    ensures AllOwn(s.cfg, OnVote(s, v).out)
  {
    hide AddVote, ProcessQc, Bitmap.Encode, Own;
    var key := (v.round, v.block);
    var vs := if key in s.votes then s.votes[key] else VoteSet(v.height, map[], map[], false);
    var tally := AddVote(s.cfg.validators, VoteMsg(s.cfg.chain, s.cfg.epoch, v.round, v.block),
                         vs, v.height, v.signer, v.sig);
    var t := s.(votes := s.votes[key := tally.votes]);
    if tally.formed.Some? {
      QcOwn(t, Qc(s.cfg.epoch, v.round, v.block, tally.votes.height,
                  Bitmap.Encode(tally.formed.value.signers, s.cfg.validators.Len()), Some(tally.formed.value.agg)));
    }
  }

  lemma LocalOwn(s: State)
    ensures AllOwn(s.cfg, LocalTimeout(s).out)
  {
  }

  lemma CountOwn(s: State, t: Timeout)
    ensures AllOwn(s.cfg, CountTimeout(s, t).out)
  {
    hide ProcessTc, LocalTimeout, Entries, ValidatorSet.WeightOf, ValidatorSet.IsQuorum, ValidatorSet.IsOneThird, Sorted, Own;
    var ts := if t.round in s.timeouts then s.timeouts[t.round] else TimeoutSet(map[], t.highQc, false);
    var high := if t.highQc.round > ts.highQc.round then t.highQc else ts.highQc;
    var entries := ts.entries[t.signer := Report(t.highQc.round, t.sig)];
    var signers := Sorted(entries.Keys, s.cfg.validators.Len());
    var quorum := s.cfg.validators.IsQuorum(s.cfg.validators.WeightOf(signers));
    var u := s.(timeouts := s.timeouts[t.round := TimeoutSet(entries, high, quorum)]);
    TcOwn(u, Tc(s.cfg.epoch, t.round, high, Entries(entries, signers)));
    LocalOwn(u);
  }

  lemma TimeoutOwn(s: State, t: Timeout)
    ensures AllOwn(s.cfg, OnTimeoutMsg(s, t).out)
  {
    hide ProcessTc, ProcessQc, CountTimeout, AcceptsTimeout, Tc.Verify, Own;
    if AcceptsTimeout(s, t) {
      var useTc := && t.lastTc.Some?
                   && t.lastTc.value.round + 1 == t.round
                   && t.lastTc.value.round >= s.round
                   && t.lastTc.value.Verify(s.cfg.Scope());
      var r := if useTc then ProcessTc(s, t.lastTc.value) else Result(s, []);
      if useTc {
        TcOwn(s, t.lastTc.value);
        TcFewer(s, t.lastTc.value);
      }
      var q := ProcessQc(r.s, t.highQc);
      QcOwn(r.s, t.highQc);
      QcFewer(r.s, t.highQc);
      CountOwn(q.s, t);
      Joined(s.cfg, r.out, q.out);
      Joined(s.cfg, r.out + q.out, CountTimeout(q.s, t).out);
    }
  }

  /** Every proposal an engine sends, in whatever call, is for a round that one of its members leads and is signed
      by that member. */
  lemma ProposesAsMember(s: State, ev: Event)
    ensures AllOwn(s.cfg, Handle(s, ev).out)
  {
    hide OnProposal, OnVote, OnTimeoutMsg, TryCommit, EnterRound, OnValidated, LocalTimeout, OwnProposal, Own;
    match ev
    case EvStart => EnterOwn(s, s.round + 1, None);
    case EvMessage(m) =>
      match m {
        case ProposalM(p) => ProposalOwn(s, p);
        case VoteM(v) => VoteOwn(s, v);
        case TimeoutM(t) => TimeoutOwn(s, t);
      }
    case EvValidated(h, valid) => ValidatedOwn(s, h, valid);
    case EvProposed(b, qc, tc, payload) =>
      if s.cfg.Leads(b.round) {
        OwnIs(s.cfg, b, qc, tc, payload);
      }
    case EvTimeout(round) => LocalOwn(s);
    case EvBlock(b) =>
      var t := s.(requested := s.requested - {b.hash},
                  blocks := if b.height > s.committed.height then s.blocks[b.hash := b] else s.blocks);
      if t.blockedCommit.Some? {
        CommitOwn(t, t.blockedCommit.value);
      }
  }
}
