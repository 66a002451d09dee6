/** What an engine signs once its epoch has ended: nothing in any later call, and in the call that ends
    the epoch exactly the timeouts it joins. */
module EpochSilence {
  import opened Options
  import opened Committee
  import opened Certificates
  import opened EngineSpec
  import opened EngineSafety
  import Bitmap

  /** A finished engine stays finished and signs nothing: it returns no action at all. */
  lemma FinishedSilent(s: State, ev: Event)
    requires s.finished
    ensures Handle(s, ev).out == [] && Handle(s, ev).s.finished
  {
  }

  // ---- certificates alone sign nothing

  lemma JoinNone(a: seq<Action>, b: seq<Action>)
    requires NoBallots(a) && NoBallots(b)
    ensures NoBallots(a + b)
  {
  }

  lemma TryCommitNone(s: State, qc: Qc)
    ensures NoBallots(TryCommit(s, qc).out)
  {
    hide WalkBack, NilWalk, RealBlocks;
  }

  lemma EnterRoundNone(s: State, round: nat, tc: Option<Tc>)
    ensures NoBallots(EnterRound(s, round, tc).out)
  {
    hide TryCommit, Prune;
    if round > s.round {
      var t := s.(round := round, entryTc := tc, requested := {});
      var r := if t.blockedCommit.Some? then TryCommit(t, t.blockedCommit.value) else Result(t, []);
      if t.blockedCommit.Some? {
        TryCommitNone(t, t.blockedCommit.value);
      }
      JoinNone(r.out, OpenRound(r.s).out);
    }
  }

  lemma ProcessQcNone(s: State, qc: Qc)
    ensures NoBallots(ProcessQc(s, qc).out)
  {
    hide TryCommit, EnterRound;
    var r := TryCommit(AddQc(s, qc), qc);
    TryCommitNone(AddQc(s, qc), qc);
    EnterRoundNone(r.s, qc.round + 1, None);
    JoinNone(r.out, EnterRound(r.s, qc.round + 1, None).out);
  }

  lemma ProcessTcNone(s: State, tc: Tc)
    ensures NoBallots(ProcessTc(s, tc).out)
  {
    hide ProcessQc, EnterRound;
    var r := ProcessQc(s, tc.highQc);
    ProcessQcNone(s, tc.highQc);
    EnterRoundNone(r.s, tc.round + 1, Some(tc));
    JoinNone(r.out, EnterRound(r.s, tc.round + 1, Some(tc)).out);
  }

  lemma AbsorbNone(s: State, p: Proposal)
    ensures NoBallots(Absorb(s, p).out)
  {
    hide ProcessQc, ProcessTc;
    var b := p.block;
    var t := if b.hash !in s.blocks && b.height > s.committed.height
             then s.(blocks := s.blocks[b.hash := b]) else s;
    var r := ProcessQc(t, p.qc);
    ProcessQcNone(t, p.qc);
    if p.tc.Some? {
      ProcessTcNone(r.s, p.tc.value);
      JoinNone(r.out, ProcessTc(r.s, p.tc.value).out);
    }
  }

  // ---- the call that ends the epoch

  /** State and actions once the certificates of an accepted timeout were processed. */
  function AfterCerts(s: State, t: Timeout): Result {
    var useTc := && t.lastTc.Some?
                 && t.lastTc.value.round + 1 == t.round
                 && t.lastTc.value.round >= s.round
                 && t.lastTc.value.Verify(s.cfg.Scope());
    var r := if useTc then ProcessTc(s, t.lastTc.value) else Result(s, []);
    ProcessQc(r.s, t.highQc).After(r.out)
  }

  function Counted(s: State, t: Timeout): nat {
    var entries := if t.round in s.timeouts then s.timeouts[t.round].entries else map[];
    s.cfg.validators.WeightOf(Sorted(entries.Keys + {t.signer}, s.cfg.validators.Len()))
  }

  /** The engine joins the others in giving up on its round: more than a third have, not yet a quorum, and
      it has not. Whether it has finished plays no part. */
  predicate Joins(s: State, t: Timeout) {
    && s.cfg.me != []
    && !(t.round in s.timeouts && s.timeouts[t.round].done)
    && !s.cfg.validators.IsQuorum(Counted(s, t))
    && s.cfg.validators.IsOneThird(Counted(s, t))
    && t.round == s.round
    && t.round !in s.timedOut
  }

  lemma LocalTimeoutSigns(s: State)
    ensures Ballots(LocalTimeout(s).out) != {} <==> s.cfg.me != []
    ensures forall x :: x in Ballots(LocalTimeout(s).out) ==> x.Signed? && x.msg.TimeoutMsg?
  {
    var out := LocalTimeout(s).out;
    if s.cfg.me != [] {
      assert out[1] in out && IsBallot(out[1]);
      assert BallotSig(out[1]) in Ballots(out);
    }
  }

  lemma CountTimeoutSigns(s: State, t: Timeout)
    ensures Ballots(CountTimeout(s, t).out) != {} <==> Joins(s, t)
    ensures forall x :: x in Ballots(CountTimeout(s, t).out) ==> x.Signed? && x.msg.TimeoutMsg?
    ensures Joins(s, t) ==> CountTimeout(s, t).s.finished == s.finished
  {
    hide ProcessTc, LocalTimeout, Entries, ValidatorSet.WeightOf, ValidatorSet.IsQuorum, ValidatorSet.IsOneThird, Sorted;
    var ts := if t.round in s.timeouts then s.timeouts[t.round] else TimeoutSet(map[], t.highQc, false);
    var high := if t.highQc.round > ts.highQc.round then t.highQc else ts.highQc;
    var entries := ts.entries[t.signer := Report(t.highQc.round, t.sig)];
    assert entries.Keys == ts.entries.Keys + {t.signer};
    var signers := Sorted(entries.Keys, s.cfg.validators.Len());
    var quorum := s.cfg.validators.IsQuorum(s.cfg.validators.WeightOf(signers));
    var u := s.(timeouts := s.timeouts[t.round := TimeoutSet(entries, high, quorum)]);
    NoneSigned([]);
    ProcessTcNone(u, Tc(s.cfg.epoch, t.round, high, Entries(entries, signers)));
    NoneSigned(ProcessTc(u, Tc(s.cfg.epoch, t.round, high, Entries(entries, signers))).out);
    LocalTimeoutSigns(u);
    TimeoutFinishes(u);
  }

  lemma TimeoutFinishes(s: State)
    ensures LocalTimeout(s).s.finished == s.finished
  {
  }

  lemma NoneSigned(out: seq<Action>)
    requires NoBallots(out)
    ensures Ballots(out) == {}
  {
  }

  lemma SignedAfter(a: seq<Action>, b: seq<Action>)
    requires NoBallots(a)
    ensures Ballots(a + b) == Ballots(b)
  {
  }

  lemma TimeoutMsgSigns(s: State, t: Timeout)
    ensures var r := OnTimeoutMsg(s, t);
            && (Ballots(r.out) != {} <==> AcceptsTimeout(s, t) && Joins(AfterCerts(s, t).s, t))
            && (forall x :: x in Ballots(r.out) ==> x.Signed? && x.msg.TimeoutMsg?)
  {
    hide ProcessTc, ProcessQc, CountTimeout, AcceptsTimeout, Joins, Tc.Verify;
    NoneSigned([]);
    if AcceptsTimeout(s, t) {
      if t.lastTc.Some? {
        ProcessTcNone(s, t.lastTc.value);
      }
      var q := AfterCerts(s, t);
      assert NoBallots(q.out) by {
        var useTc := && t.lastTc.Some?
                     && t.lastTc.value.round + 1 == t.round
                     && t.lastTc.value.round >= s.round
                     && t.lastTc.value.Verify(s.cfg.Scope());
        var r := if useTc then ProcessTc(s, t.lastTc.value) else Result(s, []);
        ProcessQcNone(r.s, t.highQc);
        JoinNone(r.out, ProcessQc(r.s, t.highQc).out);
      }
      CountTimeoutSigns(q.s, t);
      SignedAfter(q.out, CountTimeout(q.s, t).out);
    }
  }

  lemma ProposalEnds(s: State, p: Proposal)
    requires OnProposal(s, p).s.finished && !s.finished
    ensures Ballots(OnProposal(s, p).out) == {}
  {
    hide Absorb, WellFormed, SafeToVote, CastVotes;
    NoneSigned([]);
    AbsorbNone(s, p);
    NoneSigned(Absorb(s, p).out);
  }

  lemma VoteNone(s: State, v: Vote)
    ensures Ballots(OnVote(s, v).out) == {}
  {
    hide ProcessQc, AddVote, Bitmap.Encode;
    NoneSigned([]);
    var key := (v.round, v.block);
    var vs := if key in s.votes then s.votes[key] else VoteSet(v.height, map[], map[], false);
    var tally := AddVote(s.cfg.validators, VoteMsg(s.cfg.chain, s.cfg.epoch, v.round, v.block),
                         vs, v.height, v.signer, v.sig);
    if tally.formed.Some? {
      var t := s.(votes := s.votes[key := tally.votes]);
      var q := Qc(s.cfg.epoch, v.round, v.block, tally.votes.height,
                  Bitmap.Encode(tally.formed.value.signers, s.cfg.validators.Len()), Some(tally.formed.value.agg));
      ProcessQcNone(t, q);
      NoneSigned(ProcessQc(t, q).out);
    }
  }

  /** The call that ends an epoch signs nothing, with one exception: a timeout message whose certificates
      end the epoch and which then tips the engine into giving up on its round. Then it signs timeouts,
      never votes. */
  lemma EndingSigns(s: State, ev: Event)
    requires !s.finished && Handle(s, ev).s.finished
    ensures var r := Handle(s, ev);
            && (Ballots(r.out) != {} <==>
                  && ev.EvMessage? && ev.m.TimeoutM? && ev.m.t.epoch == s.cfg.epoch
                  && AcceptsTimeout(s, ev.m.t) && Joins(AfterCerts(s, ev.m.t).s, ev.m.t))
            && (forall x :: x in Ballots(r.out) ==> x.Signed? && x.msg.TimeoutMsg?)
  {
    hide OnProposal, OnVote, OnTimeoutMsg, TryCommit, EnterRound, Joins, AcceptsTimeout, AfterCerts, CastVotes, SafeToVote;
    NoneSigned([]);
    match ev
    case EvStart =>
      EnterRoundNone(s, s.round + 1, None);
      NoneSigned(Handle(s, ev).out);
    case EvMessage(m) =>
      match m {
        case ProposalM(p) => ProposalEnds(s, p);
        case VoteM(v) => VoteNone(s, v);
        case TimeoutM(t) => TimeoutMsgSigns(s, t);
      }
    case EvValidated(h, valid) =>
    case EvProposed(b, qc, tc, payload) =>
    case EvTimeout(round) => TimeoutFinishes(s);
    case EvBlock(b) =>
      var t := s.(requested := s.requested - {b.hash},
                  blocks := if b.height > s.committed.height then s.blocks[b.hash := b] else s.blocks);
      if t.blockedCommit.Some? {
        TryCommitNone(t, t.blockedCommit.value);
        NoneSigned(TryCommit(t, t.blockedCommit.value).out);
      }
  }
}
