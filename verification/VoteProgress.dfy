/** Who votes for what, and what becomes of the votes: the exact voting condition, and a round with a correct
    leader from its proposal to the certificate of its block. */
module VoteProgress {
  import opened Options
  import opened Committee
  import opened Certificates
  import opened EngineSpec
  import opened EngineBehaviour
  import opened RoundProgress
  import opened Retention
  import L = LazyVotes
  import Bitmap

  // ---- the vote rule

  /** The block extends one certified in the round before, or everyone that gave up on the round before
      reported a certificate no newer than the parent's. */
  ghost predicate MayVote(p: Proposal) {
    || p.block.round == p.qc.round + 1
    || (&& p.tc.Some? && p.block.round == p.tc.value.round + 1
        && forall i :: 0 <= i < |p.tc.value.entries| ==> p.tc.value.entries[i].qcRound <= p.qc.round)
  }

  lemma MayVoteExactly(p: Proposal)
    ensures SafeToVote(p) <==> MayVote(p)
  {
    if p.tc.Some? {
      var es := p.tc.value.entries;
      var m := MaxQcRound(es);
      if es == [] {
        assert m == 0;
      } else {
        var i :| 0 <= i < |es| && es[i].qcRound == m;
      }
    }
  }

  function BallotOf(cfg: Config, b: BlockInfo, signer: nat): Vote {
    Vote(cfg.epoch, b.round, b.hash, b.height, signer, Signed(signer, VoteMsg(cfg.chain, cfg.epoch, b.round, b.hash)))
  }

  /** Every member the engine signs for votes for `b`, to the leader of the next round. */
  ghost predicate VotesFor(cfg: Config, b: BlockInfo, out: seq<Action>) {
    forall i :: 0 <= i < |cfg.me| ==> SendTo(cfg.validators.Leader(b.round + 1), VoteM(BallotOf(cfg, b, cfg.me[i]))) in out
  }

  lemma CastVotesFor(s: State, p: Proposal)
    ensures VotesFor(s.cfg, p.block, CastVotes(s, p)) && |CastVotes(s, p)| == |s.cfg.me|
  {
    var out := CastVotes(s, p);
    forall i | 0 <= i < |s.cfg.me|
      ensures SendTo(s.cfg.validators.Leader(p.block.round + 1), VoteM(BallotOf(s.cfg, p.block, s.cfg.me[i]))) in out
    {
      assert out[i] == SendTo(s.cfg.validators.Leader(p.block.round + 1), VoteM(BallotOf(s.cfg, p.block, s.cfg.me[i])));
    }
  }

  /** An engine votes for a validated block exactly when it waits for it, is in its round, has not signed in that
      round, is not finished and the rule allows it; otherwise it does nothing. */
  lemma VotesExactly(s: State, h: Hash, valid: bool)
    ensures var r := OnValidated(s, h, valid);
            var votes := h in s.pending && valid && !s.finished && s.cfg.me != []
                         && s.pending[h].block.round == s.round > s.lastVoted && MayVote(s.pending[h]);
            if votes then VotesFor(s.cfg, s.pending[h].block, r.out) && r.s.lastVoted == s.round && r.out != []
            else r.out == [] && r.s.lastVoted == s.lastVoted
  {
    if h in s.pending {
      MayVoteExactly(s.pending[h]);
      CastVotesFor(s.(pending := s.pending - {h}), s.pending[h]);
    }
    hide SafeToVote, MayVote, CastVotes;
  }

  // ---- a proposal gets its votes

  /** Certificates older than the round change nothing that voting depends on. */
  lemma AbsorbStays(m: State, p: Proposal)
    requires InOrder(m) && p.qc.round < m.round
    requires p.tc.Some? ==> p.tc.value.highQc.round < p.tc.value.round < m.round
    ensures var t := Absorb(m, p).s;
            t.cfg == m.cfg && t.round == m.round && t.lastVoted == m.lastVoted && t.pending == m.pending && InOrder(t)
  {
    hide ProcessQc, ProcessTc;
    var b := p.block;
    var t := if b.hash !in m.blocks && b.height > m.committed.height
             then m.(blocks := m.blocks[b.hash := b]) else m;
    QcGrows(t, p.qc);
    if p.tc.Some? {
      TcGrows(ProcessQc(t, p.qc).s, p.tc.value);
    }
  }

  /** A member in the round of a well-formed, allowed proposal votes for it: at once if it is nil, otherwise as
      soon as the node finds the block valid. */
  ghost predicate Supports(m: State, p: Proposal) {
    var r := Handle(m, EvMessage(ProposalM(p)));
    if p.block.height > m.cfg.endHeight then VotesFor(m.cfg, p.block, r.out) && r.s.lastVoted == p.block.round
    else
      && Validate(p) in r.out
      && var v := Handle(r.s, EvValidated(p.block.hash, true));
         VotesFor(m.cfg, p.block, v.out) && v.s.lastVoted == p.block.round
  }

  lemma WaitingVotes(t: State, p: Proposal)
    requires t.round == p.block.round > t.lastVoted && t.cfg.me != [] && !t.finished && SafeToVote(p)
    ensures var w := t.(pending := t.pending[p.block.hash := p]);
            var v := OnValidated(w, p.block.hash, true);
            VotesFor(t.cfg, p.block, v.out) && v.s.lastVoted == p.block.round
  {
    MayVoteExactly(p);
    hide SafeToVote, MayVote, OnValidated, VotesFor;
    VotesExactly(t.(pending := t.pending[p.block.hash := p]), p.block.hash, true);
  }

  lemma Supported(m: State, p: Proposal)
    requires InOrder(m) && !m.finished && WellFormed(m.cfg, p) && SafeToVote(p)
    requires p.block.round == m.round > m.lastVoted && m.cfg.me != [] && p.block.hash !in m.pending
    requires p.tc.Some? ==> p.tc.value.highQc.round < p.tc.value.round
    requires !OnProposal(m, p).s.finished
    ensures Supports(m, p)
  {
    hide WellFormed, SafeToVote, Absorb, OnValidated, VotesFor;
    WellFormedParts(m.cfg, p);
    AbsorbStays(m, p);
    var r := Absorb(m, p);
    var t := r.s.(pending := r.s.pending[p.block.hash := p]);
    Unfinished(t, p.block.hash);
    WaitingVotes(r.s, p);
    VotesAfter(m.cfg, p.block, r.out, OnValidated(t, p.block.hash, true).out);
    if p.block.height <= m.cfg.endHeight {
      assert OnProposal(m, p) == Result(t, r.out + [Validate(p)]);
    } else {
      assert OnProposal(m, p) == OnValidated(t, p.block.hash, true).After(r.out);
    }
  }

  lemma WellFormedParts(cfg: Config, p: Proposal)
    requires WellFormed(cfg, p)
    ensures p.epoch == cfg.epoch && p.qc.round < p.block.round && (p.tc.Some? ==> p.tc.value.round < p.block.round)
  {
  }

  lemma Unfinished(t: State, h: Hash)
    ensures OnValidated(t, h, true).s.finished == t.finished
  {
    hide CastVotes, SafeToVote;
  }

  lemma VotesAfter(cfg: Config, b: BlockInfo, before: seq<Action>, out: seq<Action>)
    requires VotesFor(cfg, b, out)
    ensures VotesFor(cfg, b, before + out)
  {
  }

  // ---- a round entered by a timeout certificate

  lemma NeverEmpty(cfg: Config, tc: Tc)
    ensures tc.entries == [] ==> !tc.Verify(cfg.Scope())
  {
    if tc.entries == [] {
      L.SortedEmpty(Bitmap.INDEX_RANGE);
      assert Elems(EntrySigners(tc.entries)) == {};
      assert cfg.validators.WeightOf([]) == 0;
    }
  }

  /** A verified timeout certificate: its high QC is older than its round and as new as any report. */
  lemma VerifiedReports(cfg: Config, tc: Tc)
    requires tc.Verify(cfg.Scope())
    ensures tc.highQc.round < tc.round && tc.highQc.round == tc.MaxReported() && tc.highQc.Verify(cfg.Scope())
  {
    NeverEmpty(cfg, tc);
    var es := tc.entries;
    var i :| 0 <= i < |es| && es[i].qcRound == MaxQcRound(es);
  }

  /** A block that the leader's node may build on the high QC of state `l`. */
  predicate Fits(l: State, b: BlockInfo, payload: seq<nat>) {
    && b.round == l.round && b.parent == l.highQc.block && b.height == l.highQc.height + 1
    && (b.height > l.cfg.endHeight ==> b.hash == Nil(l.cfg.epoch, b.parent, b.round) && payload == [])
  }

  /** Every member takes such a proposal of the round's leader as well formed and may vote for it. */
  lemma OwnVotable(cfg: Config, other: Config, l: State, b: BlockInfo, tc: Option<Tc>, payload: seq<nat>)
    requires l.cfg == cfg && other == cfg.(me := other.me) && Fits(l, b, payload) && l.highQc.Verify(cfg.Scope()) && l.highQc.round < l.round
    requires tc.Some? ==> tc.value.round + 1 == l.round && tc.value.Verify(cfg.Scope()) && l.highQc.round >= tc.value.MaxReported()
    requires tc.None? ==> l.highQc.round + 1 == l.round
    ensures var a := OwnProposal(cfg, b, l.highQc, tc, payload);
            && a.Broadcast? && a.m.ProposalM? && a.m.p.block == b && a.m.p.tc == tc
            && WellFormed(other, a.m.p) && SafeToVote(a.m.p)
  {
    hide Qc.Verify, Tc.Verify, WellFormed;
    OwnProposalAccepted(cfg, other, b, l.highQc, tc, payload);
  }

  lemma Proposes(l: State, b: BlockInfo, qc: Qc, tc: Option<Tc>, payload: seq<nat>)
    requires b.round == l.round && l.cfg.Leads(l.round) && !l.finished
    ensures OwnProposal(l.cfg, b, qc, tc, payload) in Handle(l, EvProposed(b, qc, tc, payload)).out
  {
    hide OwnProposal;
  }

  lemma LeaderSupported(l: State, tc: Option<Tc>, m: State, b: BlockInfo, payload: seq<nat>)
    requires Fits(l, b, payload) && l.highQc.Verify(l.cfg.Scope()) && l.highQc.round < l.round && l.cfg.Leads(l.round) && !l.finished
    requires tc.Some? ==> tc.value.round + 1 == l.round && tc.value.Verify(l.cfg.Scope())
    requires tc.Some? ==> tc.value.highQc.round < tc.value.round && l.highQc.round >= tc.value.MaxReported()
    requires tc.None? ==> l.highQc.round + 1 == l.round
    requires m.cfg == l.cfg.(me := m.cfg.me) && InOrder(m) && !m.finished && m.cfg.me != [] && m.round == l.round > m.lastVoted
    requires b.hash !in m.pending && !OnProposal(m, OwnProposal(l.cfg, b, l.highQc, tc, payload).m.p).s.finished
    ensures var a := OwnProposal(l.cfg, b, l.highQc, tc, payload);
            a in Handle(l, EvProposed(b, l.highQc, tc, payload)).out && Supports(m, a.m.p)
  {
    OwnVotable(l.cfg, m.cfg, l, b, tc, payload);
    Proposes(l, b, l.highQc, tc, payload);
    hide Supports, WellFormed, SafeToVote, OwnProposal, Handle, OnProposal, Qc.Verify, Tc.Verify;
    Supported(m, OwnProposal(l.cfg, b, l.highQc, tc, payload).m.p);
  }

  /** The leader that enters a round by a verified timeout certificate opens it, and whatever fitting block it
      proposes gets the vote of every member that is in the round, has not signed in it and does not finish
      the epoch on the way. */
  lemma TcRoundVoted(s: State, tc: Tc, m: State, b: BlockInfo, payload: seq<nat>)
    requires InOrder(s) && tc.Verify(s.cfg.Scope()) && s.highQc.Verify(s.cfg.Scope())
    requires tc.round >= s.round && s.cfg.Leads(tc.round + 1) && !ProcessTc(s, tc).s.finished
    requires m.cfg == s.cfg.(me := m.cfg.me) && InOrder(m) && !m.finished && m.cfg.me != [] && m.round == tc.round + 1 > m.lastVoted
    requires var l := ProcessTc(s, tc).s; Fits(l, b, payload) && b.hash !in m.pending
    requires !OnProposal(m, OwnProposal(s.cfg, b, ProcessTc(s, tc).s.highQc, Some(tc), payload).m.p).s.finished
    ensures var l := ProcessTc(s, tc);
            var a := OwnProposal(s.cfg, b, l.s.highQc, Some(tc), payload);
            && l.s.round == tc.round + 1 && Opens(l.s) in l.out && l.s.entryTc == Some(tc)
            && a in Handle(l.s, EvProposed(b, l.s.highQc, Some(tc), payload)).out
            && Supports(m, a.m.p)
  {
    hide ProcessTc, Tc.Verify, Qc.Verify, Supports, Opens, OwnProposal, OnProposal, Fits, Handle, Tc.MaxReported;
    VerifiedReports(s.cfg, tc);
    TcGrows(s, tc);
    LeaderSupported(ProcessTc(s, tc).s, Some(tc), m, b, payload);
  }

  /** The same for a round entered by a certificate of the round before. */
  lemma QcRoundVoted(s: State, qc: Qc, m: State, b: BlockInfo, payload: seq<nat>)
    requires InOrder(s) && qc.Verify(s.cfg.Scope()) && qc.round >= s.round && s.cfg.Leads(qc.round + 1) && !ProcessQc(s, qc).s.finished
    requires m.cfg == s.cfg.(me := m.cfg.me) && InOrder(m) && !m.finished && m.cfg.me != [] && m.round == qc.round + 1 > m.lastVoted
    requires s.highQc.Verify(s.cfg.Scope())
    requires var l := ProcessQc(s, qc).s; Fits(l, b, payload) && b.hash !in m.pending
    requires !OnProposal(m, OwnProposal(s.cfg, b, ProcessQc(s, qc).s.highQc, None, payload).m.p).s.finished
    ensures var l := ProcessQc(s, qc);
            var a := OwnProposal(s.cfg, b, l.s.highQc, None, payload);
            && l.s.round == qc.round + 1 && Opens(l.s) in l.out && l.s.entryTc == None
            && l.s.highQc.round == qc.round && (s.highQc.round < qc.round ==> l.s.highQc == qc)
            && a in Handle(l.s, EvProposed(b, l.s.highQc, None, payload)).out
            && Supports(m, a.m.p)
  {
    hide ProcessQc, Qc.Verify, Supports, Opens, OwnProposal, OnProposal, Fits, Handle;
    QcGrows(s, qc);
    LeaderSupported(ProcessQc(s, qc).s, None, m, b, payload);
  }

  // ---- counting

  /** The vote set is closed, or has verified votes apart from unchecked ones and not enough genuine votes. */
  ghost predicate SetKept(v: ValidatorSet, msg: Msg, vs: VoteSet) {
    vs.done || (L.WellKept(v, msg, vs) && !L.Enough(v, L.Good(msg, vs)))
  }

  function KeyMsg(cfg: Config, k: (nat, Hash)): Msg {
    VoteMsg(cfg.chain, cfg.epoch, k.0, k.1)
  }

  ghost predicate VotesKept(s: State) {
    forall k :: k in s.votes ==> SetKept(s.cfg.validators, KeyMsg(s.cfg, k), s.votes[k])
  }

  /** Adding a genuine vote: the certificate forms exactly when the genuine votes are enough with it; otherwise
      the set holds it. */
  lemma AddExactly(v: ValidatorSet, msg: Msg, vs: VoteSet, signer: nat)
    requires SetKept(v, msg, vs) && !vs.done && signer < v.Len()
    ensures var t, good := AddVote(v, msg, vs, vs.height, signer, Signed(signer, msg)), L.Good(msg, vs) + {signer};
            if L.Enough(v, good) then t.formed == Some(L.Expected(v, msg, good)) && t.votes.done
            else t.formed == None && !t.votes.done && SetKept(v, msg, t.votes) && L.Good(msg, t.votes) == good && t.votes.height == vs.height
  {
    var a := L.Arrival(signer, Signed(signer, msg));
    L.GoodAt(msg, vs, signer);
    hide Settle, L.Expected, L.Enough, L.WellKept, L.Good;
    if signer in vs.sigs || (signer in vs.pending && vs.pending[signer] == a.sig) {
      assert L.Good(msg, vs) + {signer} == L.Good(msg, vs);
    } else {
      L.TakenGood(v, msg, vs, a);
      L.SettleExact(v, msg, L.Taken(msg, vs, a));
      assert AddVote(v, msg, vs, vs.height, signer, a.sig) == Settle(v, msg, L.Taken(msg, vs, a));
      assert L.Taken(msg, vs, a).height == vs.height && !L.Taken(msg, vs, a).done;
    }
  }

  lemma {:induction false} AnyAddKept(v: ValidatorSet, msg: Msg, vs: VoteSet, height: nat, signer: nat, sig: Sig)
    requires SetKept(v, msg, vs) && signer < v.Len()
    ensures SetKept(v, msg, AddVote(v, msg, vs, height, signer, sig).votes)
  {
    hide Settle, L.Enough, L.WellKept, L.Good, L.Expected;
    if !vs.done && vs.height == height && signer !in vs.sigs && !(signer in vs.pending && vs.pending[signer] == sig) {
      var a := L.Arrival(signer, sig);
      L.TakenGood(v, msg, vs, a);
      L.SettleExact(v, msg, L.Taken(msg, vs, a));
      assert AddVote(v, msg, vs, height, signer, sig) == Settle(v, msg, L.Taken(msg, vs, a));
    }
  }

  lemma FreshKept(v: ValidatorSet, msg: Msg, height: nat)
    ensures SetKept(v, msg, VoteSet(height, map[], map[], false)) && L.Good(msg, VoteSet(height, map[], map[], false)) == {}
  {
    var vs := VoteSet(height, map[], map[], false);
    L.SortedEmpty(v.Len());
    assert VerifiedVotes(vs.pending, msg).Keys == {};
    assert L.Good(msg, vs) == {};
    NothingWeighs(v);
  }

  lemma NothingWeighs(v: ValidatorSet)
    ensures v.WeightOf([]) == 0
  {
  }

  /** The set that a vote is added to, and the sets once it is. */
  function SetFor(s: State, v: Vote): VoteSet {
    if (v.round, v.block) in s.votes then s.votes[(v.round, v.block)] else VoteSet(v.height, map[], map[], false)
  }

  function Tallied(s: State, v: Vote): Tally {
    AddVote(s.cfg.validators, VoteMsg(s.cfg.chain, s.cfg.epoch, v.round, v.block), SetFor(s, v), v.height, v.signer, v.sig)
  }

  lemma VoteCases(s: State, v: Vote)
    requires s.cfg.Leads(v.round + 1) && v.epoch == s.cfg.epoch && v.signer < s.cfg.validators.Len() && v.round + 2 >= s.round
    ensures var t := s.(votes := s.votes[(v.round, v.block) := Tallied(s, v).votes]);
            match Tallied(s, v).formed
            case None => OnVote(s, v) == Result(t, [])
            case Some(f) =>
              OnVote(s, v) == ProcessQc(t, Qc(s.cfg.epoch, v.round, v.block, Tallied(s, v).votes.height,
                                              Bitmap.Encode(f.signers, s.cfg.validators.Len()), Some(f.agg)))
  {
    hide AddVote, ProcessQc, Bitmap.Encode;
  }

  /** In every life the vote sets stay well kept. */
  lemma VotesStayKept(s: State, ev: Event)
    requires VotesKept(s)
    ensures VotesKept(Handle(s, ev).s)
  {
    hide SetKept, OnVote, OnTimeoutMsg, OnProposal;
    if ev.EvMessage? && ev.m.VoteM? {
      VoteKept(s, ev.m.v);
    } else if ev.EvMessage? && ev.m.TimeoutM? {
      TimeoutKept(s, ev.m.t);
    } else {
      HandleFewer(s, ev);
      hide Handle;
      FewerKept(s, Handle(s, ev).s);
    }
  }

  lemma FewerKept(s: State, t: State)
    requires VotesKept(s) && Fewer(s, t)
    ensures VotesKept(t)
  {
    hide SetKept;
  }

  lemma VoteKept(s: State, v: Vote)
    requires VotesKept(s)
    ensures VotesKept(OnVote(s, v).s)
  {
    hide SetKept, AddVote, ProcessQc, Bitmap.Encode;
    if s.cfg.Leads(v.round + 1) && v.epoch == s.cfg.epoch && v.signer < s.cfg.validators.Len() && v.round + 2 >= s.round {
      var msg := VoteMsg(s.cfg.chain, s.cfg.epoch, v.round, v.block);
      FreshKept(s.cfg.validators, msg, v.height);
      AnyAddKept(s.cfg.validators, msg, SetFor(s, v), v.height, v.signer, v.sig);
      var t := s.(votes := s.votes[(v.round, v.block) := Tallied(s, v).votes]);
      assert VotesKept(t);
      VoteCases(s, v);
      if Tallied(s, v).formed.Some? {
        var f := Tallied(s, v).formed.value;
        var qc := Qc(s.cfg.epoch, v.round, v.block, Tallied(s, v).votes.height, Bitmap.Encode(f.signers, s.cfg.validators.Len()), Some(f.agg));
        QcFewer(t, qc);
        FewerKept(t, ProcessQc(t, qc).s);
      }
    }
  }

  lemma CountKept(s: State, t: Timeout)
    requires VotesKept(s)
    ensures VotesKept(CountTimeout(s, t).s)
  {
    hide SetKept, ProcessTc, Entries, SignTimeouts, ValidatorSet.WeightOf, ValidatorSet.IsQuorum, ValidatorSet.IsOneThird, Sorted;
    var ts := if t.round in s.timeouts then s.timeouts[t.round] else TimeoutSet(map[], t.highQc, false);
    var high := if t.highQc.round > ts.highQc.round then t.highQc else ts.highQc;
    var entries := ts.entries[t.signer := Report(t.highQc.round, t.sig)];
    var signers := Sorted(entries.Keys, s.cfg.validators.Len());
    var quorum := s.cfg.validators.IsQuorum(s.cfg.validators.WeightOf(signers));
    var u := s.(timeouts := s.timeouts[t.round := TimeoutSet(entries, high, quorum)]);
    assert VotesKept(u);
    var tc := Tc(s.cfg.epoch, t.round, high, Entries(entries, signers));
    TcFewer(u, tc);
    FewerKept(u, ProcessTc(u, tc).s);
  }

  lemma TimeoutKept(s: State, t: Timeout)
    requires VotesKept(s)
    ensures VotesKept(OnTimeoutMsg(s, t).s)
  {
    hide VotesKept, ProcessTc, ProcessQc, CountTimeout, AcceptsTimeout, Tc.Verify;
    if AcceptsTimeout(s, t) {
      var useTc := && t.lastTc.Some?
                   && t.lastTc.value.round + 1 == t.round
                   && t.lastTc.value.round >= s.round
                   && t.lastTc.value.Verify(s.cfg.Scope());
      var r := if useTc then ProcessTc(s, t.lastTc.value) else Result(s, []);
      if useTc {
        TcFewer(s, t.lastTc.value);
        FewerKept(s, r.s);
      }
      QcFewer(r.s, t.highQc);
      FewerKept(r.s, ProcessQc(r.s, t.highQc).s);
      CountKept(ProcessQc(r.s, t.highQc).s, t);
    }
  }

  // ---- a quorum of votes

  /** A leader of the next round that still collects votes for `b`. */
  ghost predicate Collects(n: State, b: BlockInfo, heard: set<nat>) {
    var key := (b.round, b.hash);
    && n.cfg.Leads(b.round + 1) && !n.finished && n.round <= b.round + 2 && InOrder(n) && VotesKept(n)
    && (key in n.votes ==> !n.votes[key].done && n.votes[key].height == b.height)
    && (key !in n.votes ==> heard == {})
    && (key in n.votes ==> heard <= L.Good(KeyMsg(n.cfg, key), n.votes[key]))
  }

  /** The engine knows a certificate of that round or a later one and has left the round. */
  predicate Past(n: State, round: nat) {
    n.highQc.round >= round && n.round > round
  }

  /** One vote: the leader holds it, or the certificate forms and it moves on. */
  lemma VoteHeard(n: State, b: BlockInfo, heard: set<nat>, signer: nat)
    requires Collects(n, b, heard) && signer < n.cfg.validators.Len()
    ensures var t := Handle(n, EvMessage(VoteM(BallotOf(n.cfg, b, signer)))).s;
            t.cfg == n.cfg && (if Past(t, b.round) then InOrder(t) else Collects(t, b, heard + {signer}))
    ensures var t := Handle(n, EvMessage(VoteM(BallotOf(n.cfg, b, signer)))).s;
            L.Enough(n.cfg.validators, heard + {signer}) ==> Past(t, b.round)
  {
    hide SetKept, OnVote, L.Good, L.Enough, L.Expected, VotesKept, AddVote, ProcessQc, Bitmap.Encode;
    var v, key := BallotOf(n.cfg, b, signer), (b.round, b.hash);
    var msg := KeyMsg(n.cfg, key);
    CollectsSet(n, b, heard, signer);
    var vs := SetFor(n, v);
    AddExactly(n.cfg.validators, msg, vs, signer);
    VoteCases(n, v);
    var good := L.Good(msg, vs) + {signer};
    if L.Enough(n.cfg.validators, heard + {signer}) {
      L.EnoughMonotone(n.cfg.validators, heard + {signer}, good);
    }
    var t := n.(votes := n.votes[key := Tallied(n, v).votes]);
    if L.Enough(n.cfg.validators, good) {
      var f := Tallied(n, v).formed.value;
      QcGrows(t, Qc(n.cfg.epoch, v.round, v.block, Tallied(n, v).votes.height, Bitmap.Encode(f.signers, n.cfg.validators.Len()), Some(f.agg)));
    } else {
      assert OnVote(n, v) == Result(t, []);
      VoteKept(n, v);
      assert Collects(t, b, heard + {signer});
    }
  }

  /** The set that the vote goes to is open and has heard what was heard. */
  lemma CollectsSet(n: State, b: BlockInfo, heard: set<nat>, signer: nat)
    requires Collects(n, b, heard)
    ensures var vs, msg := SetFor(n, BallotOf(n.cfg, b, signer)), KeyMsg(n.cfg, (b.round, b.hash));
            SetKept(n.cfg.validators, msg, vs) && !vs.done && vs.height == b.height && heard <= L.Good(msg, vs)
  {
    FreshKept(n.cfg.validators, KeyMsg(n.cfg, (b.round, b.hash)), b.height);
    hide SetKept, L.Good;
  }

  function Feed(n: State, cfg: Config, b: BlockInfo, signers: seq<nat>): State {
    if signers == [] then n
    else
      var last := |signers| - 1;
      Handle(Feed(n, cfg, b, signers[..last]), EvMessage(VoteM(BallotOf(cfg, b, signers[last])))).s
  }

  lemma {:induction false} FedVotes(n: State, b: BlockInfo, signers: seq<nat>)
    requires Collects(n, b, {}) && forall i :: 0 <= i < |signers| ==> signers[i] < n.cfg.validators.Len()
    ensures var t := Feed(n, n.cfg, b, signers);
            t.cfg == n.cfg && (if Past(t, b.round) then InOrder(t) else Collects(t, b, Elems(signers)))
  {
    hide Handle, Collects;
    if signers == [] {
      assert Elems(signers) == {};
      NotYet(n, b);
    } else {
      var less, x := signers[..|signers| - 1], signers[|signers| - 1];
      FedVotes(n, b, less);
      var t := Feed(n, n.cfg, b, less);
      assert signers == less + [x];
      assert Elems(signers) == Elems(less) + {x};
      if Past(t, b.round) {
        HandleGrows(t, EvMessage(VoteM(BallotOf(n.cfg, b, x))));
      } else {
        VoteHeard(t, b, Elems(less), x);
      }
    }
  }

  lemma NotYet(n: State, b: BlockInfo)
    requires Collects(n, b, {})
    ensures InOrder(n)
  {
  }

  /** Once the genuine votes of a quorum have reached it, in any order, the leader of the next round has a
      certificate of the round and has left it. */
  lemma QuorumMovesOn(n: State, b: BlockInfo, signers: seq<nat>)
    requires Collects(n, b, {}) && forall i :: 0 <= i < |signers| ==> signers[i] < n.cfg.validators.Len()
    requires L.Enough(n.cfg.validators, Elems(signers))
    ensures Past(Feed(n, n.cfg, b, signers), b.round)
  {
    FedVotes(n, b, signers);
    var t := Feed(n, n.cfg, b, signers);
    if !Past(t, b.round) {
      NotEnough(t, b, Elems(signers));
    }
  }

  lemma NotEnough(t: State, b: BlockInfo, heard: set<nat>)
    requires Collects(t, b, heard)
    ensures !L.Enough(t.cfg.validators, heard)
  {
    var v, key := t.cfg.validators, (b.round, b.hash);
    if key in t.votes {
      var good := L.Good(KeyMsg(t.cfg, key), t.votes[key]);
      assert SetKept(v, KeyMsg(t.cfg, key), t.votes[key]);
      if L.Enough(v, heard) {
        L.EnoughMonotone(v, heard, good);
      }
    } else {
      L.SortedEmpty(v.Len());
      assert v.WeightOf([]) == 0;
    }
  }
}
