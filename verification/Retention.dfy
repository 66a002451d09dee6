/** What an engine does not forget: blocks at or above its last committed height, their certificates, and the
    votes and timeouts of recent rounds. */
module Retention {
  import opened Options
  import opened Committee
  import opened Certificates
  import opened EngineSpec
  import opened RoundProgress
  import Bitmap

  ghost predicate Retains(s: State, t: State) {
    && t.committed.height >= s.committed.height
    && t.round >= s.round
    && (forall h :: h in s.blocks && s.blocks[h].hash == h && s.blocks[h].height >= t.committed.height ==>
          h in t.blocks && t.blocks[h].hash == h && t.blocks[h].height == s.blocks[h].height)
    && (forall h :: h in s.qcs && h in s.blocks && s.blocks[h].hash == h && s.blocks[h].height >= t.committed.height ==>
          h in t.qcs && t.qcs[h] == s.qcs[h])
    && (forall k :: k in s.votes && k.0 + 3 >= t.round ==> k in t.votes)
    && (forall r :: r in s.timeouts && r + 3 >= t.round ==> r in t.timeouts)
  }

  lemma Same(s: State, t: State)
    requires t.committed.height >= s.committed.height && t.round >= s.round && t.blocks == s.blocks && t.qcs == s.qcs
    requires s.votes.Keys <= t.votes.Keys && s.timeouts.Keys <= t.timeouts.Keys
    ensures Retains(s, t)
  {
  }

  lemma Then(s: State, t: State, u: State)
    requires Retains(s, t) && Retains(t, u)
    ensures Retains(s, u)
  {
  }

  lemma ChainCommitted(s: State, qc: Qc, b: BlockInfo, p: BlockInfo, pqc: Qc, chain: seq<BlockInfo>)
    ensures CommitChain(s, qc, b, p, pqc, chain).s.committed == p
  {
    hide ProofFor, RealBlocks;
  }

  lemma BlockedCommitted(s: State, qc: Qc, missing: Hash)
    ensures BlockOn(s, qc, missing).s.committed == s.committed
  {
  }

  lemma CommitRises(s: State, qc: Qc)
    ensures TryCommit(s, qc).s.committed.height >= s.committed.height
  {
    hide WalkBack, CommitChain, BlockOn;
    if !s.finished {
      if qc.block !in s.blocks {
        BlockedCommitted(s, qc, qc.block);
      } else {
        var b := s.blocks[qc.block];
        if b.parent !in s.blocks {
          BlockedCommitted(s, qc, b.parent);
        } else {
          var p := s.blocks[b.parent];
          if p.hash in s.qcs {
            match WalkBack(s.blocks, s.committed, p) {
              case Path(chain) => ChainCommitted(s, qc, b, p, s.qcs[p.hash], chain);
              case Missing(h) => BlockedCommitted(s, qc, h);
              case Fork =>
            }
          }
        }
      }
    }
  }

  lemma CommitRetains(s: State, qc: Qc)
    ensures Retains(s, TryCommit(s, qc).s)
  {
    hide TryCommit;
    CommitTouches(s, qc);
    CommitRises(s, qc);
    Same(s, TryCommit(s, qc).s);
  }

  lemma PruneRetains(s: State)
    ensures Retains(s, Prune(s)) && Prune(s).round == s.round && Prune(s).committed == s.committed
  {
  }

  lemma OpenRetains(s: State)
    ensures Retains(s, OpenRound(s).s)
  {
    PruneRetains(s);
    hide Prune, Lead;
    var u := Prune(s);
    Same(u, u.(proposed := u.proposed + {u.round}));
    Then(s, u, u.(proposed := u.proposed + {u.round}));
  }

  lemma EnterRetains(s: State, round: nat, tc: Option<Tc>)
    ensures Retains(s, EnterRound(s, round, tc).s)
  {
    hide TryCommit, OpenRound, Retains;
    Same(s, s);
    if round > s.round {
      var t := s.(round := round, entryTc := tc, requested := {});
      Same(s, t);
      var r := if t.blockedCommit.Some? then TryCommit(t, t.blockedCommit.value) else Result(t, []);
      if t.blockedCommit.Some? {
        CommitRetains(t, t.blockedCommit.value);
        Then(s, t, r.s);
      }
      OpenRetains(r.s);
      Then(s, r.s, OpenRound(r.s).s);
    }
  }

  lemma AddRetains(s: State, qc: Qc)
    ensures Retains(s, AddQc(s, qc))
  {
  }

  lemma QcRetains(s: State, qc: Qc)
    ensures Retains(s, ProcessQc(s, qc).s)
  {
    hide ProcessQc, AddQc, Retains;
    AddRetains(s, qc);
    AfterAdd(s, qc);
    Then(s, AddQc(s, qc), ProcessQc(s, qc).s);
  }

  lemma AfterAdd(s: State, qc: Qc)
    ensures Retains(AddQc(s, qc), ProcessQc(s, qc).s)
  {
    hide TryCommit, EnterRound, AddQc, Retains;
    var t := AddQc(s, qc);
    CommitRetains(t, qc);
    var r := TryCommit(t, qc);
    EnterRetains(r.s, qc.round + 1, None);
    Then(t, r.s, EnterRound(r.s, qc.round + 1, None).s);
  }

  lemma TcRetains(s: State, tc: Tc)
    ensures Retains(s, ProcessTc(s, tc).s)
  {
    hide ProcessQc, EnterRound, Retains;
    QcRetains(s, tc.highQc);
    var r := ProcessQc(s, tc.highQc);
    EnterRetains(r.s, tc.round + 1, Some(tc));
    Then(s, r.s, EnterRound(r.s, tc.round + 1, Some(tc)).s);
  }

  // ---- blocks and certificates that arrive

  /** A certificate for a known block stays with the block. */
  lemma QcStored(s: State, qc: Qc)
    ensures var t := ProcessQc(s, qc).s;
            qc.block in s.blocks && s.blocks[qc.block].hash == qc.block && s.blocks[qc.block].height >= t.committed.height ==> qc.block in t.qcs
  {
    hide ProcessQc, AddQc, Retains;
    AfterAdd(s, qc);
    AddStores(s, qc);
    Use(AddQc(s, qc), ProcessQc(s, qc).s, qc.block);
  }

  lemma AddStores(s: State, qc: Qc)
    ensures qc.block in AddQc(s, qc).qcs && AddQc(s, qc).blocks == s.blocks
  {
  }

  lemma Use(s: State, t: State, h: Hash)
    requires Retains(s, t)
    ensures h in s.qcs && h in s.blocks && s.blocks[h].hash == h && s.blocks[h].height >= t.committed.height ==> h in t.qcs
    ensures h in s.blocks && s.blocks[h].hash == h && s.blocks[h].height >= t.committed.height ==> h in t.blocks && t.blocks[h].height == s.blocks[h].height
  {
  }

  /** A proposed block joins the tree. */
  lemma AddBlockRetains(s: State, b: BlockInfo)
    requires b.hash in s.blocks ==> s.blocks[b.hash].height == b.height
    ensures Retains(s, s.(blocks := s.blocks[b.hash := b]))
  {
  }

  /** Absorbing a proposal puts its block into the tree and its certificate next to the parent, unless they are
      already below what is committed. */
  lemma AbsorbStores(s: State, p: Proposal)
    ensures Retains(s, Absorb(s, p).s)
    ensures var t, b, h := Absorb(s, p).s, p.block, p.qc.block;
            && (b.hash !in s.blocks && b.height > s.committed.height && b.height >= t.committed.height ==> b.hash in t.blocks)
            && (h in s.blocks && s.blocks[h].hash == h && s.blocks[h].height >= t.committed.height ==> h in t.qcs)
  {
    hide ProcessQc, ProcessTc, Retains;
    var b := p.block;
    var isNew := b.hash !in s.blocks && b.height > s.committed.height;
    var t := if isNew then s.(blocks := s.blocks[b.hash := b]) else s;
    Same(s, s);
    if isNew {
      AddBlockRetains(s, b);
    }
    QcRetains(t, p.qc);
    QcStored(t, p.qc);
    var r := ProcessQc(t, p.qc);
    Then(s, t, r.s);
    Use(t, r.s, b.hash);
    Use(t, r.s, p.qc.block);
    if p.tc.Some? {
      var e := ProcessTc(r.s, p.tc.value);
      TcRetains(r.s, p.tc.value);
      Then(s, r.s, e.s);
      Use(r.s, e.s, b.hash);
      Use(r.s, e.s, p.qc.block);
      Rises(r.s, e.s);
      BlockHash(t, r.s, b.hash);
      BlockHash(t, r.s, p.qc.block);
    }
  }

  lemma Rises(s: State, t: State)
    requires Retains(s, t)
    ensures t.committed.height >= s.committed.height
  {
  }

  lemma BlockHash(s: State, t: State, h: Hash)
    requires Retains(s, t)
    ensures h in s.blocks && s.blocks[h].hash == h && s.blocks[h].height >= t.committed.height ==> h in t.blocks && t.blocks[h].hash == h
  {
  }

  // ---- vote and timeout sets change only by counting

  /** The vote and timeout sets of `t` are some of those of `s`. */
  ghost predicate Fewer(s: State, t: State) {
    && t.cfg == s.cfg
    && (forall k :: k in t.votes ==> k in s.votes && t.votes[k] == s.votes[k])
    && (forall r :: r in t.timeouts ==> r in s.timeouts && t.timeouts[r] == s.timeouts[r])
  }

  lemma CommitFewer(s: State, qc: Qc)
    ensures Fewer(s, TryCommit(s, qc).s)
  {
    hide TryCommit;
    CommitTouches(s, qc);
  }

  lemma PruneFewer(s: State)
    ensures Fewer(s, Prune(s))
  {
    hide ProposalsAbove, BlocksFrom, QcsOf, RoundsFrom;
  }

  lemma OpenFewer(s: State)
    ensures Fewer(s, OpenRound(s).s)
  {
    PruneFewer(s);
    hide Prune, Lead;
  }

  lemma EnterFewer(s: State, round: nat, tc: Option<Tc>)
    ensures Fewer(s, EnterRound(s, round, tc).s)
  {
    hide TryCommit, OpenRound;
    if round > s.round {
      var t := s.(round := round, entryTc := tc, requested := {});
      var r := if t.blockedCommit.Some? then TryCommit(t, t.blockedCommit.value) else Result(t, []);
      if t.blockedCommit.Some? {
        CommitFewer(t, t.blockedCommit.value);
      }
      OpenFewer(r.s);
    }
  }

  lemma QcFewer(s: State, qc: Qc)
    ensures Fewer(s, ProcessQc(s, qc).s)
  {
    hide TryCommit, EnterRound;
    CommitFewer(AddQc(s, qc), qc);
    EnterFewer(TryCommit(AddQc(s, qc), qc).s, qc.round + 1, None);
  }

  lemma TcFewer(s: State, tc: Tc)
    ensures Fewer(s, ProcessTc(s, tc).s)
  {
    hide ProcessQc, EnterRound;
    QcFewer(s, tc.highQc);
    EnterFewer(ProcessQc(s, tc.highQc).s, tc.round + 1, Some(tc));
  }

  lemma FewerThen(s: State, t: State, u: State)
    requires Fewer(s, t) && Fewer(t, u)
    ensures Fewer(s, u)
  {
  }

  /** States with the same sets. */
  lemma SameFewer(s: State, t: State)
    requires t.cfg == s.cfg && t.votes == s.votes && t.timeouts == s.timeouts
    ensures Fewer(s, t)
  {
  }

  lemma AbsorbFewer(s: State, p: Proposal)
    ensures Fewer(s, Absorb(s, p).s)
  {
    hide ProcessQc, ProcessTc, Fewer;
    var b := p.block;
    var t := if b.hash !in s.blocks && b.height > s.committed.height
             then s.(blocks := s.blocks[b.hash := b]) else s;
    SameFewer(s, t);
    QcFewer(t, p.qc);
    var r := ProcessQc(t, p.qc);
    FewerThen(s, t, r.s);
    if p.tc.Some? {
      TcFewer(r.s, p.tc.value);
      FewerThen(s, r.s, ProcessTc(r.s, p.tc.value).s);
    }
  }

  lemma ValidatedFewer(s: State, h: Hash, valid: bool)
    ensures Fewer(s, OnValidated(s, h, valid).s)
  {
    hide CastVotes, SafeToVote, Fewer;
    SameFewer(s, OnValidated(s, h, valid).s);
  }

  lemma ProposalFewer(s: State, p: Proposal)
    ensures Fewer(s, OnProposal(s, p).s)
  {
    hide Absorb, WellFormed, SafeToVote, OnValidated, Fewer;
    SameFewer(s, s);
    AbsorbFewer(s, p);
    var r := Absorb(s, p);
    var t := r.s.(pending := r.s.pending[p.block.hash := p]);
    SameFewer(r.s, t);
    FewerThen(s, r.s, t);
    ValidatedFewer(t, p.block.hash, true);
    FewerThen(s, t, OnValidated(t, p.block.hash, true).s);
  }

  lemma BlockFewer(s: State, b: BlockInfo)
    ensures Fewer(s, OnBlock(s, b).s)
  {
    hide TryCommit, Fewer;
    var t := s.(requested := s.requested - {b.hash},
                blocks := if b.height > s.committed.height then s.blocks[b.hash := b] else s.blocks);
    SameFewer(s, t);
    if t.blockedCommit.Some? {
      CommitFewer(t, t.blockedCommit.value);
      FewerThen(s, t, TryCommit(t, t.blockedCommit.value).s);
    }
  }

  lemma TimeoutFewer(s: State)
    ensures Fewer(s, LocalTimeout(s).s)
  {
    hide SignTimeouts, Fewer;
    SameFewer(s, LocalTimeout(s).s);
  }

  /** Everything but votes and timeouts leaves the sets alone or drops them. */
  lemma HandleFewer(s: State, ev: Event)
    requires ev.EvMessage? ==> ev.m.ProposalM?
    ensures Fewer(s, Handle(s, ev).s)
  {
    hide OnProposal, EnterRound, OnValidated, OnBlock, LocalTimeout, OwnProposal, Fewer;
    SameFewer(s, s);
    match ev
    case EvStart => EnterFewer(s, s.round + 1, None);
    case EvMessage(m) => ProposalFewer(s, m.p);
    case EvValidated(h, valid) => ValidatedFewer(s, h, valid);
    case EvProposed(b, qc, tc, payload) =>
    case EvTimeout(round) => TimeoutFewer(s);
    case EvBlock(b) => BlockFewer(s, b);
  }
}
