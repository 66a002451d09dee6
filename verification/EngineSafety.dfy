/** What every handler keeps: the certificates an engine stores are backed by released signatures,
    its votes and timeouts obey the rules, and what it commits is final. */
module EngineSafety {
  import opened Options
  import opened Committee
  import opened Certificates
  import opened EngineSpec
  import opened Protocol
  import Bitmap

  // ---- what can be delivered

  predicate ForThisEpoch(net: Net, m: Msg) {
    match m
    case VoteMsg(c, e, _, _) => c == net.cfg.chain && e == net.cfg.epoch
    case TimeoutMsg(c, e, _, _) => c == net.cfg.chain && e == net.cfg.epoch
    case ProposalMsg(_, _, _, _, _) => false
  }

  /** Unforgeability: an honest member's vote or timeout signature was released by its node.
      Proposal signatures are not constrained: safety does not depend on them. */
  predicate Known(net: Net, sig: Sig) {
    sig.Signed? && net.Honest(sig.signer) && ForThisEpoch(net, sig.msg) ==> sig in net.rel
  }

  ghost predicate KnownQc(net: Net, q: Qc) {
    && Bitmap.NoAliases(q.signers)
    && (q.sig.Some? ==> forall i :: 0 <= i < |q.sig.value| ==> Known(net, q.sig.value[i]))
  }

  ghost predicate KnownTc(net: Net, tc: Tc) {
    KnownQc(net, tc.highQc) && forall i :: 0 <= i < |tc.entries| ==> Known(net, tc.entries[i].sig)
  }

  ghost predicate KnownMessage(net: Net, m: Message) {
    match m
    case ProposalM(p) => Genuine(net.cfg, p.block) && KnownQc(net, p.qc) && (p.tc.Some? ==> KnownTc(net, p.tc.value))
    case VoteM(v) => Known(net, v.sig)
    case TimeoutM(t) => Known(net, t.sig) && KnownQc(net, t.highQc) && (t.lastTc.Some? ==> KnownTc(net, t.lastTc.value))
  }

  /** Inputs an engine can meet: block descriptions agree with their hashes and honest signatures
      were released. */
  ghost predicate Admissible(net: Net, ev: Event) {
    match ev
    case EvMessage(m) => KnownMessage(net, m)
    case EvBlock(b) => Genuine(net.cfg, b)
    case _ => true
  }

  // ---- verified certificates are backed

  lemma VerifiedQc(net: Net, q: Qc)
    requires net.Assumed() && net.Disciplined() && KnownQc(net, q) && q.Verify(net.cfg.Scope())
    ensures net.CertAt(q.round, q.block)
  {
    if !q.IsAnchor() {
      var voters := Bitmap.Decode(q.signers);
      Bitmap.DistinctExactly(q.signers);
      hide Bitmap.Decode;
      DistinctWeight(net.cfg.validators, voters);
      forall v | v in Elems(voters) ensures v in net.Voters(q.round, q.block) {
        var i :| 0 <= i < |voters| && voters[i] == v;
        assert q.sig.value[i] == net.Ballot(v, q.round, q.block);
      }
      QuorumMonotone(net.cfg.validators, Elems(voters), net.Voters(q.round, q.block));
      CertifiedJustified(net, q.round, q.block);
    }
  }

  lemma VerifiedTc(net: Net, tc: Tc)
    requires net.Assumed() && KnownTc(net, tc) && tc.Verify(net.cfg.Scope())
    ensures net.TimedOut(tc.round, tc.MaxReported())
  {
    var list := EntrySigners(tc.entries);
    var signers := Sorted(Elems(list), Bitmap.INDEX_RANGE);
    ListWeight(net.cfg.validators, signers, net.N());
    var q := tc.MaxReported();
    forall v | v in Elems(signers) ensures v in net.Reporters(tc.round, q) {
      var i :| 0 <= i < |list| && list[i] == v;
      var e := tc.entries[i];
      assert Known(net, e.sig);
      assert e.sig == net.GaveUp(v, tc.round, e.qcRound);
      assert v in net.byz || net.Reported(v, tc.round, q);
    }
    QuorumMonotone(net.cfg.validators, Elems(signers), net.Reporters(tc.round, q));
  }

  // ---- sound states

  ghost predicate SoundBlocks(net: Net, blocks: map<Hash, BlockInfo>) {
    forall h :: h in blocks ==> blocks[h].hash == h && Genuine(net.cfg, blocks[h])
  }

  /** A stored certificate verifies and is backed by released votes. */
  ghost predicate SoundQc(net: Net, q: Qc) {
    q.Verify(net.cfg.Scope()) && net.CertAt(q.round, q.block)
  }

  ghost predicate SoundQcs(net: Net, qcs: map<Hash, Qc>) {
    forall h :: h in qcs ==> qcs[h].block == h && SoundQc(net, qcs[h])
  }

  ghost predicate SoundVoteSet(net: Net, r: nat, h: Hash, vs: VoteSet) {
    && (forall i :: i in vs.sigs ==> vs.sigs[i] == net.Ballot(i, r, h) && Known(net, vs.sigs[i]))
    && (forall i :: i in vs.pending ==> Known(net, vs.pending[i]))
  }

  ghost predicate SoundVotes(net: Net, votes: map<(nat, Hash), VoteSet>) {
    forall k :: k in votes ==> SoundVoteSet(net, k.0, k.1, votes[k])
  }

  ghost predicate SoundTimeouts(net: Net, timeouts: map<nat, TimeoutSet>) {
    forall r :: r in timeouts ==> SoundQc(net, timeouts[r].highQc)
  }

  /** A proposal whose checks passed, its certificates processed. */
  ghost predicate Votable(net: Net, high: nat, p: Proposal) {
    && Genuine(net.cfg, p.block)
    && p.block.round > 0
    && p.block.parent == p.qc.block
    && SoundQc(net, p.qc)
    && p.qc.round < p.block.round
    && p.qc.round <= high
    && (p.block.height > net.cfg.endHeight ==> p.block.hash == Nil(net.cfg.epoch, p.block.parent, p.block.round))
    && (p.tc.Some? && p.tc.value.round + 1 == p.block.round ==> net.TimedOut(p.tc.value.round, p.tc.value.MaxReported()))
  }

  ghost predicate SoundPending(net: Net, high: nat, pending: map<Hash, Proposal>) {
    forall h :: h in pending ==> pending[h].block.hash == h && Votable(net, high, pending[h])
  }

  ghost predicate Sound(net: Net, s: State) {
    && s.cfg == net.cfg.(me := s.cfg.me)
    && SoundBlocks(net, s.blocks)
    && Genuine(net.cfg, s.committed)
    && s.committed.height >= net.cfg.anchor.height
    && s.committed.hash in s.blocks
    && s.committed.hash in s.qcs
    && SoundQcs(net, s.qcs)
    && SoundQc(net, s.highQc)
    && (s.blockedCommit.Some? ==> SoundQc(net, s.blockedCommit.value))
    && SoundVotes(net, s.votes)
    && SoundTimeouts(net, s.timeouts)
    && SoundPending(net, s.highQc.round, s.pending)
  }

  lemma SoundGrows(a: Net, b: Net, s: State)
    requires Grows(a, b) && Sound(a, s)
    ensures Sound(b, s)
  {
    forall q: Qc | SoundQc(a, q) ensures SoundQc(b, q) {
      CertGrows(a, b, q.round, q.block);
    }
    forall k, i | k in s.votes && i in s.votes[k].pending ensures Known(b, s.votes[k].pending[i]) {
      assert Known(a, s.votes[k].pending[i]);
    }
    forall h | h in s.pending ensures Votable(b, s.highQc.round, s.pending[h]) {
      var p := s.pending[h];
      assert SoundQc(a, p.qc);
      if p.tc.Some? && p.tc.value.round + 1 == p.block.round {
        TimedOutGrows(a, b, p.tc.value.round, p.tc.value.MaxReported());
      }
    }
  }

  // ---- quiet steps: no vote or timeout is signed

  predicate IsBallot(a: Action) {
    || (a.SendTo? && a.m.VoteM?)
    || (a.Broadcast? && a.m.TimeoutM?)
  }

  predicate NoBallots(out: seq<Action>) {
    forall a :: a in out ==> !IsBallot(a)
  }

  /** A block handed to the ledger. */
  ghost predicate Committable(net: Net, b: BlockInfo) {
    Genuine(net.cfg, b) && b.hash != net.cfg.anchor.hash && Final(net, b.hash)
  }

  /** How a finality proof is put together: two certificates of consecutive rounds, the second for
      a child of the first block, and the nil chain from the committed block to that child. */
  predicate ProofLinks(cfg: Config, proof: CommitProof) {
    && proof.qc.Verify(cfg.Scope())
    && proof.childQc.Verify(cfg.Scope())
    && !proof.qc.IsAnchor()
    && proof.childQc.round == proof.qc.round + 1
    && ParentOf(proof.childQc.block) == proof.qc.block
    && proof.childQc.block != cfg.anchor.hash
    && proof.childHeader.None?
    && proof.committedHeight == HeightOf(cfg, proof.committed)
    && HeightOf(cfg, proof.childQc.block) == HeightOf(cfg, proof.qc.block) + 1
    && if proof.nilRounds == [] then proof.committed == proof.qc.block
       else
         && NilChain(cfg.epoch, proof.committed, proof.nilRounds) == (proof.qc.block, proof.childQc.block)
         && proof.nilRounds[|proof.nilRounds| - 1] == proof.childQc.round
         && HeightOf(cfg, proof.childQc.block) == proof.committedHeight + |proof.nilRounds|
  }

  ghost predicate FinalOutput(net: Net, a: Action) {
    match a
    case Commit(blocks, proof) =>
      ProofLinks(net.cfg, proof) && forall i :: 0 <= i < |blocks| ==> Committable(net, blocks[i])
    case EpochEnd(block, proof) =>
      ProofLinks(net.cfg, proof) && Genuine(net.cfg, block) && Final(net, block.hash)
    case _ => true
  }

  ghost predicate CommitsFinal(net: Net, out: seq<Action>) {
    forall a :: a in out ==> FinalOutput(net, a)
  }

  ghost predicate Quiet(net: Net, s: State, r: Result) {
    && Sound(net, r.s)
    && r.s.cfg == s.cfg
    && r.s.lastVoted == s.lastVoted
    && r.s.highQc.round >= s.highQc.round
    && NoBallots(r.out)
    && CommitsFinal(net, r.out)
  }

  lemma QuietThen(net: Net, s: State, a: Result, b: Result)
    requires Quiet(net, s, a) && Quiet(net, a.s, b)
    ensures Quiet(net, s, b.After(a.out))
  {
    hide Sound, FinalOutput;
  }

  /** The walk back from `cur` only meets blocks between the anchor and `cur`. */
  lemma {:induction false} WalkOnChain(net: Net, blocks: map<Hash, BlockInfo>, base: BlockInfo, cur: BlockInfo)
    requires SoundBlocks(net, blocks) && base.height >= net.cfg.anchor.height
    requires Genuine(net.cfg, cur) && cur.height > base.height && Ancestor(net.cfg.anchor.hash, cur.hash)
    ensures var w := WalkBack(blocks, base, cur);
            w.Path? ==> forall i :: 0 <= i < |w.chain| ==>
              && Genuine(net.cfg, w.chain[i]) && w.chain[i].hash != net.cfg.anchor.hash
              && Ancestor(w.chain[i].hash, cur.hash) && Ancestor(net.cfg.anchor.hash, w.chain[i].hash)
    decreases Depth(cur.hash)
  {
    if cur.parent != base.hash && cur.parent in blocks {
      var up := blocks[cur.parent];
      if up.height > base.height && Depth(up.hash) < Depth(cur.hash) {
        WalkOnChain(net, blocks, base, up);
        var w := WalkBack(blocks, base, up);
        if w.Path? {
          forall i | 0 <= i < |w.chain| ensures Ancestor(w.chain[i].hash, cur.hash) {
            AncestorTrans(w.chain[i].hash, up.hash, cur.hash);
          }
        }
      }
    }
  }

  lemma {:induction false} RealBlocksSubset(chain: seq<BlockInfo>, end: nat)
    ensures forall i :: 0 <= i < |RealBlocks(chain, end)| ==> RealBlocks(chain, end)[i] in chain
  {
    if chain != [] {
      RealBlocksSubset(chain[..|chain| - 1], end);
    }
  }

  lemma BlockOnQuiet(net: Net, s: State, qc: Qc, missing: Hash)
    requires Sound(net, s) && SoundQc(net, qc)
    ensures Quiet(net, s, BlockOn(s, qc, missing)) && BlockOn(s, qc, missing).s.highQc == s.highQc
  {
    hide SoundBlocks, SoundQcs, SoundVotes, SoundTimeouts, SoundPending, SoundQc, Committable;
  }

  /** From a certified block down to the last real one, the blocks are a nil chain. */
  lemma {:induction false} NilWalkChain(net: Net, blocks: map<Hash, BlockInfo>, cur: BlockInfo)
    requires net.Assumed() && net.Disciplined() && SoundBlocks(net, blocks)
    requires Genuine(net.cfg, cur) && net.CertAt(cur.round, cur.hash)
    ensures var w := NilWalk(blocks, net.cfg.endHeight, cur);
            w.Some? ==>
              var (rounds, last) := w.value;
              && Genuine(net.cfg, last) && Ancestor(last.hash, cur.hash) && Ancestor(net.cfg.anchor.hash, last.hash)
              && net.CertAt(last.round, last.hash)
              && (last == cur || (last.hash in blocks && last == blocks[last.hash]))
              && NilChain(net.cfg.epoch, last.hash, rounds).1 == cur.hash
              && cur.height == last.height + |rounds|
    decreases Depth(cur.hash)
  {
    hide Net.Disciplined;
    var end := net.cfg.endHeight;
    if cur.height <= end {
      CertifiedChain(net, cur.hash, cur.hash);
    } else {
      CertifiedJustified(net, cur.round, cur.hash);
      if cur.parent in blocks && Depth(blocks[cur.parent].hash) < Depth(cur.hash) {
        var up := blocks[cur.parent];
        NilWalkChain(net, blocks, up);
        var w := NilWalk(blocks, end, up);
        if w.Some? {
          var (rounds, last) := w.value;
          AncestorTrans(last.hash, up.hash, cur.hash);
          assert (rounds + [cur.round])[..|rounds|] == rounds;
        }
      }
    }
  }

  /** The proof of a two-chain commit has the right links and proves a final block. */
  lemma ProofForLinks(net: Net, s: State, p: BlockInfo, b: BlockInfo, pqc: Qc, bqc: Qc)
    requires net.Assumed() && net.Disciplined() && SoundBlocks(net, s.blocks) && s.cfg == net.cfg.(me := s.cfg.me)
    requires Genuine(net.cfg, p) && p.hash in s.blocks && s.blocks[p.hash] == p && p.hash != net.cfg.anchor.hash
    requires Genuine(net.cfg, b) && b.parent == p.hash && p.round + 1 == b.round
    requires SoundQc(net, pqc) && pqc.block == p.hash && SoundQc(net, bqc) && bqc.block == b.hash
    ensures var o := ProofFor(s, p, b, pqc, bqc);
            o.Some? ==>
              && ProofLinks(net.cfg, o.value)
              && o.value.committed in s.blocks && Final(net, o.value.committed)
  {
    hide Qc.Verify, NilWalk, Net.Justified, Net.Certified, Net.Disciplined;
    NotAnchor(net, pqc);
    assert net.DecidedBy(p.hash, b.hash);
    CertifiedChain(net, p.hash, p.hash);
    assert FinalBy(net, p.hash, p.hash);
    if b.height > s.cfg.endHeight {
      NilWalkChain(net, s.blocks, p);
      NilHash(net, b);
      var w := NilWalk(s.blocks, s.cfg.endHeight, p);
      if w.Some? {
        var (rounds, last) := w.value;
        assert (rounds + [b.round])[..|rounds|] == rounds;
        assert FinalBy(net, last.hash, p.hash);
      }
    }
  }

  lemma NotAnchor(net: Net, q: Qc)
    requires SoundQc(net, q) && q.block != net.cfg.anchor.hash
    ensures !q.IsAnchor()
  {
    hide Bitmap.Decode;
  }

  lemma NilHash(net: Net, b: BlockInfo)
    requires net.Assumed() && net.Disciplined()
    requires Genuine(net.cfg, b) && net.CertAt(b.round, b.hash) && b.height > net.cfg.endHeight
    ensures b.hash == Nil(net.cfg.epoch, b.parent, b.round)
  {
    CertifiedJustified(net, b.round, b.hash);
  }

  lemma CommitSound(net: Net, s: State, p: BlockInfo, blocked: Option<Qc>, finished: bool)
    requires Sound(net, s) && p.hash in s.blocks && p == s.blocks[p.hash] && p.hash in s.qcs
    requires p.height > s.committed.height && (blocked == s.blockedCommit || blocked == None)
    ensures Sound(net, s.(committed := p, blockedCommit := blocked))
    ensures Sound(net, s.(committed := p, blockedCommit := blocked, finished := finished))
    ensures s.blocks[p.hash].hash == p.hash && forall h :: h in s.blocks ==> Genuine(net.cfg, s.blocks[h]) && s.blocks[h].hash == h
    ensures s.cfg == net.cfg.(me := s.cfg.me)
  {
  }

  lemma CommitChainQuiet(net: Net, s: State, qc: Qc, b: BlockInfo, p: BlockInfo, pqc: Qc, chain: seq<BlockInfo>)
    requires Sound(net, s) && p.hash in s.blocks && p == s.blocks[p.hash] && p.hash in s.qcs
    requires p.height > s.committed.height
    requires forall i :: 0 <= i < |chain| ==> Committable(net, chain[i])
    requires var o := ProofFor(s, p, b, pqc, qc);
             o.Some? ==> ProofLinks(net.cfg, o.value) && o.value.committed in s.blocks && Final(net, o.value.committed)
    ensures Quiet(net, s, CommitChain(s, qc, b, p, pqc, chain))
    ensures CommitChain(s, qc, b, p, pqc, chain).s.highQc == s.highQc
  {
    hide Committable, NilWalk, ProofLinks, Final, Sound, Genuine;
    var t := s.(committed := p,
                blockedCommit := if s.blockedCommit.Some? && s.blockedCommit.value.round <= qc.round
                                 then None else s.blockedCommit);
    CommitSound(net, s, p, t.blockedCommit, true);
    assert ProofFor(t, p, b, pqc, qc) == ProofFor(s, p, b, pqc, qc);
    RealBlocksSubset(chain, s.cfg.endHeight);
    var ledger := RealBlocks(chain, s.cfg.endHeight);
    assert forall i :: 0 <= i < |ledger| ==> Committable(net, ledger[i]);
  }

  /** A commit is of a block certified together with a child of the next round. */
  lemma TryCommitQuiet(net: Net, s: State, qc: Qc)
    requires net.Assumed() && net.Disciplined() && Sound(net, s) && SoundQc(net, qc)
    ensures Quiet(net, s, TryCommit(s, qc)) && TryCommit(s, qc).s.highQc == s.highQc
  {
    hide Qc.Verify, CommitChain;
    if s.finished {
    } else if qc.block !in s.blocks {
      BlockOnQuiet(net, s, qc, qc.block);
    } else {
      var b := s.blocks[qc.block];
      if b.parent !in s.blocks {
        BlockOnQuiet(net, s, qc, b.parent);
      } else {
        var p := s.blocks[b.parent];
        if p.round + 1 == b.round && p.height > s.committed.height && p.hash in s.qcs {
          var w := WalkBack(s.blocks, s.committed, p);
          if w.Missing? {
            BlockOnQuiet(net, s, qc, w.h);
          } else if w.Path? {
            DecidedWalk(net, s, b, p, qc);
            ProofForLinks(net, s, p, b, s.qcs[p.hash], qc);
            CommitChainQuiet(net, s, qc, b, p, s.qcs[p.hash], w.chain);
          }
        }
      }
    }
  }

  lemma DecidedWalk(net: Net, s: State, b: BlockInfo, p: BlockInfo, qc: Qc)
    requires net.Assumed() && net.Disciplined() && Sound(net, s) && SoundQc(net, qc)
    requires qc.block in s.blocks && b == s.blocks[qc.block] && b.parent in s.blocks && p == s.blocks[b.parent]
    requires p.round + 1 == b.round && p.height > s.committed.height && p.hash in s.qcs
    requires WalkBack(s.blocks, s.committed, p).Path?
    ensures var chain := WalkBack(s.blocks, s.committed, p).chain;
            forall i :: 0 <= i < |chain| ==> Committable(net, chain[i])
  {
    hide Qc.Verify;
    var w := WalkBack(s.blocks, s.committed, p);
    assert net.DecidedBy(p.hash, b.hash);
    CertifiedChain(net, p.hash, p.hash);
    WalkOnChain(net, s.blocks, s.committed, p);
    forall i | 0 <= i < |w.chain| ensures Committable(net, w.chain[i]) {
      assert FinalBy(net, w.chain[i].hash, p.hash);
    }
  }

  lemma PruneSound(net: Net, s: State, proposed: set<nat>)
    requires Sound(net, s)
    ensures Sound(net, Prune(s)) && Sound(net, Prune(s).(proposed := proposed))
  {
  }

  lemma AdvanceSound(net: Net, s: State, round: nat, tc: Option<Tc>)
    requires Sound(net, s)
    ensures Sound(net, s.(round := round, entryTc := tc, requested := {}))
    ensures s.blockedCommit.Some? ==> SoundQc(net, s.blockedCommit.value)
  {
  }

  lemma OpenRoundQuiet(net: Net, s: State)
    requires Sound(net, s)
    ensures Quiet(net, s, OpenRound(s)) && OpenRound(s).s.highQc == s.highQc
  {
    hide Sound;
    PruneSound(net, s, Prune(s).proposed + {s.round});
  }

  lemma EnterRoundQuiet(net: Net, s: State, round: nat, tc: Option<Tc>)
    requires net.Assumed() && net.Disciplined() && Sound(net, s)
    ensures Quiet(net, s, EnterRound(s, round, tc)) && EnterRound(s, round, tc).s.highQc == s.highQc
  {
    hide Sound, SoundQc, FinalOutput, TryCommit, OpenRound, Net.Disciplined, Net.Assumed;
    if round > s.round {
      var t := s.(round := round, entryTc := tc, requested := {});
      AdvanceSound(net, s, round, tc);
      if t.blockedCommit.Some? {
        TryCommitQuiet(net, t, t.blockedCommit.value);
      }
      var r := if t.blockedCommit.Some? then TryCommit(t, t.blockedCommit.value) else Result(t, []);
      if !r.s.finished {
        OpenRoundQuiet(net, r.s);
        QuietThen(net, t, r, OpenRound(r.s));
      }
    }
  }

  lemma AddQcSound(net: Net, s: State, qc: Qc)
    requires Sound(net, s) && SoundQc(net, qc)
    ensures Sound(net, AddQc(s, qc))
  {
  }

  lemma ProcessQcQuiet(net: Net, s: State, qc: Qc)
    requires net.Assumed() && net.Disciplined() && Sound(net, s) && SoundQc(net, qc)
    ensures Quiet(net, s, ProcessQc(s, qc)) && ProcessQc(s, qc).s.highQc.round >= qc.round
  {
    hide Sound, SoundQc, NoBallots, CommitsFinal, EnterRound, TryCommit, Net.Disciplined, Net.Assumed;
    AddQcSound(net, s, qc);
    var t := AddQc(s, qc);
    TryCommitQuiet(net, t, qc);
    var r := TryCommit(t, qc);
    if qc.round >= r.s.round {
      EnterRoundQuiet(net, r.s, qc.round + 1, None);
      QuietThen(net, s, r, EnterRound(r.s, qc.round + 1, None));
    }
  }

  lemma ProcessTcQuiet(net: Net, s: State, tc: Tc)
    requires net.Assumed() && net.Disciplined() && Sound(net, s) && SoundQc(net, tc.highQc)
    ensures Quiet(net, s, ProcessTc(s, tc))
  {
    hide Sound, NoBallots, CommitsFinal, EnterRound, ProcessQc;
    ProcessQcQuiet(net, s, tc.highQc);
    var r := ProcessQc(s, tc.highQc);
    if tc.round >= r.s.round {
      EnterRoundQuiet(net, r.s, tc.round + 1, Some(tc));
      QuietThen(net, s, r, EnterRound(r.s, tc.round + 1, Some(tc)));
    }
  }

  // ---- votes and timeouts an engine signs

  predicate IsVote(net: Net, sig: Sig) {
    sig.Signed? && sig.msg.VoteMsg? && ForThisEpoch(net, sig.msg)
  }

  predicate IsTimeout(net: Net, sig: Sig) {
    sig.Signed? && sig.msg.TimeoutMsg? && ForThisEpoch(net, sig.msg)
  }

  function BallotSig(a: Action): Sig
    requires IsBallot(a)
  {
    if a.SendTo? then a.m.v.sig else a.m.t.sig
  }

  /** The vote and timeout signatures among the actions. */
  function Ballots(out: seq<Action>): set<Sig> {
    set a | a in out && IsBallot(a) :: BallotSig(a)
  }

  /** The rules over everything an engine has signed: every vote is justified, one block per round,
      and a timeout reports at least the parent round of every block voted for up to its round. The
      engine's own `lastVoted` and high-QC round bound them all. */
  ghost predicate Obeys(net: Net, own: set<Sig>, lastVoted: nat, high: nat) {
    && (forall a :: a in own ==> IsVote(net, a) || IsTimeout(net, a))
    && (forall a :: a in own && IsVote(net, a) ==>
          && a.msg.round <= lastVoted
          && net.Justified(a.msg.round, a.msg.block)
          && RoundOf(net.cfg, ParentOf(a.msg.block)) <= high)
    && (forall a :: a in own && IsTimeout(net, a) ==> a.msg.round <= lastVoted && a.msg.highQcRound <= high)
    && (forall a, b :: a in own && b in own && IsVote(net, a) && IsVote(net, b) && a.msg.round == b.msg.round
          ==> a.msg.block == b.msg.block)
    && (forall a, b :: a in own && b in own && IsTimeout(net, a) && IsVote(net, b) && b.msg.round <= a.msg.round
          ==> RoundOf(net.cfg, ParentOf(b.msg.block)) <= a.msg.highQcRound)
  }

  lemma ObeysGrows(a: Net, b: Net, own: set<Sig>, lastVoted: nat, high: nat)
    requires Grows(a, b) && Obeys(a, own, lastVoted, high)
    ensures Obeys(b, own, lastVoted, high)
  {
    forall x | x in own && IsVote(b, x) ensures b.Justified(x.msg.round, x.msg.block) {
      assert IsVote(a, x);
      JustifiedGrows(a, b, x.msg.round, x.msg.block);
    }
    hide Net.Justified;
    assert forall x :: IsVote(a, x) == IsVote(b, x) && IsTimeout(a, x) == IsTimeout(b, x);
  }

  /** What every handler does, given everything the engine signed before. */
  ghost predicate Keeps(net: Net, s: State, own: set<Sig>, r: Result) {
    && Sound(net, r.s)
    && r.s.cfg == s.cfg
    && (forall a :: a in Ballots(r.out) ==> a.Signed? && a.signer in s.cfg.me)
    && (forall a :: a in Ballots(r.out) && IsVote(net, a) ==> a.msg.round > s.lastVoted)
    && Obeys(net, own + Ballots(r.out), r.s.lastVoted, r.s.highQc.round)
    && r.s.lastVoted >= s.lastVoted
    && r.s.highQc.round >= s.highQc.round
    && CommitsFinal(net, r.out)
  }

  lemma QuietKeeps(net: Net, s: State, own: set<Sig>, r: Result)
    requires Quiet(net, s, r) && Obeys(net, own, s.lastVoted, s.highQc.round)
    ensures Keeps(net, s, own, r)
  {
    hide Sound, CommitsFinal, Net.Justified;
    assert Ballots(r.out) == {};
    assert own + {} == own;
  }

  lemma QuietThenKeeps(net: Net, s: State, own: set<Sig>, a: Result, b: Result)
    requires Quiet(net, s, a) && Keeps(net, a.s, own, b)
    ensures Keeps(net, s, own, b.After(a.out))
  {
    hide Sound, Committable, Obeys;
    assert Ballots(a.out + b.out) == Ballots(b.out);
  }

  /** Voting in a round above every earlier signature keeps the rules. */
  lemma VoteObeys(net: Net, own: set<Sig>, lastVoted: nat, high: nat, new_: set<Sig>, r: nat, h: Hash)
    requires Obeys(net, own, lastVoted, high) && r > lastVoted
    requires net.Justified(r, h) && RoundOf(net.cfg, ParentOf(h)) <= high
    requires forall a :: a in new_ ==> IsVote(net, a) && a.msg.round == r && a.msg.block == h
    ensures Obeys(net, own + new_, r, high)
  {
    hide Net.Justified;
  }

  /** Giving up on a round while reporting the high QC keeps the rules. */
  lemma TimeoutObeys(net: Net, own: set<Sig>, lastVoted: nat, high: nat, new_: set<Sig>, r: nat)
    requires Obeys(net, own, lastVoted, high)
    requires forall a :: a in new_ ==> IsTimeout(net, a) && a.msg.round == r && a.msg.highQcRound == high
    ensures Obeys(net, own + new_, Max(lastVoted, r), high)
  {
    hide Net.Justified;
  }

  lemma VotableJustified(net: Net, high: nat, p: Proposal)
    requires net.Assumed() && net.Disciplined() && Votable(net, high, p) && SafeToVote(p)
    ensures net.Justified(p.block.round, p.block.hash)
    ensures RoundOf(net.cfg, ParentOf(p.block.hash)) <= high
  {
    if p.qc.round + 1 != p.block.round {
      var tc := p.tc.value;
      assert net.TimedOut(tc.round, tc.MaxReported());
      ReportersMonotone(net, tc.round, tc.MaxReported(), p.qc.round);
    }
  }

  lemma ReportersMonotone(net: Net, r: nat, q: nat, q': nat)
    requires net.TimedOut(r, q) && q <= q'
    ensures net.TimedOut(r, q')
  {
    QuorumMonotone(net.cfg.validators, net.Reporters(r, q), net.Reporters(r, q'));
  }

  /** Soundness does not depend on the round, the last vote or the timed-out rounds. */
  lemma SoundMarks(net: Net, s: State, lastVoted: nat, timedOut: set<nat>)
    requires Sound(net, s)
    ensures Sound(net, s.(lastVoted := lastVoted, timedOut := timedOut)) && Sound(net, s.(lastVoted := lastVoted))
    ensures s.cfg == net.cfg.(me := s.cfg.me)
  {
    hide SoundBlocks, SoundQcs, SoundQc, SoundVotes, SoundTimeouts, SoundPending, Genuine;
  }

  lemma PendingVotable(net: Net, s: State, block: Hash)
    requires Sound(net, s) && block in s.pending
    ensures s.pending[block].block.hash == block && Votable(net, s.highQc.round, s.pending[block])
    ensures s.cfg == net.cfg.(me := s.cfg.me)
  {
    hide SoundBlocks, SoundQcs, SoundQc, SoundVotes, SoundTimeouts, Genuine, Votable;
  }

  lemma DropPending(net: Net, s: State, block: Hash, voted: nat)
    requires Sound(net, s)
    ensures Sound(net, s.(pending := s.pending - {block})) && Sound(net, s.(pending := s.pending - {block}, lastVoted := voted))
  {
    hide SoundBlocks, SoundQcs, SoundQc, SoundVotes, SoundTimeouts, Genuine, Votable;
  }

  lemma OnValidatedKeeps(net: Net, s: State, own: set<Sig>, block: Hash, valid: bool)
    requires net.Assumed() && net.Disciplined() && Sound(net, s)
    requires Obeys(net, own, s.lastVoted, s.highQc.round)
    ensures Keeps(net, s, own, OnValidated(s, block, valid))
  {
    hide Sound, Obeys, CastVotes, SafeToVote, CommitsFinal, Votable, Net.Assumed, Net.Disciplined, Net.Justified;
    var r := OnValidated(s, block, valid);
    if block in s.pending && r.s.lastVoted != s.lastVoted {
      var p := s.pending[block];
      PendingVotable(net, s, block);
      VotableJustified(net, s.highQc.round, p);
      VotesSigned(net, s.(pending := s.pending - {block}), p);
      VoteObeys(net, own, s.lastVoted, s.highQc.round, Ballots(r.out), p.block.round, p.block.hash);
      DropPending(net, s, block, p.block.round);
    } else {
      DropPending(net, s, block, s.lastVoted);
      NothingOut(net);
      assert r.out == [];
      assert own + Ballots([]) == own;
    }
  }

  lemma NothingOut(net: Net)
    ensures Ballots([]) == {} && CommitsFinal(net, [])
  {
  }

  lemma VotesSigned(net: Net, s: State, p: Proposal)
    requires s.cfg == net.cfg.(me := s.cfg.me)
    ensures forall a :: a in Ballots(CastVotes(s, p)) ==>
              a.Signed? && a.signer in s.cfg.me && IsVote(net, a) && a.msg.round == p.block.round && a.msg.block == p.block.hash
    ensures CommitsFinal(net, CastVotes(s, p))
  {
  }

  lemma TimeoutsSigned(net: Net, s: State)
    requires s.cfg == net.cfg.(me := s.cfg.me)
    ensures forall a :: a in Ballots([ScheduleTimeout(s.round)] + SignTimeouts(s)) ==>
              a.Signed? && a.signer in s.cfg.me && IsTimeout(net, a) && a.msg.round == s.round
              && a.msg.highQcRound == s.highQc.round
    ensures CommitsFinal(net, [ScheduleTimeout(s.round)] + SignTimeouts(s))
    ensures s.cfg.me == [] ==> SignTimeouts(s) == []
  {
  }

  lemma LocalTimeoutKeeps(net: Net, s: State, own: set<Sig>)
    requires Sound(net, s) && Obeys(net, own, s.lastVoted, s.highQc.round)
    ensures Keeps(net, s, own, LocalTimeout(s))
  {
    hide Sound, Obeys, SignTimeouts, CommitsFinal;
    var voted, late := Max(s.lastVoted, s.round), s.timedOut + {s.round};
    SoundMarks(net, s, voted, late);
    var u := s.(lastVoted := voted, timedOut := late);
    TimeoutsSigned(net, u);
    var out := [ScheduleTimeout(s.round)] + SignTimeouts(u);
    assert LocalTimeout(s).out == out by {
      if s.cfg.me == [] {
        assert out == [ScheduleTimeout(s.round)];
      }
    }
    TimeoutObeys(net, own, s.lastVoted, s.highQc.round, Ballots(out), s.round);
  }

  // ---- handlers

  lemma AddBlock(net: Net, s: State, b: BlockInfo)
    requires Sound(net, s) && Genuine(net.cfg, b) && b.hash !in s.blocks
    ensures Sound(net, s.(blocks := s.blocks[b.hash := b]))
  {
    hide SoundQcs, SoundQc, SoundVotes, SoundTimeouts, SoundPending, Genuine;
  }

  lemma AbsorbQuiet(net: Net, s: State, p: Proposal)
    requires net.Assumed() && net.Disciplined() && Sound(net, s)
    requires Genuine(net.cfg, p.block) && SoundQc(net, p.qc) && (p.tc.Some? ==> SoundQc(net, p.tc.value.highQc))
    ensures Quiet(net, s, Absorb(s, p)) && Absorb(s, p).s.highQc.round >= p.qc.round
  {
    hide Sound, SoundQc, Genuine, NoBallots, CommitsFinal, ProcessQc, ProcessTc, Net.Disciplined, Net.Assumed;
    var b := p.block;
    var t := if b.hash !in s.blocks && b.height > s.committed.height
             then s.(blocks := s.blocks[b.hash := b]) else s;
    if b.hash !in s.blocks {
      AddBlock(net, s, b);
    }
    ProcessQcQuiet(net, t, p.qc);
    var r := ProcessQc(t, p.qc);
    if p.tc.Some? {
      ProcessTcQuiet(net, r.s, p.tc.value);
      QuietThen(net, s, r, ProcessTc(r.s, p.tc.value));
    }
  }

  lemma AddPending(net: Net, s: State, p: Proposal)
    requires Sound(net, s) && Votable(net, s.highQc.round, p)
    ensures Sound(net, s.(pending := s.pending[p.block.hash := p]))
  {
    hide SoundBlocks, SoundQcs, SoundQc, SoundVotes, SoundTimeouts, Genuine, Votable;
  }

  lemma WellFormedBacked(net: Net, s: State, p: Proposal)
    requires net.Assumed() && net.Disciplined() && s.cfg == net.cfg.(me := s.cfg.me)
    requires KnownMessage(net, ProposalM(p)) && WellFormed(s.cfg, p)
    ensures SoundQc(net, p.qc) && (p.tc.Some? ==> SoundQc(net, p.tc.value.highQc))
    ensures Votable(net, p.qc.round, p) && Genuine(net.cfg, p.block)
  {
    hide Bitmap.Decode;
    assert s.cfg.Scope() == net.cfg.Scope();
    VerifiedQc(net, p.qc);
    if p.tc.Some? {
      VerifiedTc(net, p.tc.value);
      VerifiedQc(net, p.tc.value.highQc);
    }
  }

  lemma OnProposalKeeps(net: Net, s: State, own: set<Sig>, p: Proposal)
    requires net.Assumed() && net.Disciplined() && Sound(net, s) && KnownMessage(net, ProposalM(p))
    requires Obeys(net, own, s.lastVoted, s.highQc.round)
    ensures Keeps(net, s, own, OnProposal(s, p))
  {
    hide Sound, SoundQc, Obeys, Keeps, Quiet, Absorb, OnValidated, Votable, Genuine, KnownMessage, WellFormed, Net.Assumed, Net.Disciplined;
    SoundMarks(net, s, 0, {});
    if !WellFormed(s.cfg, p) {
      SameKeeps(net, s, own);
    } else {
      WellFormedBacked(net, s, p);
      AbsorbQuiet(net, s, p);
      PursueKeeps(net, s, own, p, Absorb(s, p));
    }
  }

  /** The second half of `OnProposal`, after the certificates were processed. */
  lemma PursueKeeps(net: Net, s: State, own: set<Sig>, p: Proposal, r: Result)
    requires net.Assumed() && net.Disciplined() && Quiet(net, s, r) && Votable(net, p.qc.round, p)
    requires r.s.highQc.round >= p.qc.round && Obeys(net, own, s.lastVoted, s.highQc.round)
    ensures Keeps(net, s, own, r)
    ensures var t := r.s.(pending := r.s.pending[p.block.hash := p]);
            && Keeps(net, s, own, Result(t, r.out + [Validate(p)]))
            && Keeps(net, s, own, OnValidated(t, p.block.hash, true).After(r.out))
  {
    hide Sound, Obeys, NoBallots, CommitsFinal, Net.Disciplined, Net.Assumed, Net.TimedOut, OnValidated;
    AddPending(net, r.s, p);
    QuietKeeps(net, s, own, r);
    var t := r.s.(pending := r.s.pending[p.block.hash := p]);
    ObeysLater(net, s, own, r);
    OnValidatedKeeps(net, t, own, p.block.hash, true);
    QuietThenKeeps(net, s, own, Result(t, r.out), OnValidated(t, p.block.hash, true));
    AppendQuiet(net, s, own, t, r.out, Validate(p));
  }

  lemma SameKeeps(net: Net, s: State, own: set<Sig>)
    requires Sound(net, s) && Obeys(net, own, s.lastVoted, s.highQc.round)
    ensures Keeps(net, s, own, Result(s, []))
  {
    QuietKeeps(net, s, own, Result(s, []));
  }

  lemma ObeysLater(net: Net, s: State, own: set<Sig>, r: Result)
    requires Quiet(net, s, r) && Obeys(net, own, s.lastVoted, s.highQc.round)
    ensures Obeys(net, own, r.s.lastVoted, r.s.highQc.round)
  {
    hide Net.Justified, Sound, CommitsFinal;
  }

  lemma AppendQuiet(net: Net, s: State, own: set<Sig>, t: State, out: seq<Action>, a: Action)
    requires Quiet(net, s, Result(t, out)) && !IsBallot(a) && !a.Commit? && !a.EpochEnd?
    requires Obeys(net, own, s.lastVoted, s.highQc.round)
    ensures Keeps(net, s, own, Result(t, out + [a]))
  {
    hide Sound, Committable, Obeys;
    QuietKeeps(net, s, own, Result(t, out + [a]));
  }

  // ---- votes counted

  lemma FormedCertified(net: Net, r: nat, h: Hash, signers: seq<nat>, sigs: seq<Sig>)
    requires Ascending(signers) && forall i :: 0 <= i < |signers| ==> signers[i] < net.N()
    requires net.cfg.validators.IsQuorum(net.cfg.validators.WeightOf(signers))
    requires |sigs| == |signers|
    requires forall i :: 0 <= i < |signers| ==> sigs[i] == net.Ballot(signers[i], r, h) && Known(net, sigs[i])
    ensures net.Certified(r, h)
  {
    ListWeight(net.cfg.validators, signers, net.N());
    forall v | v in Elems(signers) ensures v in net.Voters(r, h) {
      var i :| 0 <= i < |signers| && signers[i] == v;
      assert Known(net, sigs[i]);
    }
    QuorumMonotone(net.cfg.validators, Elems(signers), net.Voters(r, h));
  }

  /** A completed vote set: distinct in-range signers of quorum weight, every signature valid. */
  ghost predicate FormedOk(net: Net, r: nat, h: Hash, f: Formed) {
    && Ascending(f.signers)
    && (forall i :: 0 <= i < |f.signers| ==> f.signers[i] < net.N())
    && net.cfg.validators.IsQuorum(net.cfg.validators.WeightOf(f.signers))
    && VerifyAggregate(f.signers, VoteMsg(net.cfg.chain, net.cfg.epoch, r, h), f.agg)
  }

  /** The certificate an engine forms from votes passes its own verification. */
  lemma FormedVerifies(net: Net, r: nat, h: Hash, height: nat, f: Formed)
    requires net.N() <= Bitmap.INDEX_RANGE && r > 0 && FormedOk(net, r, h, f)
    ensures Qc(net.cfg.epoch, r, h, height, Bitmap.Encode(f.signers, net.N()), Some(f.agg)).Verify(net.cfg.Scope())
  {
    Bitmap.RoundTrip(f.signers, net.N());
    Bitmap.SortedUnique(f.signers, Elems(f.signers), net.N());
  }

  lemma SettleSound(net: Net, r: nat, h: Hash, vs: VoteSet)
    requires SoundVoteSet(net, r, h, vs)
    ensures var t := Settle(net.cfg.validators, VoteMsg(net.cfg.chain, net.cfg.epoch, r, h), vs);
            SoundVoteSet(net, r, h, t.votes) && (t.formed.Some? ==> net.Certified(r, h) && FormedOk(net, r, h, t.formed.value))
  {
    hide ValidatorSet.WeightOf, ValidatorSet.IsQuorum, Net.Certified, SigsOf, SoundVoteSet, VerifyAggregate, Sorted,
      FormedOk;
    var v, msg := net.cfg.validators, VoteMsg(net.cfg.chain, net.cfg.epoch, r, h);
    var all := Sorted(vs.sigs.Keys + vs.pending.Keys, v.Len());
    var checked := vs.(sigs := vs.sigs + VerifiedVotes(vs.pending, msg), pending := map[]);
    CheckedSound(net, r, h, vs);
    if v.IsQuorum(v.WeightOf(all)) {
      if vs.pending == map[] || VerifyAggregate(all, msg, SigsOf(vs, all)) {
        AllBallots(net, r, h, vs, all);
      } else {
        var signers := Sorted(checked.sigs.Keys, v.Len());
        if v.IsQuorum(v.WeightOf(signers)) {
          AllBallots(net, r, h, checked, signers);
        }
      }
    }
  }

  lemma CheckedSound(net: Net, r: nat, h: Hash, vs: VoteSet)
    requires SoundVoteSet(net, r, h, vs)
    ensures var checked := vs.(sigs := vs.sigs + VerifiedVotes(vs.pending, VoteMsg(net.cfg.chain, net.cfg.epoch, r, h)),
                               pending := map[]);
            SoundVoteSet(net, r, h, checked) && SoundVoteSet(net, r, h, checked.(done := true))
            && SoundVoteSet(net, r, h, vs.(done := true))
  {
  }

  lemma AllBallots(net: Net, r: nat, h: Hash, vs: VoteSet, signers: seq<nat>)
    requires SoundVoteSet(net, r, h, vs)
    requires signers == Sorted(vs.sigs.Keys + vs.pending.Keys, net.N()) || signers == Sorted(vs.sigs.Keys, net.N())
    requires vs.pending == map[] || VerifyAggregate(signers, VoteMsg(net.cfg.chain, net.cfg.epoch, r, h), SigsOf(vs, signers))
    requires net.cfg.validators.IsQuorum(net.cfg.validators.WeightOf(signers))
    ensures net.Certified(r, h) && FormedOk(net, r, h, Formed(signers, SigsOf(vs, signers)))
  {
    hide ValidatorSet.WeightOf, ValidatorSet.IsQuorum, Net.Certified;
    forall i | 0 <= i < |signers|
      ensures SigsOf(vs, signers)[i] == net.Ballot(signers[i], r, h) && Known(net, SigsOf(vs, signers)[i])
    {
      var x := signers[i];
      assert x in signers;
      assert SigsOf(vs, signers)[i] == SigOf(vs, x);
    }
    FormedCertified(net, r, h, signers, SigsOf(vs, signers));
  }

  lemma AddVoteSound(net: Net, r: nat, h: Hash, vs: VoteSet, height: nat, signer: nat, sig: Sig)
    requires SoundVoteSet(net, r, h, vs) && Known(net, sig)
    ensures var t := AddVote(net.cfg.validators, VoteMsg(net.cfg.chain, net.cfg.epoch, r, h), vs, height, signer, sig);
            SoundVoteSet(net, r, h, t.votes) && (t.formed.Some? ==> net.Certified(r, h) && FormedOk(net, r, h, t.formed.value))
  {
    var msg := VoteMsg(net.cfg.chain, net.cfg.epoch, r, h);
    hide Net.Certified, Settle, FormedOk;
    if vs.done || vs.height != height || signer in vs.sigs {
    } else if signer !in vs.pending {
      SettleSound(net, r, h, vs.(pending := vs.pending[signer := sig]));
    } else if vs.pending[signer] != sig {
      var rest := vs.(pending := vs.pending - {signer});
      var first := vs.pending[signer];
      if VerifySig(signer, msg, first) {
        SettleSound(net, r, h, rest.(sigs := rest.sigs[signer := first]));
      } else if VerifySig(signer, msg, sig) {
        SettleSound(net, r, h, rest.(sigs := rest.sigs[signer := sig]));
      } else {
        SettleSound(net, r, h, rest);
      }
    }
  }

  lemma StoreVotes(net: Net, s: State, key: (nat, Hash), vs: VoteSet)
    requires Sound(net, s) && SoundVoteSet(net, key.0, key.1, vs)
    ensures Sound(net, s.(votes := s.votes[key := vs]))
  {
  }

  lemma SoundVotesAt(net: Net, s: State, key: (nat, Hash))
    requires Sound(net, s) && key in s.votes
    ensures SoundVoteSet(net, key.0, key.1, s.votes[key])
  {
  }

  lemma OnVoteQuiet(net: Net, s: State, v: Vote)
    requires net.Assumed() && net.Disciplined() && Sound(net, s) && Known(net, v.sig)
    ensures Quiet(net, s, OnVote(s, v))
  {
    hide SoundVoteSet, ProcessQc, AddVote, Committable, Net.Disciplined, Known, Qc.Verify, FormedOk, Bitmap.Encode;
    var key := (v.round, v.block);
    var vs := if key in s.votes then s.votes[key] else VoteSet(v.height, map[], map[], false);
    EmptySound(net, v);
    if key in s.votes {
      SoundVotesAt(net, s, key);
    }
    hide Sound;
    var msg := VoteMsg(s.cfg.chain, s.cfg.epoch, v.round, v.block);
    AddVoteSound(net, v.round, v.block, vs, v.height, v.signer, v.sig);
    SameConfig(net, s);
    var tally := AddVote(s.cfg.validators, msg, vs, v.height, v.signer, v.sig);
    StoreVotes(net, s, key, tally.votes);
    if tally.formed.Some? {
      CertifiedJustified(net, v.round, v.block);
      var qc := Qc(s.cfg.epoch, v.round, v.block, tally.votes.height,
                   Bitmap.Encode(tally.formed.value.signers, s.cfg.validators.Len()), Some(tally.formed.value.agg));
      FormedVerifies(net, v.round, v.block, tally.votes.height, tally.formed.value);
      ProcessQcQuiet(net, s.(votes := s.votes[key := tally.votes]), qc);
    }
  }

  lemma SameConfig(net: Net, s: State)
    requires Sound(net, s)
    ensures s.cfg == net.cfg.(me := s.cfg.me)
  {
  }

  lemma EmptySound(net: Net, v: Vote)
    ensures SoundVoteSet(net, v.round, v.block, VoteSet(v.height, map[], map[], false))
  {
  }

  // ---- timeouts counted

  lemma StoreTimeout(net: Net, s: State, round: nat, ts: TimeoutSet)
    requires Sound(net, s) && SoundQc(net, ts.highQc)
    ensures Sound(net, s.(timeouts := s.timeouts[round := ts]))
  {
  }

  lemma SoundTimeoutAt(net: Net, s: State, round: nat)
    requires Sound(net, s) && round in s.timeouts
    ensures SoundQc(net, s.timeouts[round].highQc)
  {
  }

  lemma CountTimeoutKeeps(net: Net, s: State, own: set<Sig>, t: Timeout)
    requires net.Assumed() && net.Disciplined() && Sound(net, s) && SoundQc(net, t.highQc)
    requires Obeys(net, own, s.lastVoted, s.highQc.round)
    ensures Keeps(net, s, own, CountTimeout(s, t))
  {
    hide SoundQc, ProcessTc, LocalTimeout, Net.Disciplined, Net.Assumed, Obeys, Entries, ValidatorSet.WeightOf,
      ValidatorSet.IsQuorum, ValidatorSet.IsOneThird, Sorted, Sound, CommitsFinal, Ballots;
    var ts := if t.round in s.timeouts then s.timeouts[t.round] else TimeoutSet(map[], t.highQc, false);
    if t.round in s.timeouts {
      SoundTimeoutAt(net, s, t.round);
    }
    SameKeeps(net, s, own);
    if !ts.done {
      var high := if t.highQc.round > ts.highQc.round then t.highQc else ts.highQc;
      var entries := ts.entries[t.signer := Report(t.highQc.round, t.sig)];
      var signers := Sorted(entries.Keys, s.cfg.validators.Len());
      var weight := s.cfg.validators.WeightOf(signers);
      var quorum := s.cfg.validators.IsQuorum(weight);
      var u := s.(timeouts := s.timeouts[t.round := TimeoutSet(entries, high, quorum)]);
      StoreTimeout(net, s, t.round, TimeoutSet(entries, high, quorum));
      SameKeeps(net, u, own);
      if quorum {
        var tc := Tc(s.cfg.epoch, t.round, high, Entries(entries, signers));
        ProcessTcQuiet(net, u, tc);
        QuietKeeps(net, u, own, ProcessTc(u, tc));
      } else {
        LocalTimeoutKeeps(net, u, own);
      }
    }
  }

  lemma OnTimeoutMsgKeeps(net: Net, s: State, own: set<Sig>, t: Timeout)
    requires net.Assumed() && net.Disciplined() && Sound(net, s) && KnownMessage(net, TimeoutM(t))
    requires Obeys(net, own, s.lastVoted, s.highQc.round)
    ensures Keeps(net, s, own, OnTimeoutMsg(s, t))
  {
    hide SoundQc, ProcessTc, ProcessQc, CountTimeout, Net.Disciplined, Net.Assumed, Obeys, Sound, Qc.Verify, Tc.Verify,
      Known, Committable;
    SameKeeps(net, s, own);
    if AcceptsTimeout(s, t) {
      SameConfig(net, s);
      assert s.cfg.Scope() == net.cfg.Scope();
      BackedTimeout(net, t);
      var useTc := && t.lastTc.Some?
                   && t.lastTc.value.round + 1 == t.round
                   && t.lastTc.value.round >= s.round
                   && t.lastTc.value.Verify(s.cfg.Scope());
      var r := if useTc then ProcessTc(s, t.lastTc.value) else Result(s, []);
      if useTc {
        BackedLastTc(net, t);
        ProcessTcQuiet(net, s, t.lastTc.value);
      }
      assert Quiet(net, s, r);
      var q := ProcessQc(r.s, t.highQc);
      ProcessQcQuiet(net, r.s, t.highQc);
      QuietThen(net, s, r, q);
      var both := q.After(r.out);
      ObeysLater(net, s, own, both);
      CountTimeoutKeeps(net, q.s, own, t);
      QuietThenKeeps(net, s, own, both, CountTimeout(q.s, t));
    }
  }

  lemma BackedTimeout(net: Net, t: Timeout)
    requires net.Assumed() && net.Disciplined() && KnownMessage(net, TimeoutM(t)) && t.highQc.Verify(net.cfg.Scope())
    ensures SoundQc(net, t.highQc)
  {
    VerifiedQc(net, t.highQc);
  }

  lemma BackedLastTc(net: Net, t: Timeout)
    requires net.Assumed() && net.Disciplined() && KnownMessage(net, TimeoutM(t))
    requires t.lastTc.Some? && t.lastTc.value.Verify(net.cfg.Scope())
    ensures SoundQc(net, t.lastTc.value.highQc)
  {
    hide Bitmap.Decode;
    VerifiedQc(net, t.lastTc.value.highQc);
  }

  lemma OnBlockQuiet(net: Net, s: State, block: BlockInfo)
    requires net.Assumed() && net.Disciplined() && Sound(net, s) && Genuine(net.cfg, block)
    ensures Quiet(net, s, OnBlock(s, block))
  {
    var t := s.(requested := s.requested - {block.hash},
                blocks := if block.height > s.committed.height then s.blocks[block.hash := block] else s.blocks);
    assert Sound(net, t);
    if t.blockedCommit.Some? {
      TryCommitQuiet(net, t, t.blockedCommit.value);
    }
  }

  /** Every handler keeps the rules and commits only final blocks. */
  lemma HandleKeeps(net: Net, s: State, own: set<Sig>, ev: Event)
    requires net.Assumed() && net.Disciplined() && Sound(net, s) && Admissible(net, ev)
    requires Obeys(net, own, s.lastVoted, s.highQc.round)
    ensures Keeps(net, s, own, Handle(s, ev))
  {
    hide Net.Disciplined, Net.Assumed, Sound, Obeys, OnProposal, OnVote, OnTimeoutMsg, TryCommit, EnterRound, Genuine, Known;
    SameKeeps(net, s, own);
    match ev
    case EvStart =>
      EnterRoundQuiet(net, s, s.round + 1, None);
      QuietKeeps(net, s, own, Start(s));
    case EvMessage(m) =>
      if m.Epoch() == s.cfg.epoch && !s.finished {
        match m
        case ProposalM(p) => OnProposalKeeps(net, s, own, p);
        case VoteM(v) =>
          OnVoteQuiet(net, s, v);
          QuietKeeps(net, s, own, OnVote(s, v));
        case TimeoutM(t) => OnTimeoutMsgKeeps(net, s, own, t);
      }
    case EvValidated(h, valid) => OnValidatedKeeps(net, s, own, h, valid);
    case EvProposed(b, qc, tc, payload) => QuietKeeps(net, s, own, OnProposed(s, b, qc, tc, payload));
    case EvTimeout(round) => LocalTimeoutKeeps(net, s, own);
    case EvBlock(b) =>
      OnBlockQuiet(net, s, b);
      QuietKeeps(net, s, own, OnBlock(s, b));
  }

  // ---- start and resume

  lemma NewSound(cfg: Config, net: Net)
    requires net.cfg == cfg.(me := net.cfg.me) && cfg.anchor.round == 0
    ensures Sound(net, New(cfg))
  {
  }

  ghost predicate SoundDisk(net: Net, p: Persisted) {
    && p.epoch == net.cfg.epoch
    && Genuine(net.cfg, p.committed)
    && p.committed.height >= net.cfg.anchor.height
    && p.committedQc.block == p.committed.hash
    && SoundQc(net, p.committedQc)
    && SoundQc(net, p.highQc)
    && SoundBlocks(net, p.blocks)
  }

  lemma PersistSound(net: Net, s: State)
    requires Sound(net, s)
    ensures SoundDisk(net, Persist(s))
  {
  }

  lemma SoundDiskGrows(a: Net, b: Net, p: Persisted)
    requires Grows(a, b) && SoundDisk(a, p)
    ensures SoundDisk(b, p)
  {
    CertGrows(a, b, p.committedQc.round, p.committedQc.block);
    CertGrows(a, b, p.highQc.round, p.highQc.block);
  }

  lemma LoadCommittedSound(net: Net, s: State, p: Persisted)
    requires Sound(net, s) && SoundDisk(net, p) && s.pending == map[]
    ensures Sound(net, LoadCommitted(s, p)) && LoadCommitted(s, p).pending == map[]
  {
    hide SoundQc, SoundVotes, SoundTimeouts, Genuine;
  }

  lemma LoadVotesSound(net: Net, s: State, p: Persisted)
    requires Sound(net, s) && SoundDisk(net, p) && s.pending == map[]
    ensures Sound(net, LoadVotes(s, p))
  {
    hide SoundQc, SoundVotes, SoundTimeouts, Genuine;
  }

  /** A restarted engine is sound and remembers what it signed up to. */
  lemma ResumeSound(net: Net, cfg: Config, p: Persisted)
    requires net.cfg == cfg.(me := net.cfg.me) && cfg.anchor.round == 0 && SoundDisk(net, p)
    ensures Sound(net, Resume(cfg, p))
    ensures Resume(cfg, p).lastVoted == p.lastVoted && Resume(cfg, p).highQc == p.highQc
  {
    NewSound(cfg, net);
    hide Sound, SoundQc, SoundBlocks, Genuine, LoadCommitted;
    LoadCommittedSound(net, New(cfg), p);
    LoadVotesSound(net, LoadCommitted(New(cfg), p), p);
  }
}
