/** When a certificate commits and what it commits: every chain of known blocks from the last committed block,
    whatever its length and the rounds in between; and what an engine asks for when a block is missing. */
module CommitProgress {
  import opened Options
  import opened Committee
  import opened Certificates
  import opened EngineSpec
  import opened Protocol
  import opened EpochEnd

  /** `chain` leads by parent links from the last committed block through known blocks. */
  ghost predicate KnownChain(s: State, chain: seq<BlockInfo>) {
    && chain != [] && Chained(s.committed, chain)
    && forall i :: 0 <= i < |chain| ==> chain[i].hash in s.blocks && s.blocks[chain[i].hash] == chain[i]
  }

  /** `qc` certifies a known child of the chain's last block, in the next round, and that block's certificate
      is stored. */
  ghost predicate Decides(s: State, qc: Qc, chain: seq<BlockInfo>) {
    && KnownChain(s, chain)
    && qc.block in s.blocks
    && var p, b := chain[|chain| - 1], s.blocks[qc.block];
       b.parent == p.hash && b.round == p.round + 1 && p.hash in s.qcs
  }

  lemma {:induction false} ChainGenuine(s: State, chain: seq<BlockInfo>)
    requires Tidy(s) && KnownChain(s, chain)
    ensures forall i :: 0 <= i < |chain| ==> Genuine(s.cfg, chain[i]) && chain[i] != s.cfg.anchor && chain[i].height == s.committed.height + 1 + i
  {
    hide Genuine, Chained;
    forall i | 0 <= i < |chain| ensures Genuine(s.cfg, chain[i]) && chain[i] != s.cfg.anchor && chain[i].height == s.committed.height + 1 + i {
      ChainedHeights(s.committed, chain, i);
    }
  }

  /** The walk finds the chain. */
  lemma {:induction false} WalkFinds(cfg: Config, blocks: map<Hash, BlockInfo>, base: BlockInfo, chain: seq<BlockInfo>)
    requires chain != [] && Chained(base, chain) && Genuine(cfg, base)
    requires forall i :: 0 <= i < |chain| ==> chain[i].hash in blocks && blocks[chain[i].hash] == chain[i]
    requires forall i :: 0 <= i < |chain| ==> Genuine(cfg, chain[i]) && chain[i] != cfg.anchor
    ensures WalkBack(blocks, base, chain[|chain| - 1]) == Path(chain)
    decreases |chain|
  {
    hide Genuine, Chained;
    var n := |chain| - 1;
    if n == 0 {
      FirstFollows(base, chain);
      assert chain == [chain[0]];
    } else {
      FollowsAt(base, chain, n);
      ChainedHeights(base, chain, n - 1);
      DeeperParent(cfg, chain[n]);
      ChainedPrefix(base, chain, n);
      WalkFinds(cfg, blocks, base, chain[..n]);
      NotBase(cfg, base, chain[n - 1]);
      assert chain == chain[..n] + [chain[n]];
    }
  }

  lemma NotBase(cfg: Config, base: BlockInfo, b: BlockInfo)
    requires Genuine(cfg, base) && Genuine(cfg, b) && b.height != base.height
    ensures b.hash != base.hash
  {
  }

  /** The real blocks of the chain: those up to the epoch's last height. */
  function Real(end: nat, base: BlockInfo, chain: seq<BlockInfo>): seq<BlockInfo> {
    if base.height + |chain| <= end then chain else if base.height >= end then [] else chain[..end - base.height]
  }

  lemma RealIs(end: nat, base: BlockInfo, chain: seq<BlockInfo>)
    requires Chained(base, chain)
    ensures RealBlocks(chain, end) == Real(end, base, chain)
  {
    hide Chained;
    if base.height <= end {
      RealPrefix(base, chain, end);
      assert chain[..|chain|] == chain;
    } else {
      NoneReal(base, chain, end);
    }
  }

  function Handed(ledger: seq<BlockInfo>, proof: CommitProof, last: BlockInfo, over: bool): seq<Action> {
    (if ledger != [] then [Commit(ledger, proof)] else []) + (if over then [Action.EpochEnd(last, proof)] else [])
  }

  lemma HandedBatch(ledger: seq<BlockInfo>, proof: CommitProof, last: BlockInfo, over: bool)
    ensures Batch(Handed(ledger, proof, last, over)) == ledger
  {
    hide Batch, Ends;
    var none: seq<Action> := [];
    var a, b := if ledger != [] then [Commit(ledger, proof)] else none, if over then [Action.EpochEnd(last, proof)] else none;
    NoActions();
    LastAction(none, Commit(ledger, proof));
    LastAction(none, Action.EpochEnd(last, proof));
    assert none + [Commit(ledger, proof)] == [Commit(ledger, proof)];
    assert none + [Action.EpochEnd(last, proof)] == [Action.EpochEnd(last, proof)];
    BatchAppend(a, b);
  }

  lemma CommitHands(s: State, qc: Qc, b: BlockInfo, p: BlockInfo, pqc: Qc, chain: seq<BlockInfo>)
    requires Abort !in CommitChain(s, qc, b, p, pqc, chain).out
    ensures exists proof, last, over ::
              CommitChain(s, qc, b, p, pqc, chain).out == Handed(RealBlocks(chain, s.cfg.endHeight), proof, last, over)
  {
    hide ProofFor, RealBlocks;
    var r := CommitChain(s, qc, b, p, pqc, chain);
    var t := s.(committed := p,
                blockedCommit := if s.blockedCommit.Some? && s.blockedCommit.value.round <= qc.round
                                 then None else s.blockedCommit);
    var o := ProofFor(t, p, b, pqc, qc);
    assert o.None? ==> Abort in r.out;
    var proof := o.value;
    var last := if proof.committed in t.blocks then t.blocks[proof.committed] else p;
    assert r.out == Handed(RealBlocks(chain, s.cfg.endHeight), proof, last, p.height >= s.cfg.endHeight);
  }

  lemma CommitBatch(s: State, qc: Qc, b: BlockInfo, p: BlockInfo, pqc: Qc, chain: seq<BlockInfo>)
    requires RealBlocks(chain, s.cfg.endHeight) == Real(s.cfg.endHeight, s.committed, chain)
    requires Abort !in CommitChain(s, qc, b, p, pqc, chain).out
    ensures Batch(CommitChain(s, qc, b, p, pqc, chain).out) == Real(s.cfg.endHeight, s.committed, chain)
  {
    CommitHands(s, qc, b, p, pqc, chain);
    hide CommitChain, RealBlocks, Real, Handed, Batch;
    var proof, last, over :|
      CommitChain(s, qc, b, p, pqc, chain).out == Handed(RealBlocks(chain, s.cfg.endHeight), proof, last, over);
    HandedBatch(RealBlocks(chain, s.cfg.endHeight), proof, last, over);
  }

  /** A certificate that decides a chain commits exactly its real blocks, however long the chain is, and the
      engine moves to its last block; the epoch ends if that block has the last height or is nil. (A life
      that starts past the last real block panics instead, which `EpochLives` is about.) */
  lemma CommitsChain(s: State, qc: Qc, chain: seq<BlockInfo>)
    requires Tidy(s) && !s.finished && Decides(s, qc, chain)
    ensures var r := TryCommit(s, qc);
            && r.s.committed == chain[|chain| - 1]
            && (s.committed.height <= s.cfg.endHeight ==> Batch(r.out) == Real(s.cfg.endHeight, s.committed, chain))
            && (r.s.finished <==> chain[|chain| - 1].height >= s.cfg.endHeight)
  {
    var p, b := chain[|chain| - 1], s.blocks[qc.block];
    ChainGenuine(s, chain);
    GenuineFollows(s.cfg, p, b);
    hide Genuine, Chained, CommitChain, Hands;
    WalkFinds(s.cfg, s.blocks, s.committed, chain);
    assert TryCommit(s, qc) == CommitChain(s, qc, b, p, s.qcs[p.hash], chain);
    TryCommitAdvances(s, qc);
    CommitsTo(s, qc, b, p, s.qcs[p.hash], chain);
    RealIs(s.cfg.endHeight, s.committed, chain);
    if s.committed.height <= s.cfg.endHeight {
      NoPanic(s, TryCommit(s, qc));
      CommitBatch(s, qc, b, p, s.qcs[p.hash], chain);
    }
  }

  lemma NoPanic(s: State, r: Result)
    requires Advances(s, r) && s.committed.height <= s.cfg.endHeight
    ensures Abort !in r.out
  {
  }

  lemma CommitsTo(s: State, qc: Qc, b: BlockInfo, p: BlockInfo, pqc: Qc, chain: seq<BlockInfo>)
    requires !s.finished && b.height == p.height + 1
    ensures var r := CommitChain(s, qc, b, p, pqc, chain);
            r.s.committed == p && (p.height >= s.cfg.endHeight ==> r.s.finished) && (b.height <= s.cfg.endHeight ==> !r.s.finished)
  {
    hide NilWalk, RealBlocks;
  }

  lemma Moves(s: State, qc: Qc)
    requires TryCommit(s, qc).s.committed != s.committed
    ensures qc.block in s.blocks && s.blocks[qc.block].parent in s.blocks
    ensures var b := s.blocks[qc.block];
            var p := s.blocks[b.parent];
            p.round + 1 == b.round && p.height > s.committed.height && p.hash in s.qcs && WalkBack(s.blocks, s.committed, p).Path?
  {
    hide WalkBack, ProofFor, RealBlocks;
  }

  lemma ReachesKnown(s: State, p: BlockInfo, chain: seq<BlockInfo>)
    requires Reaches(s.blocks, s.committed, chain, p) && p.hash in s.blocks && s.blocks[p.hash] == p
    ensures KnownChain(s, chain)
  {
    hide Chained;
  }

  /** Nothing else commits: if a certificate moves the engine, it decides a chain. */
  lemma CommitsOnly(s: State, qc: Qc) returns (chain: seq<BlockInfo>)
    requires Tidy(s) && !s.finished && TryCommit(s, qc).s.committed != s.committed
    ensures Decides(s, qc, chain)
  {
    Moves(s, qc);
    var p := s.blocks[s.blocks[qc.block].parent];
    chain := WalkBack(s.blocks, s.committed, p).chain;
    WalkChained(s.cfg, s.blocks, s.committed, p);
    hide TryCommit, WalkBack, Chained, Genuine, KnownChain;
    ReachesKnown(s, p, chain);
  }

  // ---- missing blocks

  /** `tail` leads by parent links from a missing block to known ones, all above the last committed block. */
  ghost predicate Dangles(s: State, missing: Hash, tail: seq<BlockInfo>) {
    && missing !in s.blocks && missing != s.committed.hash
    && tail != [] && tail[0].parent == missing
    && (forall i :: 0 < i < |tail| ==> tail[i].parent == tail[i - 1].hash)
    && (forall i :: 0 <= i < |tail| ==> tail[i].hash in s.blocks && s.blocks[tail[i].hash] == tail[i] && tail[i].height > s.committed.height)
  }

  lemma {:induction false} WalkMisses(cfg: Config, blocks: map<Hash, BlockInfo>, base: BlockInfo, missing: Hash, tail: seq<BlockInfo>)
    requires Genuine(cfg, base) && base.height >= cfg.anchor.height && missing !in blocks && missing != base.hash
    requires tail != [] && tail[0].parent == missing && forall i :: 0 < i < |tail| ==> tail[i].parent == tail[i - 1].hash
    requires forall i :: 0 <= i < |tail| ==> tail[i].hash in blocks && blocks[tail[i].hash] == tail[i] && tail[i].height > base.height
    requires forall i :: 0 <= i < |tail| ==> Genuine(cfg, tail[i])
    ensures WalkBack(blocks, base, tail[|tail| - 1]) == Missing(missing)
    decreases |tail|
  {
    hide Genuine;
    var n := |tail| - 1;
    if n > 0 {
      NotBase(cfg, base, tail[n - 1]);
      DeeperParent(cfg, tail[n]);
      assert tail[..n][n - 1] == tail[n - 1];
      WalkMisses(cfg, blocks, base, missing, tail[..n]);
    }
  }

  /** A certificate whose two-chain hangs off a missing block asks for exactly that block, once, and waits. */
  lemma AsksForMissing(s: State, qc: Qc, missing: Hash, tail: seq<BlockInfo>)
    requires Tidy(s) && !s.finished && Dangles(s, missing, tail) && qc.block in s.blocks
    requires var p, b := tail[|tail| - 1], s.blocks[qc.block]; b.parent == p.hash && b.round == p.round + 1 && p.hash in s.qcs
    ensures var r := TryCommit(s, qc);
            && r.out == (if missing in s.requested then [] else [FetchBlock(missing)])
            && missing in r.s.requested && r.s.committed == s.committed && !r.s.finished
            && r.s.blockedCommit.Some? && r.s.blockedCommit.value.round >= qc.round
  {
    hide Genuine;
    WalkMisses(s.cfg, s.blocks, s.committed, missing, tail);
  }

  /** So does one whose own block or that block's parent is missing. */
  lemma AsksForBlock(s: State, qc: Qc)
    requires !s.finished
    requires qc.block !in s.blocks || (s.blocks[qc.block].parent !in s.blocks && s.blocks[qc.block].height > s.committed.height + 1)
    ensures var missing := if qc.block !in s.blocks then qc.block else s.blocks[qc.block].parent;
            var r := TryCommit(s, qc);
            && r.out == (if missing in s.requested then [] else [FetchBlock(missing)])
            && r.s.blockedCommit.Some? && r.s.blockedCommit.value.round >= qc.round
  {
  }

  /** A fetched block that completes the chain of the waiting certificate commits it. */
  lemma FetchedCommits(s: State, block: BlockInfo, qc: Qc, chain: seq<BlockInfo>)
    requires Tidy(s) && !s.finished && Genuine(s.cfg, block) && block.height > s.committed.height && s.blockedCommit == Some(qc)
    requires Decides(s.(blocks := s.blocks[block.hash := block]), qc, chain)
    ensures var r := OnBlock(s, block);
            && r.s.committed == chain[|chain| - 1]
            && (s.committed.height <= s.cfg.endHeight ==> Batch(r.out) == Real(s.cfg.endHeight, s.committed, chain))
  {
    hide Tidy, Decides, TryCommit, Real, Batch, Genuine;
    var t := s.(requested := s.requested - {block.hash}, blocks := s.blocks[block.hash := block]);
    TidyGrows(s, block);
    DecidesSame(s.(blocks := s.blocks[block.hash := block]), t, qc, chain);
    CommitsChain(t, qc, chain);
  }

  lemma TidyGrows(s: State, block: BlockInfo)
    requires Tidy(s) && Genuine(s.cfg, block) && block.height > s.committed.height
    ensures Tidy(s.(requested := s.requested - {block.hash}, blocks := s.blocks[block.hash := block]))
  {
    SameHash(s.cfg, s.committed, block);
    hide Genuine;
  }

  lemma SameHash(cfg: Config, a: BlockInfo, b: BlockInfo)
    requires Genuine(cfg, a) && Genuine(cfg, b)
    ensures a.hash == b.hash ==> a == b
  {
  }

  lemma DecidesSame(a: State, b: State, qc: Qc, chain: seq<BlockInfo>)
    requires Decides(a, qc, chain) && b.blocks == a.blocks && b.qcs == a.qcs && b.committed == a.committed
    ensures Decides(b, qc, chain)
  {
    hide Chained;
  }
}
