/** One life of an engine, from a fresh start or after a restart: its `Commit` batches make up one gap-free
    chain from where it starts to the epoch's last real block, and `EpochEnd` names exactly that block.
    Only a life that starts past that block can reach the source's panic. Nothing here depends on who is
    honest, only on block descriptions agreeing with their hashes. */
module EpochEnd {
  import opened Options
  import opened Committee
  import opened Certificates
  import opened EngineSpec
  import opened Protocol
  import Bitmap

  // ---- what the actions hand to the ledger

  /** The blocks of the `Commit` actions, in order. */
  function Batch(out: seq<Action>): seq<BlockInfo> {
    if out == [] then []
    else
      var a := out[|out| - 1];
      Batch(out[..|out| - 1]) + (if a.Commit? then a.blocks else [])
  }

  /** The blocks of the `EpochEnd` actions, in order. */
  function Ends(out: seq<Action>): seq<BlockInfo> {
    if out == [] then []
    else
      var a := out[|out| - 1];
      Ends(out[..|out| - 1]) + (if a.EpochEnd? then [a.block] else [])
  }

  predicate Plain(a: Action) {
    !a.Commit? && !a.EpochEnd? && !a.Abort?
  }

  lemma {:induction false} BatchAppend(a: seq<Action>, b: seq<Action>)
    ensures Batch(a + b) == Batch(a) + Batch(b) && Ends(a + b) == Ends(a) + Ends(b)
  {
    hide Batch, Ends;
    if b == [] {
      assert a + b == a;
      NoActions();
    } else {
      var rest, l := b[..|b| - 1], b[|b| - 1];
      assert b == rest + [l];
      assert a + b == (a + rest) + [l];
      BatchAppend(a, rest);
      LastAction(a + rest, l);
      LastAction(rest, l);
      var x, y := if l.Commit? then l.blocks else [], if l.EpochEnd? then [l.block] else [];
      assert (Batch(a) + Batch(rest)) + x == Batch(a) + (Batch(rest) + x);
      assert (Ends(a) + Ends(rest)) + y == Ends(a) + (Ends(rest) + y);
    }
  }

  lemma NoActions()
    ensures Batch([]) == [] && Ends([]) == []
  {
  }

  lemma LastAction(out: seq<Action>, a: Action)
    ensures Batch(out + [a]) == Batch(out) + if a.Commit? then a.blocks else []
    ensures Ends(out + [a]) == Ends(out) + if a.EpochEnd? then [a.block] else []
  {
    assert (out + [a])[..|out|] == out;
  }

  lemma {:induction false} PlainBatch(out: seq<Action>)
    requires forall a :: a in out ==> Plain(a)
    ensures Batch(out) == [] && Ends(out) == []
  {
    if out != [] {
      PlainBatch(out[..|out| - 1]);
      assert out[|out| - 1] in out;
    }
  }

  /** `blocks` continue `from` by parent links and consecutive heights. */
  predicate Chained(from: BlockInfo, blocks: seq<BlockInfo>) {
    forall i :: 0 <= i < |blocks| ==> Follows(Last(from, blocks[..i]), blocks[i])
  }

  predicate Follows(up: BlockInfo, b: BlockInfo) {
    b.parent == up.hash && b.height == up.height + 1
  }

  function Last(from: BlockInfo, blocks: seq<BlockInfo>): BlockInfo {
    if blocks == [] then from else blocks[|blocks| - 1]
  }

  lemma ChainedJoin(from: BlockInfo, a: seq<BlockInfo>, b: seq<BlockInfo>)
    requires Chained(from, a) && Chained(Last(from, a), b)
    ensures Chained(from, a + b) && Last(from, a + b) == Last(Last(from, a), b)
  {
    forall i | 0 <= i < |a + b| ensures Follows(Last(from, (a + b)[..i]), (a + b)[i]) {
      if i < |a| {
        assert (a + b)[..i] == a[..i];
      } else {
        assert (a + b)[..i] == a + b[..i - |a|];
      }
    }
  }

  lemma {:induction false} ChainedHeights(from: BlockInfo, blocks: seq<BlockInfo>, i: nat)
    requires Chained(from, blocks) && i < |blocks|
    ensures blocks[i].height == from.height + 1 + i
  {
    assert Follows(Last(from, blocks[..i]), blocks[i]);
    if i > 0 {
      ChainedHeights(from, blocks, i - 1);
    }
  }

  /** What a step hands to the ledger, given where the ledger stood: at `from` past the epoch's last height,
      ending the epoch means the panic; otherwise it means `EpochEnd` of the block of that height. */
  predicate Hands(end: nat, from: BlockInfo, done: bool, out: seq<Action>, to: BlockInfo, done': bool) {
    && Chained(from, Batch(out))
    && (forall i :: 0 <= i < |Batch(out)| ==> Batch(out)[i].height <= end)
    && (Abort in out <==> !done && done' && from.height > end)
    && (done ==> Batch(out) == [] && Ends(out) == [] && done')
    && (!done && !done' ==> to == Last(from, Batch(out)) && Ends(out) == [] && (from.height < end ==> to.height < end))
    && (!done && done' && from.height <= end ==> Ends(out) == [Last(from, Batch(out))] && Last(from, Batch(out)).height == end)
    && (from.height > end ==> Batch(out) == [] && Ends(out) == [])
  }

  /** The committed block is the lowest in the tree. */
  ghost predicate Floor(s: State) {
    && s.committed.hash in s.blocks && s.blocks[s.committed.hash] == s.committed
    && forall h :: h in s.blocks ==> s.blocks[h].height >= s.committed.height
  }

  ghost predicate Tidy(s: State) {
    && Tree(s.cfg, s.blocks)
    && Genuine(s.cfg, s.committed)
    && s.committed.height >= s.cfg.anchor.height
    && s.cfg.anchor.round == 0 && s.cfg.anchor.height <= s.cfg.endHeight
    && (!s.finished && s.committed.height >= s.cfg.endHeight ==> Floor(s))
  }

  ghost predicate Advances(s: State, r: Result) {
    && Tidy(r.s)
    && r.s.cfg == s.cfg
    && Hands(s.cfg.endHeight, s.committed, s.finished, r.out, r.s.committed, r.s.finished)
  }

  lemma Compose(s: State, a: Result, b: Result)
    requires Advances(s, a) && Advances(a.s, b)
    ensures Advances(s, b.After(a.out))
  {
    hide Tidy;
    BatchAppend(a.out, b.out);
    if !a.s.finished {
      ChainedJoin(s.committed, Batch(a.out), Batch(b.out));
      assert a.s.committed.height > s.cfg.endHeight <==> s.committed.height > s.cfg.endHeight;
    } else {
      assert Batch(a.out) + Batch(b.out) == Batch(a.out);
      assert Ends(a.out) + Ends(b.out) == Ends(a.out);
    }
  }

  lemma PlainAdvances(s: State, r: Result)
    requires Tidy(r.s) && r.s.cfg == s.cfg && r.s.committed == s.committed && r.s.finished == s.finished
    requires forall a :: a in r.out ==> Plain(a)
    ensures Advances(s, r)
  {
    PlainBatch(r.out);
  }

  /** A step that touches neither the block tree nor the committed block. */
  lemma SameAdvances(s: State, r: Result)
    requires Tidy(s) && r.s.cfg == s.cfg && r.s.blocks == s.blocks && r.s.committed == s.committed && r.s.finished == s.finished
    requires forall a :: a in r.out ==> Plain(a)
    ensures Advances(s, r)
  {
    assert Tidy(r.s);
    hide Tidy;
    PlainAdvances(s, r);
  }

  // ---- the walk

  lemma GenuineFollows(cfg: Config, up: BlockInfo, b: BlockInfo)
    requires Genuine(cfg, up) && Genuine(cfg, b) && b != cfg.anchor && b.parent == up.hash
    ensures Follows(up, b) && Chained(up, [b]) && b.hash != cfg.anchor.hash
  {
  }

  /** `chain` starts at `base`'s child and ends at `cur`, and all but `cur` are in the tree. */
  ghost predicate Reaches(blocks: map<Hash, BlockInfo>, base: BlockInfo, chain: seq<BlockInfo>, cur: BlockInfo) {
    && chain != []
    && Chained(base, chain)
    && chain[|chain| - 1] == cur
    && forall i :: 0 <= i < |chain| - 1 ==> chain[i].hash in blocks && chain[i] == blocks[chain[i].hash]
  }

  ghost predicate Tree(cfg: Config, blocks: map<Hash, BlockInfo>) {
    forall h :: h in blocks ==> blocks[h].hash == h && Genuine(cfg, blocks[h])
  }

  /** The walk that a commit follows is a gap-free chain from the last committed block. */
  lemma {:induction false} WalkChained(cfg: Config, blocks: map<Hash, BlockInfo>, base: BlockInfo, cur: BlockInfo)
    requires Tree(cfg, blocks) && Genuine(cfg, base) && base.height >= cfg.anchor.height
    requires Genuine(cfg, cur) && cur.height > base.height
    ensures var w := WalkBack(blocks, base, cur); w.Path? ==> Reaches(blocks, base, w.chain, cur)
    decreases Depth(cur.hash)
  {
    hide Genuine, Chained;
    if cur.parent == base.hash {
      GenuineFollows(cfg, base, cur);
    } else if cur.parent in blocks {
      var up := blocks[cur.parent];
      if up.height > base.height && Depth(up.hash) < Depth(cur.hash) {
        WalkChained(cfg, blocks, base, up);
        var w := WalkBack(blocks, base, up);
        if w.Path? {
          GenuineFollows(cfg, up, cur);
          ChainedJoin(base, w.chain, [cur]);
        }
      }
    }
  }

  /** Walking down nil blocks along such a chain finds its block of height `end`. */
  lemma {:induction false} NilWalkFinds(cfg: Config, blocks: map<Hash, BlockInfo>, base: BlockInfo, chain: seq<BlockInfo>, end: nat)
    requires chain != [] && Chained(base, chain) && base.height < end <= base.height + |chain|
    requires forall i :: 0 <= i < |chain| - 1 ==> chain[i].hash in blocks && chain[i] == blocks[chain[i].hash]
    requires forall i :: 0 <= i < |chain| ==> Genuine(cfg, chain[i]) && chain[i] != cfg.anchor
    ensures var w := NilWalk(blocks, end, chain[|chain| - 1]);
            w.Some? && w.value.1 == chain[end - base.height - 1]
    decreases |chain|
  {
    hide Genuine, Chained;
    var n := |chain|;
    var cur := chain[n - 1];
    ChainedHeights(base, chain, n - 1);
    if cur.height > end {
      var up := chain[n - 2];
      FollowsAt(base, chain, n - 1);
      DeeperParent(cfg, cur);
      var rest := chain[..n - 1];
      assert rest[n - 2] == up;
      ChainedPrefix(base, chain, n - 1);
      NilWalkFinds(cfg, blocks, base, rest, end);
    }
  }

  /** From a chain on top of a block of height `end` the walk finds that block. */
  lemma {:induction false} NilWalkBase(cfg: Config, blocks: map<Hash, BlockInfo>, base: BlockInfo, chain: seq<BlockInfo>, end: nat)
    requires chain != [] && Chained(base, chain) && base.height == end && base.hash in blocks && blocks[base.hash] == base
    requires forall i :: 0 <= i < |chain| - 1 ==> chain[i].hash in blocks && chain[i] == blocks[chain[i].hash]
    requires forall i :: 0 <= i < |chain| ==> Genuine(cfg, chain[i]) && chain[i] != cfg.anchor
    ensures var w := NilWalk(blocks, end, chain[|chain| - 1]); w.Some? && w.value.1 == base
    decreases |chain|
  {
    hide Genuine, Chained;
    var n := |chain| - 1;
    ChainedHeights(base, chain, n);
    DeeperParent(cfg, chain[n]);
    if n == 0 {
      FirstFollows(base, chain);
    } else {
      FollowsAt(base, chain, n);
      ChainedPrefix(base, chain, n);
      NilWalkBase(cfg, blocks, base, chain[..n], end);
    }
  }

  /** From a chain on top of a higher block that is the lowest in the tree the walk gets stuck. */
  lemma {:induction false} NilWalkStuck(cfg: Config, blocks: map<Hash, BlockInfo>, base: BlockInfo, chain: seq<BlockInfo>, end: nat)
    requires chain != [] && Chained(base, chain) && base.height > end && base.hash in blocks && blocks[base.hash] == base
    requires Genuine(cfg, base) && base != cfg.anchor && Tree(cfg, blocks) && forall h :: h in blocks ==> blocks[h].height >= base.height
    requires forall i :: 0 <= i < |chain| - 1 ==> chain[i].hash in blocks && chain[i] == blocks[chain[i].hash]
    requires forall i :: 0 <= i < |chain| ==> Genuine(cfg, chain[i]) && chain[i] != cfg.anchor
    ensures NilWalk(blocks, end, chain[|chain| - 1]).None?
    decreases |chain|
  {
    var n := |chain| - 1;
    ChainedHeights(base, chain, n);
    DeeperParent(cfg, chain[n]);
    if n == 0 {
      FirstFollows(base, chain);
      if base.parent in blocks {
        GenuineFollows(cfg, blocks[base.parent], base);
      }
    } else {
      FollowsAt(base, chain, n);
      ChainedPrefix(base, chain, n);
      NilWalkStuck(cfg, blocks, base, chain[..n], end);
    }
  }

  lemma FirstFollows(base: BlockInfo, chain: seq<BlockInfo>)
    requires chain != [] && Chained(base, chain)
    ensures Follows(base, chain[0])
  {
    assert Follows(Last(base, chain[..0]), chain[0]);
  }

  lemma {:induction false} NoneReal(base: BlockInfo, chain: seq<BlockInfo>, end: nat)
    requires Chained(base, chain) && base.height >= end
    ensures RealBlocks(chain, end) == []
  {
    hide Chained;
    if chain != [] {
      var n := |chain| - 1;
      ChainedPrefix(base, chain, n);
      NoneReal(base, chain[..n], end);
      ChainedHeights(base, chain, n);
    }
  }

  lemma FollowsAt(base: BlockInfo, chain: seq<BlockInfo>, i: nat)
    requires Chained(base, chain) && 0 < i < |chain|
    ensures Follows(chain[i - 1], chain[i])
  {
    assert Follows(Last(base, chain[..i]), chain[i]);
  }

  lemma DeeperParent(cfg: Config, b: BlockInfo)
    requires Genuine(cfg, b) && b != cfg.anchor
    ensures Depth(b.parent) < Depth(b.hash)
  {
  }

  lemma ChainedPrefix(from: BlockInfo, blocks: seq<BlockInfo>, n: nat)
    requires Chained(from, blocks) && n <= |blocks|
    ensures Chained(from, blocks[..n])
  {
    forall i | 0 <= i < n ensures Follows(Last(from, blocks[..n][..i]), blocks[..n][i]) {
      assert blocks[..n][..i] == blocks[..i];
      assert Follows(Last(from, blocks[..i]), blocks[i]);
    }
  }

  function Fit(base: BlockInfo, chain: seq<BlockInfo>, end: nat): (n: nat)
    requires base.height <= end
    ensures n <= |chain|
  {
    if base.height + |chain| <= end then |chain| else end - base.height
  }

  /** The real blocks of such a chain are its first ones. */
  lemma {:induction false} RealPrefix(base: BlockInfo, chain: seq<BlockInfo>, end: nat)
    requires Chained(base, chain) && base.height <= end
    ensures RealBlocks(chain, end) == chain[..Fit(base, chain, end)]
  {
    hide Chained;
    if chain != [] {
      var n := |chain| - 1;
      var rest := chain[..n];
      ChainedPrefix(base, chain, n);
      RealPrefix(base, rest, end);
      ChainedHeights(base, chain, n);
      assert rest[..Fit(base, rest, end)] == chain[..Fit(base, rest, end)];
      if base.height + |chain| <= end {
        assert chain == rest + [chain[n]];
        assert rest[..n] == rest;
      }
    }
  }

  lemma ReachesGenuine(cfg: Config, blocks: map<Hash, BlockInfo>, base: BlockInfo, chain: seq<BlockInfo>, cur: BlockInfo)
    requires Tree(cfg, blocks) && base.height >= cfg.anchor.height && Reaches(blocks, base, chain, cur) && Genuine(cfg, cur)
    ensures forall i :: 0 <= i < |chain| ==> Genuine(cfg, chain[i]) && chain[i] != cfg.anchor
  {
    hide Chained;
    forall i | 0 <= i < |chain| ensures Genuine(cfg, chain[i]) && chain[i] != cfg.anchor {
      ChainedHeights(base, chain, i);
    }
  }

  /** A commit hands over the whole walk, or ends the epoch at its block of the last height. */
  lemma CommitChainHands(s: State, qc: Qc, b: BlockInfo, p: BlockInfo, pqc: Qc, chain: seq<BlockInfo>)
    requires Tidy(s) && !s.finished && Reaches(s.blocks, s.committed, chain, p)
    requires p.hash in s.blocks && s.blocks[p.hash] == p && b.height == p.height + 1
    ensures var r := CommitChain(s, qc, b, p, pqc, chain);
            && r.s.committed == p
            && Hands(s.cfg.endHeight, s.committed, false, r.out, p, r.s.finished)
            && (!r.s.finished ==> p.height < s.cfg.endHeight)
  {
    if s.committed.height < s.cfg.endHeight {
      CommitChainReal(s, qc, b, p, pqc, chain);
    } else {
      CommitChainPast(s, qc, b, p, pqc, chain);
    }
  }

  /** Committing when the epoch's last block was committed in an earlier life: `EpochEnd` again, or the panic. */
  lemma CommitChainPast(s: State, qc: Qc, b: BlockInfo, p: BlockInfo, pqc: Qc, chain: seq<BlockInfo>)
    requires Tidy(s) && !s.finished && Reaches(s.blocks, s.committed, chain, p) && s.committed.height >= s.cfg.endHeight
    requires p.hash in s.blocks && s.blocks[p.hash] == p && b.height == p.height + 1
    ensures var r := CommitChain(s, qc, b, p, pqc, chain);
            && r.s.committed == p && r.s.finished
            && Hands(s.cfg.endHeight, s.committed, false, r.out, p, true)
  {
    hide Genuine, Chained, NilWalk, RealBlocks, Hands;
    var end, base := s.cfg.endHeight, s.committed;
    NoneReal(base, chain, end);
    ChainedHeights(base, chain, |chain| - 1);
    ReachesGenuine(s.cfg, s.blocks, base, chain, p);
    var t := s.(committed := p,
                blockedCommit := if s.blockedCommit.Some? && s.blockedCommit.value.round <= qc.round
                                 then None else s.blockedCommit);
    if base.height == end {
      NilWalkBase(s.cfg, s.blocks, base, chain, end);
      var proof := ProofFor(t, p, b, pqc, qc).value;
      assert CommitChain(s, qc, b, p, pqc, chain).out == [Action.EpochEnd(base, proof)];
      HandsAgain(end, base, proof, p);
    } else {
      NilWalkStuck(s.cfg, s.blocks, base, chain, end);
      HandsPanic(end, base, p);
    }
  }

  lemma HandsAgain(end: nat, base: BlockInfo, proof: CommitProof, p: BlockInfo)
    requires base.height == end
    ensures Hands(end, base, false, [Action.EpochEnd(base, proof)], p, true)
  {
    var out := [Action.EpochEnd(base, proof)];
    assert out[..0] == [];
    assert Batch(out) == [] && Ends(out) == [base];
  }

  lemma HandsPanic(end: nat, base: BlockInfo, p: BlockInfo)
    requires base.height > end
    ensures Hands(end, base, false, [Abort], p, true)
  {
    var out := [Abort];
    assert out[..0] == [];
    assert Batch(out) == [] && Ends(out) == [];
  }

  lemma CommitChainReal(s: State, qc: Qc, b: BlockInfo, p: BlockInfo, pqc: Qc, chain: seq<BlockInfo>)
    requires Tidy(s) && !s.finished && Reaches(s.blocks, s.committed, chain, p) && s.committed.height < s.cfg.endHeight
    requires p.hash in s.blocks && s.blocks[p.hash] == p && b.height == p.height + 1
    ensures var r := CommitChain(s, qc, b, p, pqc, chain);
            && r.s.committed == p
            && Hands(s.cfg.endHeight, s.committed, false, r.out, p, r.s.finished)
            && (!r.s.finished ==> p.height < s.cfg.endHeight)
  {
    hide Genuine, Chained, NilWalk, RealBlocks, Hands;
    var end := s.cfg.endHeight;
    var base := s.committed;
    RealPrefix(base, chain, end);
    ChainedHeights(base, chain, |chain| - 1);
    var n := Fit(base, chain, end);
    var t := s.(committed := p,
                blockedCommit := if s.blockedCommit.Some? && s.blockedCommit.value.round <= qc.round
                                 then None else s.blockedCommit);
    if b.height <= end {
      assert chain[..n] == chain;
      HandsAll(end, base, chain, ProofFor(t, p, b, pqc, qc).value);
    } else {
      ReachesGenuine(s.cfg, s.blocks, base, chain, p);
      NilWalkFinds(s.cfg, s.blocks, base, chain, end);
      ChainedPrefix(base, chain, n);
      var proof := ProofFor(t, p, b, pqc, qc).value;
      HandsEnd(end, base, chain[..n], proof, p);
      assert CommitChain(s, qc, b, p, pqc, chain).out == [Commit(chain[..n], proof), Action.EpochEnd(chain[n - 1], proof)];
    }
  }

  lemma HandsAll(end: nat, base: BlockInfo, chain: seq<BlockInfo>, proof: CommitProof)
    requires chain != [] && Chained(base, chain) && base.height + |chain| < end
    ensures Hands(end, base, false, [Commit(chain, proof)], chain[|chain| - 1], false)
  {
    OneCommit(chain, proof);
    hide Batch, Ends, Chained;
    forall i | 0 <= i < |chain| ensures chain[i].height == base.height + 1 + i {
      ChainedHeights(base, chain, i);
    }
  }

  lemma HandsEnd(end: nat, base: BlockInfo, blocks: seq<BlockInfo>, proof: CommitProof, p: BlockInfo)
    requires blocks != [] && Chained(base, blocks) && base.height + |blocks| == end
    ensures Hands(end, base, false, [Commit(blocks, proof), Action.EpochEnd(blocks[|blocks| - 1], proof)], p, true)
  {
    CommitAndEnd(blocks, proof, blocks[|blocks| - 1]);
    hide Batch, Ends, Chained;
    forall i | 0 <= i < |blocks| ensures blocks[i].height == base.height + 1 + i {
      ChainedHeights(base, blocks, i);
    }
  }

  lemma OneCommit(blocks: seq<BlockInfo>, proof: CommitProof)
    ensures Batch([Commit(blocks, proof)]) == blocks && Ends([Commit(blocks, proof)]) == []
  {
    var out := [Commit(blocks, proof)];
    assert out[..0] == [];
  }

  lemma CommitAndEnd(blocks: seq<BlockInfo>, proof: CommitProof, last: BlockInfo)
    ensures var out := [Commit(blocks, proof), Action.EpochEnd(last, proof)]; Batch(out) == blocks && Ends(out) == [last]
  {
    OneCommit(blocks, proof);
    var out := [Commit(blocks, proof), Action.EpochEnd(last, proof)];
    assert out[..1] == [Commit(blocks, proof)];
    assert Batch(out[..1]) == blocks && Ends(out[..1]) == [];
  }

  lemma BlockOnAdvances(s: State, qc: Qc, missing: Hash)
    requires Tidy(s)
    ensures Advances(s, BlockOn(s, qc, missing))
  {
    hide Tidy, Advances;
    SameAdvances(s, BlockOn(s, qc, missing));
  }

  lemma TryCommitAdvances(s: State, qc: Qc)
    requires Tidy(s)
    ensures Advances(s, TryCommit(s, qc))
  {
    hide CommitChain, Hands, BlockOn;
    PlainAdvances(s, Result(s, []));
    if s.finished {
    } else if qc.block !in s.blocks {
      BlockOnAdvances(s, qc, qc.block);
    } else {
      var b := s.blocks[qc.block];
      if b.parent !in s.blocks {
        BlockOnAdvances(s, qc, b.parent);
      } else {
        var p := s.blocks[b.parent];
        if p.round + 1 == b.round && p.height > s.committed.height && p.hash in s.qcs {
          var w := WalkBack(s.blocks, s.committed, p);
          if w.Missing? {
            BlockOnAdvances(s, qc, w.h);
          } else if w.Path? {
            WalkChained(s.cfg, s.blocks, s.committed, p);
            GenuineFollows(s.cfg, p, b);
            CommitChainHands(s, qc, b, p, s.qcs[p.hash], w.chain);
            CommitChainTidy(s, qc, b, p, s.qcs[p.hash], w.chain);
          }
        }
      }
    }
  }

  lemma CommitChainTidy(s: State, qc: Qc, b: BlockInfo, p: BlockInfo, pqc: Qc, chain: seq<BlockInfo>)
    requires Tidy(s) && Genuine(s.cfg, p) && p.height > s.committed.height
    requires var r := CommitChain(s, qc, b, p, pqc, chain); !r.s.finished ==> p.height < s.cfg.endHeight
    ensures var r := CommitChain(s, qc, b, p, pqc, chain); Tidy(r.s) && r.s.cfg == s.cfg
  {
  }

  lemma OpenRoundAdvances(s: State)
    requires Tidy(s)
    ensures Advances(s, OpenRound(s))
  {
    hide Genuine;
    PlainAdvances(s, OpenRound(s));
  }

  lemma EnterRoundAdvances(s: State, round: nat, tc: Option<Tc>)
    requires Tidy(s)
    ensures Advances(s, EnterRound(s, round, tc))
  {
    hide TryCommit, OpenRound, Hands;
    Idle(s);
    if round > s.round {
      var t := s.(round := round, entryTc := tc, requested := {});
      if t.blockedCommit.Some? {
        TryCommitAdvances(t, t.blockedCommit.value);
      } else {
        Idle(t);
      }
      var r := if t.blockedCommit.Some? then TryCommit(t, t.blockedCommit.value) else Result(t, []);
      if !r.s.finished {
        OpenRoundAdvances(r.s);
        Compose(t, r, OpenRound(r.s));
      }
    }
  }

  lemma ProcessQcAdvances(s: State, qc: Qc)
    requires Tidy(s)
    ensures Advances(s, ProcessQc(s, qc))
  {
    hide TryCommit, EnterRound, Hands;
    var t := AddQc(s, qc);
    TryCommitAdvances(t, qc);
    var r := TryCommit(t, qc);
    if qc.round >= r.s.round {
      EnterRoundAdvances(r.s, qc.round + 1, None);
      Compose(t, r, EnterRound(r.s, qc.round + 1, None));
    }
  }

  lemma ProcessTcAdvances(s: State, tc: Tc)
    requires Tidy(s)
    ensures Advances(s, ProcessTc(s, tc))
  {
    hide ProcessQc, EnterRound, Hands;
    ProcessQcAdvances(s, tc.highQc);
    var r := ProcessQc(s, tc.highQc);
    if tc.round >= r.s.round {
      EnterRoundAdvances(r.s, tc.round + 1, Some(tc));
      Compose(s, r, EnterRound(r.s, tc.round + 1, Some(tc)));
    }
  }

  lemma OnValidatedAdvances(s: State, block: Hash, valid: bool)
    requires Tidy(s)
    ensures Advances(s, OnValidated(s, block, valid))
  {
    PlainAdvances(s, OnValidated(s, block, valid));
  }

  lemma AbsorbAdvances(s: State, p: Proposal)
    requires Tidy(s) && Genuine(s.cfg, p.block)
    ensures Advances(s, Absorb(s, p))
  {
    hide ProcessQc, ProcessTc, Hands;
    var b := p.block;
    var t := if b.hash !in s.blocks && b.height > s.committed.height
             then s.(blocks := s.blocks[b.hash := b]) else s;
    ProcessQcAdvances(t, p.qc);
    var r := ProcessQc(t, p.qc);
    if p.tc.Some? {
      ProcessTcAdvances(r.s, p.tc.value);
      Compose(t, r, ProcessTc(r.s, p.tc.value));
    }
  }

  lemma OnProposalAdvances(s: State, p: Proposal)
    requires Tidy(s) && Genuine(s.cfg, p.block)
    ensures Advances(s, OnProposal(s, p))
  {
    hide Absorb, Hands, OnValidated, WellFormed, Genuine, Tree;
    PlainAdvances(s, Result(s, []));
    if WellFormed(s.cfg, p) {
      AbsorbAdvances(s, p);
      var r := Absorb(s, p);
      var t := r.s.(pending := r.s.pending[p.block.hash := p]);
      OnValidatedAdvances(t, p.block.hash, true);
      Compose(s, Result(t, r.out), OnValidated(t, p.block.hash, true));
      PlainAdvances(r.s, Result(t, [Validate(p)]));
      Compose(s, r, Result(t, [Validate(p)]));
    }
  }

  lemma CountTimeoutAdvances(s: State, t: Timeout)
    requires Tidy(s)
    ensures Advances(s, CountTimeout(s, t))
  {
    hide ProcessTc, Hands, Entries, ValidatorSet.WeightOf, ValidatorSet.IsQuorum, ValidatorSet.IsOneThird, Sorted,
      Genuine, Tree;
    SameAdvances(s, Result(s, []));
    var ts := if t.round in s.timeouts then s.timeouts[t.round] else TimeoutSet(map[], t.highQc, false);
    if !ts.done {
      var high := if t.highQc.round > ts.highQc.round then t.highQc else ts.highQc;
      var entries := ts.entries[t.signer := Report(t.highQc.round, t.sig)];
      var signers := Sorted(entries.Keys, s.cfg.validators.Len());
      var weight := s.cfg.validators.WeightOf(signers);
      var quorum := s.cfg.validators.IsQuorum(weight);
      var u := s.(timeouts := s.timeouts[t.round := TimeoutSet(entries, high, quorum)]);
      if quorum {
        ProcessTcAdvances(u, Tc(s.cfg.epoch, t.round, high, Entries(entries, signers)));
      } else {
        SameAdvances(s, LocalTimeout(u));
        SameAdvances(s, Result(u, []));
      }
    }
  }

  lemma OnTimeoutMsgAdvances(s: State, t: Timeout)
    requires Tidy(s)
    ensures Advances(s, OnTimeoutMsg(s, t))
  {
    hide ProcessTc, ProcessQc, CountTimeout, Hands, AcceptsTimeout, Tc.Verify, Tidy;
    Idle(s);
    if AcceptsTimeout(s, t) {
      var useTc := && t.lastTc.Some?
                   && t.lastTc.value.round + 1 == t.round
                   && t.lastTc.value.round >= s.round
                   && t.lastTc.value.Verify(s.cfg.Scope());
      var r := if useTc then ProcessTc(s, t.lastTc.value) else Result(s, []);
      if useTc {
        ProcessTcAdvances(s, t.lastTc.value);
      }
      var q := ProcessQc(r.s, t.highQc);
      ProcessQcAdvances(r.s, t.highQc);
      Compose(s, r, q);
      CountTimeoutAdvances(q.s, t);
      Compose(s, q.After(r.out), CountTimeout(q.s, t));
    }
  }

  lemma Idle(s: State)
    requires Tidy(s)
    ensures Advances(s, Result(s, []))
  {
    PlainAdvances(s, Result(s, []));
  }

  lemma OnVoteAdvances(s: State, v: Vote)
    requires Tidy(s)
    ensures Advances(s, OnVote(s, v))
  {
    hide ProcessQc, AddVote, Hands, Genuine, Bitmap.Encode;
    Idle(s);
    var key := (v.round, v.block);
    var vs := if key in s.votes then s.votes[key] else VoteSet(v.height, map[], map[], false);
    var tally := AddVote(s.cfg.validators, VoteMsg(s.cfg.chain, s.cfg.epoch, v.round, v.block),
                         vs, v.height, v.signer, v.sig);
    var t := s.(votes := s.votes[key := tally.votes]);
    PlainAdvances(s, Result(t, []));
    if tally.formed.Some? {
      ProcessQcAdvances(t, Qc(s.cfg.epoch, v.round, v.block, tally.votes.height,
                              Bitmap.Encode(tally.formed.value.signers, s.cfg.validators.Len()),
                              Some(tally.formed.value.agg)));
    }
  }

  /** Block descriptions in an input agree with their hashes. */
  predicate GenuineEvent(cfg: Config, ev: Event) {
    match ev
    case EvMessage(m) => m.ProposalM? ==> Genuine(cfg, m.p.block)
    case EvBlock(b) => Genuine(cfg, b)
    case _ => true
  }

  lemma HandleAdvances(s: State, ev: Event)
    requires Tidy(s) && GenuineEvent(s.cfg, ev)
    ensures Advances(s, Handle(s, ev))
  {
    hide OnProposal, OnVote, OnTimeoutMsg, OnBlock, EnterRound, Advances, Tidy, Genuine, OwnProposal;
    Idle(s);
    match ev
    case EvStart => EnterRoundAdvances(s, s.round + 1, None);
    case EvMessage(m) =>
      match m {
        case ProposalM(p) => OnProposalAdvances(s, p);
        case VoteM(v) => OnVoteAdvances(s, v);
        case TimeoutM(t) => OnTimeoutMsgAdvances(s, t);
      }
    case EvValidated(h, valid) => OnValidatedAdvances(s, h, valid);
    case EvProposed(b, qc, tc, payload) => OnProposedAdvances(s, b, qc, tc, payload);
    case EvTimeout(round) => SameAdvances(s, LocalTimeout(s));
    case EvBlock(b) => OnBlockAdvances(s, b);
  }

  lemma OnProposedAdvances(s: State, b: BlockInfo, qc: Qc, tc: Option<Tc>, payload: seq<nat>)
    requires Tidy(s)
    ensures Advances(s, OnProposed(s, b, qc, tc, payload))
  {
    hide Advances, Tidy;
    SameAdvances(s, OnProposed(s, b, qc, tc, payload));
  }

  lemma OnBlockAdvances(s: State, b: BlockInfo)
    requires Tidy(s) && Genuine(s.cfg, b)
    ensures Advances(s, OnBlock(s, b))
  {
    hide TryCommit, Hands;
    var t := s.(requested := s.requested - {b.hash},
                blocks := if b.height > s.committed.height then s.blocks[b.hash := b] else s.blocks);
    if t.blockedCommit.Some? {
      TryCommitAdvances(t, t.blockedCommit.value);
    } else {
      PlainAdvances(s, Result(t, []));
    }
  }

  // ---- whole lives

  /** State and all actions after feeding inputs to an engine. */
  function Live(s: State, events: seq<Event>): Result {
    if events == [] then Result(s, [])
    else
      var r := Live(s, events[..|events| - 1]);
      Handle(r.s, events[|events| - 1]).After(r.out)
  }

  lemma {:induction false} LiveAdvances(s: State, events: seq<Event>)
    requires Tidy(s) && forall i :: 0 <= i < |events| ==> GenuineEvent(s.cfg, events[i])
    ensures Advances(s, Live(s, events))
  {
    hide Hands, Handle, Tidy, GenuineEvent;
    if events == [] {
      Idle(s);
    } else {
      var r := Live(s, events[..|events| - 1]);
      LiveAdvances(s, events[..|events| - 1]);
      HandleAdvances(r.s, events[|events| - 1]);
      Compose(s, r, Handle(r.s, events[|events| - 1]));
    }
  }

  /** What one life leaves, in terms of where it starts: one gap-free chain of real blocks, `EpochEnd` at most
      once and for the block of the last height, the panic only in a life that starts past that height. */
  ghost predicate LifeLedger(end: nat, from: BlockInfo, r: Result) {
    var bs := Batch(r.out);
    && Chained(from, bs)
    && (forall i :: 0 <= i < |bs| ==> bs[i].height == from.height + 1 + i <= end)
    && (!r.s.finished ==> r.s.committed == Last(from, bs) && (from.height < end ==> r.s.committed.height < end))
    && Ends(r.out) == (if r.s.finished && from.height <= end then [Last(from, bs)] else [])
    && (r.s.finished && from.height <= end ==> Last(from, bs).height == end)
    && (Abort in r.out <==> r.s.finished && from.height > end)
  }

  lemma LifeExact(s: State, events: seq<Event>)
    requires Tidy(s) && !s.finished && forall i :: 0 <= i < |events| ==> GenuineEvent(s.cfg, events[i])
    ensures LifeLedger(s.cfg.endHeight, s.committed, Live(s, events))
  {
    LiveAdvances(s, events);
    hide Live, Tidy, GenuineEvent;
    HandsLedger(s, Live(s, events));
  }

  lemma HandsLedger(s: State, r: Result)
    requires !s.finished && Hands(s.cfg.endHeight, s.committed, false, r.out, r.s.committed, r.s.finished)
    ensures LifeLedger(s.cfg.endHeight, s.committed, r)
  {
    var bs := Batch(r.out);
    hide Batch, Ends;
    forall i | 0 <= i < |bs| ensures bs[i].height == s.committed.height + 1 + i {
      ChainedHeights(s.committed, bs, i);
    }
  }

  /** The ledger of one life from a fresh start: one gap-free parent-linked chain from the anchor
      without nil blocks; `EpochEnd` at most once, for exactly its block of the last height; the
      source's panic never happens. */
  lemma FreshLedger(cfg: Config, events: seq<Event>)
    requires cfg.anchor.round == 0 && cfg.anchor.height < cfg.endHeight
    requires forall i :: 0 <= i < |events| ==> GenuineEvent(cfg, events[i])
    ensures var r := Live(New(cfg), events);
            && Chained(cfg.anchor, Batch(r.out))
            && (forall i :: 0 <= i < |Batch(r.out)| ==> Batch(r.out)[i].height == cfg.anchor.height + 1 + i <= cfg.endHeight)
            && (r.s.finished <==> |Batch(r.out)| == cfg.endHeight - cfg.anchor.height)
            && Ends(r.out) == (if r.s.finished then [Batch(r.out)[|Batch(r.out)| - 1]] else [])
            && (!r.s.finished ==> r.s.committed == Last(cfg.anchor, Batch(r.out)))
            && Abort !in r.out
  {
    assert Tidy(New(cfg));
    hide Live, Genuine, Tidy;
    LifeExact(New(cfg), events);
    var r := Live(New(cfg), events);
    assert r.s.finished ==> Batch(r.out) != [];
  }
}
