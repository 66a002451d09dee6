/** When the fork choice switches branches, and to what: the exact conditions of a reorganisation, of a
    checkpoint and of an import, in terms of the blocks alone. */
module ForkExact {
  import opened Options
  import opened ForkSpec
  import opened ForkProofs
  import opened ForkOrder
  import opened ForkValid

  // ---- branches

  /** `branch` leads from the canonical block of height `fork`, which is no side block, through side blocks to
      `tip`. */
  ghost predicate Leaves(c: Chain, tip: nat, fork: nat, branch: seq<Entry>) {
    && fork < |c.canon| && c.canon[fork].b.hash !in c.side
    && branch != [] && branch[|branch| - 1].b.hash == tip
    && Linked(branch, c.canon[fork].b.hash)
    && forall i :: 0 <= i < |branch| ==> branch[i].b.hash in c.side && c.side[branch[i].b.hash] == branch[i]
  }

  /** Each block of the branch executes on the blocks below it. */
  ghost predicate Runs(r: Rules, below: seq<Block>, branch: seq<Entry>) {
    forall i :: 0 <= i < |branch| ==> r.exec(below + Blocks(branch[..i]), branch[i].b)
  }

  /** The branch may replace the canonical blocks above its fork: they are not finalized, at most 128, none of
      them from the PoS committee, and the branch executes. */
  ghost predicate Switchable(r: Rules, c: Chain, tip: nat, fork: nat, branch: seq<Entry>) {
    && Leaves(c, tip, fork, branch)
    && (c.fin.Some? ==> c.fin.value.number <= fork)
    && |c.canon| - 1 - fork <= MAX_REORG_DEPTH
    && (forall n :: fork < n < |c.canon| ==> c.canon[n].b.difficulty != 0)
    && Runs(r, Blocks(c.canon[..fork + 1]), branch)
  }

  lemma LinkedLess(branch: seq<Entry>, base: nat)
    requires branch != [] && Linked(branch, base)
    ensures Linked(branch[..|branch| - 1], base)
    ensures branch[|branch| - 1].b.parent == if |branch| == 1 then base else branch[|branch| - 2].b.hash
  {
    var m := |branch| - 1;
    var less := branch[..m];
    assert branch[m].b.parent == Below(branch, base, m);
    forall i | 0 <= i < m ensures less[i].b.parent == Below(less, base, i) {
      assert branch[i].b.parent == Below(branch, base, i);
    }
  }

  lemma SideRank(u: map<nat, Block>, g: Block, side: map<nat, Entry>, h: nat)
    requires Universe(u, g) && SideOk(u, g, side) && h in side
    ensures Rank(side, side[h].b.parent) < Rank(side, h) && side[h].b.hash == h
  {
    assert SideEntryOk(u, g, side[h]);
  }

  lemma GatherStep(u: map<nat, Block>, g: Block, side: map<nat, Entry>, h: nat)
    requires Universe(u, g) && SideOk(u, g, side) && h in side
    ensures var a := Gather(side, side[h].b.parent); Gather(side, h) == Gathered(a.branch + [side[h]], a.base)
  {
    SideRank(u, g, side, h);
    hide SideOk, Universe;
  }

  lemma GatherNone(side: map<nat, Entry>, h: nat)
    requires h !in side
    ensures Gather(side, h) == Gathered([], h)
  {
  }

  /** Gathering finds the branch. */
  lemma {:induction false} GatherFinds(u: map<nat, Block>, g: Block, side: map<nat, Entry>, base: nat, branch: seq<Entry>)
    requires Universe(u, g) && SideOk(u, g, side) && base !in side && branch != [] && Linked(branch, base)
    requires forall i :: 0 <= i < |branch| ==> branch[i].b.hash in side && side[branch[i].b.hash] == branch[i]
    ensures Gather(side, branch[|branch| - 1].b.hash) == Gathered(branch, base)
    decreases |branch|
  {
    hide SideOk, Linked, Universe, Gather;
    var m := |branch| - 1;
    var tip := branch[m].b.hash;
    LinkedLess(branch, base);
    GatherStep(u, g, side, tip);
    if m == 0 {
      GatherNone(side, base);
      assert branch == [] + [branch[0]];
    } else {
      GatherFinds(u, g, side, base, branch[..m]);
      assert branch == branch[..m] + [branch[m]];
    }
  }

  /** What gathering finds is a branch. */
  lemma {:induction false} GatherIsBranch(u: map<nat, Block>, g: Block, side: map<nat, Entry>, tip: nat)
    requires Universe(u, g) && SideOk(u, g, side)
    ensures var a := Gather(side, tip);
            && a.base !in side && Linked(a.branch, a.base)
            && (forall i :: 0 <= i < |a.branch| ==> a.branch[i].b.hash in side && side[a.branch[i].b.hash] == a.branch[i])
            && tip == (if a.branch == [] then a.base else a.branch[|a.branch| - 1].b.hash)
            && (a.branch == [] <==> tip !in side)
    decreases Rank(side, tip)
  {
    if tip in side {
      SideRank(u, g, side, tip);
      var e := side[tip];
      hide SideOk, Universe, Linked;
      GatherIsBranch(u, g, side, e.b.parent);
      var a := Gather(side, e.b.parent);
      LinkedPush(a.branch, a.base, e);
    }
  }

  lemma LeavesGathered(u: map<nat, Block>, g: Block, r: Rules, c: Chain, tip: nat, fork: nat, branch: seq<Entry>)
    requires Ok(u, g, r, c) && Leaves(c, tip, fork, branch)
    ensures Gather(c.side, tip) == Gathered(branch, c.canon[fork].b.hash) && NumberOf(c.canon, c.canon[fork].b.hash) == Some(fork)
  {
    GatherFinds(u, g, c.side, c.canon[fork].b.hash, branch);
    OneNumber(u, g, r, c.canon, fork);
  }

  lemma OneNumber(u: map<nat, Block>, g: Block, r: Rules, canon: seq<Entry>, n: nat)
    requires Universe(u, g) && CanonOk(u, g, r, canon) && n < |canon|
    ensures NumberOf(canon, canon[n].b.hash) == Some(n)
  {
    HeadNumber(u, g, r, canon);
    hide CanonOk;
    var o := NumberOf(canon, canon[n].b.hash);
    assert canon[n].b.hash == canon[n].b.hash;
    assert o.Some?;
  }

  // ---- replaying a branch

  lemma RunsFirst(r: Rules, below: seq<Block>, branch: seq<Entry>)
    requires branch != []
    ensures Runs(r, below, branch) <==> r.exec(below, branch[0].b) && Runs(r, below + [branch[0].b], branch[1..])
  {
    var rest := branch[1..];
    assert Blocks(branch[..0]) == [] && below + [] == below;
    forall i | 0 <= i < |rest| ensures below + Blocks(branch[..i + 1]) == below + [branch[0].b] + Blocks(rest[..i]) && rest[i] == branch[i + 1] {
      assert Blocks(branch[..i + 1]) == [branch[0].b] + Blocks(rest[..i]);
    }
    if Runs(r, below, branch) {
      assert r.exec(below + Blocks(branch[..0]), branch[0].b);
      forall i | 0 <= i < |rest| ensures r.exec(below + [branch[0].b] + Blocks(rest[..i]), rest[i].b) {
        assert r.exec(below + Blocks(branch[..i + 1]), branch[i + 1].b);
      }
    }
    if r.exec(below, branch[0].b) && Runs(r, below + [branch[0].b], rest) {
      forall i | 0 <= i < |branch| ensures r.exec(below + Blocks(branch[..i]), branch[i].b) {
        if i > 0 {
          assert r.exec(below + [branch[0].b] + Blocks(rest[..i - 1]), rest[i - 1].b);
        }
      }
    }
  }

  /** A side block whose parent is the head imports exactly when it executes, with its own total difficulty. */
  lemma ChildExactly(u: map<nat, Block>, g: Block, r: Rules, c: Chain, e: Entry)
    requires Universe(u, g) && CanonOk(u, g, r, c.canon) && SideEntryOk(u, g, e) && e.b.parent == c.canon[|c.canon| - 1].b.hash
    ensures var o := ImportFinal(r, c, e.b);
            && (o.Some? <==> r.exec(Blocks(c.canon), e.b))
            && (o.Some? ==> o.value.canon == c.canon + [e] && CanonOk(u, g, r, o.value.canon))
  {
    CanonIn(u, g, r, c.canon, |c.canon| - 1);
    if ImportFinal(r, c, e.b).Some? {
      AppendOk(u, g, r, c.canon, e.b);
    }
  }

  lemma BlocksPush(canon: seq<Entry>, e: Entry)
    ensures Blocks(canon + [e]) == Blocks(canon) + [e.b]
  {
  }

  lemma ReplayFirst(r: Rules, c: Chain, branch: seq<Entry>)
    requires c.canon != [] && branch != []
    ensures var o := ImportFinal(r, c, branch[0].b);
            if o.None? then Replay(r, c, branch) == Played(c, 0)
            else
              && o.value.canon != []
              && var p := Replay(r, o.value.(side := o.value.side - {branch[0].b.hash}), branch[1..]);
                 Replay(r, c, branch) == Played(p.c, p.n + 1)
  {
  }

  /** The branch replays in full exactly when it executes, and then the chain ends with it. */
  ghost predicate ReplaysAs(r: Rules, c: Chain, branch: seq<Entry>)
    requires c.canon != []
  {
    var p := Replay(r, c, branch);
    (p.n == |branch| <==> Runs(r, Blocks(c.canon), branch)) && (p.n == |branch| ==> p.c.canon == c.canon + branch)
  }

  lemma ReplaysNothing(r: Rules, c: Chain)
    requires c.canon != []
    ensures ReplaysAs(r, c, [])
  {
    assert c.canon + [] == c.canon;
  }

  lemma ReplaysMore(r: Rules, c: Chain, branch: seq<Entry>, d: Chain)
    requires c.canon != [] && branch != [] && r.exec(Blocks(c.canon), branch[0].b)
    requires ImportFinal(r, c, branch[0].b).Some? && d == ImportFinal(r, c, branch[0].b).value
    requires d.canon == c.canon + [branch[0]] && ReplaysAs(r, d.(side := d.side - {branch[0].b.hash}), branch[1..])
    ensures ReplaysAs(r, c, branch)
  {
    RunsFirst(r, Blocks(c.canon), branch);
    BlocksPush(c.canon, branch[0]);
    ReplayFirst(r, c, branch);
    hide Runs, Replay, Blocks, ImportFinal;
    assert c.canon + [branch[0]] + branch[1..] == c.canon + branch;
  }

  lemma ReplaysNot(r: Rules, c: Chain, branch: seq<Entry>)
    requires c.canon != [] && branch != [] && !r.exec(Blocks(c.canon), branch[0].b) && ImportFinal(r, c, branch[0].b).None?
    ensures ReplaysAs(r, c, branch)
  {
    RunsFirst(r, Blocks(c.canon), branch);
    ReplayFirst(r, c, branch);
    hide Runs, Replay, Blocks, ImportFinal;
  }

  lemma {:induction false} ReplayExactly(u: map<nat, Block>, g: Block, r: Rules, c: Chain, branch: seq<Entry>)
    requires Universe(u, g) && CanonOk(u, g, r, c.canon) && Linked(branch, c.canon[|c.canon| - 1].b.hash)
    requires forall i :: 0 <= i < |branch| ==> SideEntryOk(u, g, branch[i])
    ensures c.canon != [] && ReplaysAs(r, c, branch)
    decreases |branch|
  {
    CanonFits(u, g, r, c.canon);
    hide CanonOk, ImportFinal, SideEntryOk, Linked, Universe, Blocks, ReplaysAs;
    if branch == [] {
      ReplaysNothing(r, c);
    } else {
      LinkedRest(branch, c.canon[|c.canon| - 1].b.hash);
      ChildExactly(u, g, r, c, branch[0]);
      var o := ImportFinal(r, c, branch[0].b);
      if o.Some? {
        var d := o.value.(side := o.value.side - {branch[0].b.hash});
        assert d.canon[|d.canon| - 1] == branch[0];
        ReplayExactly(u, g, r, d, branch[1..]);
        ReplaysMore(r, c, branch, o.value);
      } else {
        ReplaysNot(r, c, branch);
      }
    }
  }

  // ---- reorganisations

  lemma BranchReplays(u: map<nat, Block>, g: Block, r: Rules, c: Chain, tip: nat, fork: nat, branch: seq<Entry>)
    requires Ok(u, g, r, c) && Leaves(c, tip, fork, branch)
    ensures var p := Replay(r, c.(canon := c.canon[..fork + 1]), branch);
            && (p.n == |branch| <==> Runs(r, Blocks(c.canon[..fork + 1]), branch))
            && (p.n == |branch| ==> p.c.canon == c.canon[..fork + 1] + branch)
  {
    hide CanonOk, SideOk, Replay, Runs, SideEntryOk, Linked, Blocks;
    PrefixOk(u, g, r, c.canon, fork + 1);
    BranchOk(u, g, r, c, tip, fork, branch);
    var start := c.(canon := c.canon[..fork + 1]);
    assert start.canon[|start.canon| - 1].b.hash == c.canon[fork].b.hash;
    ReplayExactly(u, g, r, start, branch);
  }

  lemma BranchOk(u: map<nat, Block>, g: Block, r: Rules, c: Chain, tip: nat, fork: nat, branch: seq<Entry>)
    requires Ok(u, g, r, c) && Leaves(c, tip, fork, branch)
    ensures forall i :: 0 <= i < |branch| ==> SideEntryOk(u, g, branch[i])
  {
    hide CanonOk, Linked, SideEntryOk;
    forall i | 0 <= i < |branch| ensures SideEntryOk(u, g, branch[i]) {
      assert branch[i].b.hash in c.side;
    }
  }

  /** Given the branch, the reorganisation happens exactly when it may, and the chain then ends with it. */
  lemma ReorgGiven(u: map<nat, Block>, g: Block, r: Rules, c: Chain, tip: nat, fork: nat, branch: seq<Entry>)
    requires Ok(u, g, r, c) && Leaves(c, tip, fork, branch)
    ensures c.canon != []
    ensures var x := ReorgTo(r, c, tip);
            && (x.Done? <==> Switchable(r, c, tip, fork, branch))
            && (x.Done? ==> x.c.canon == c.canon[..fork + 1] + branch && x.depth == |c.canon| - 1 - fork)
  {
    hide Ok, Leaves, Replay, Runs, ReorgTo;
    OkFits(u, g, r, c);
    assert fork < |c.canon| by { LeavesFits(c, tip, fork, branch); }
    LeavesGathered(u, g, r, c, tip, fork, branch);
    BranchReplays(u, g, r, c, tip, fork, branch);
    ReorgCases(r, c, tip, fork, branch);
  }

  lemma LeavesFits(c: Chain, tip: nat, fork: nat, branch: seq<Entry>)
    requires Leaves(c, tip, fork, branch)
    ensures fork < |c.canon|
  {
  }

  lemma ReorgCases(r: Rules, c: Chain, tip: nat, fork: nat, branch: seq<Entry>)
    requires c.canon != [] && fork < |c.canon|
    requires Gather(c.side, tip) == Gathered(branch, c.canon[fork].b.hash) && NumberOf(c.canon, c.canon[fork].b.hash) == Some(fork)
    ensures var x, p := ReorgTo(r, c, tip), Replay(r, c.(canon := c.canon[..fork + 1]), branch);
            && (x.Done? <==>
                  && (c.fin.Some? ==> c.fin.value.number <= fork) && |c.canon| - 1 - fork <= MAX_REORG_DEPTH
                  && !PosAbove(c.canon, fork) && p.n == |branch|)
            && (x.Done? ==> x.c.canon == p.c.canon && x.depth == |c.canon| - 1 - fork)
  {
    hide Replay, Restore, Gather, AddSide, NumberOf, PosAbove, Hashes;
  }

  /** A reorganisation to a side block happens exactly when its branch is known down to the chain and may
      replace the blocks above its fork. */
  lemma ReorgExactly(u: map<nat, Block>, g: Block, r: Rules, c: Chain, tip: nat)
    requires Ok(u, g, r, c) && tip in c.side
    ensures c.canon != []
    ensures ReorgTo(r, c, tip).Done? <==> exists fork, branch :: Switchable(r, c, tip, fork, branch)
    ensures forall fork, branch :: Switchable(r, c, tip, fork, branch) ==> ReorgTo(r, c, tip).c.canon == c.canon[..fork + 1] + branch
  {
    OkFits(u, g, r, c);
    forall fork, branch | Switchable(r, c, tip, fork, branch)
      ensures ReorgTo(r, c, tip).Done? && ReorgTo(r, c, tip).c.canon == c.canon[..fork + 1] + branch
    {
      ReorgGiven(u, g, r, c, tip, fork, branch);
    }
    GatherIsBranch(u, g, c.side, tip);
    var a := Gather(c.side, tip);
    var o := NumberOf(c.canon, a.base);
    if o.Some? {
      assert Leaves(c, tip, o.value, a.branch);
      ReorgGiven(u, g, r, c, tip, o.value, a.branch);
    } else {
      NoFork(r, c, tip);
    }
  }

  lemma NoFork(r: Rules, c: Chain, tip: nat)
    requires c.canon != [] && NumberOf(c.canon, Gather(c.side, tip).base).None?
    ensures !ReorgTo(r, c, tip).Done?
  {
  }

  /** `is_final` says exactly whether a branch that forks just below a block and executes may replace it, as
      long as no later block comes from the PoS committee. */
  lemma ReplaceableExactly(u: map<nat, Block>, g: Block, r: Rules, pos: (seq<Block>, nat) -> bool, c: Chain, tip: nat, n: nat, branch: seq<Entry>)
    requires Ok(u, g, r, c) && PhaseRule(r, pos) && 0 < n < |c.canon|
    requires Leaves(c, tip, n - 1, branch) && Runs(r, Blocks(c.canon[..n]), branch)
    ensures ReorgTo(r, c, tip).Done? <==> !IsFinal(pos, c, n) && forall m :: n < m < |c.canon| ==> !pos(Blocks(c.canon), m)
  {
    hide Ok, PhaseRule, Leaves, Runs, ReorgTo, Blocks, Switchable;
    ReorgGiven(u, g, r, c, tip, n - 1, branch);
    SwitchableIs(r, c, tip, n, branch);
    PhasesExactly(u, g, r, pos, c);
  }

  lemma PhasesExactly(u: map<nat, Block>, g: Block, r: Rules, pos: (seq<Block>, nat) -> bool, c: Chain)
    requires Ok(u, g, r, c) && PhaseRule(r, pos)
    ensures forall m :: 0 < m < |c.canon| ==> (pos(Blocks(c.canon), m) <==> c.canon[m].b.difficulty == 0)
  {
    hide PhaseRule, CanonOk, Blocks;
    forall m | 0 < m < |c.canon| ensures pos(Blocks(c.canon), m) <==> c.canon[m].b.difficulty == 0 {
      PhaseOfHeight(u, g, r, pos, c.canon, m);
    }
  }

  lemma SwitchableIs(r: Rules, c: Chain, tip: nat, n: nat, branch: seq<Entry>)
    requires 0 < n < |c.canon| && Leaves(c, tip, n - 1, branch) && Runs(r, Blocks(c.canon[..n]), branch)
    ensures Switchable(r, c, tip, n - 1, branch) <==>
            && (c.fin.Some? ==> c.fin.value.number < n) && |c.canon| - 1 < n + MAX_REORG_DEPTH
            && forall m :: n <= m < |c.canon| ==> c.canon[m].b.difficulty != 0
  {
    hide Leaves, Runs, Blocks;
    assert c.canon[..n - 1 + 1] == c.canon[..n];
  }

  /** Extending the chain keeps exactly the side blocks less than 128 below the new head, and a checkpoint
      exactly those above it. */
  lemma SideKept(r: Rules, c: Chain, b: Block, hash: nat, height: nat)
    requires c.canon != []
    ensures var o := ImportFinal(r, c, b);
            o.Some? ==> forall h :: h in o.value.side <==> h in c.side && c.side[h].b.number > 0 && c.side[h].b.number + MAX_REORG_DEPTH > b.number
    ensures var f := Finalize(r, c, hash, height);
            f.Changed? && NumberOf(c.canon, hash).Some? ==> forall h :: h in f.c.side <==> h in c.side && c.side[h].b.number > height
  {
    hide ReorgTo;
  }

  // ---- checkpoints

  /** A checkpoint above the finalized block, for a known block of its height, is recorded exactly when the
      block is canonical or its branch may replace the blocks above its fork, whatever the work. Then the
      chain contains the block, and its branch if it had to switch. */
  lemma CheckpointExactly(u: map<nat, Block>, g: Block, r: Rules, c: Chain, hash: nat, height: nat)
    requires Ok(u, g, r, c) && Locate(c, hash).Some? && Locate(c, hash).value.entry.b.number == height
    requires c.fin.Some? ==> c.fin.value.number < height
    ensures c.canon != []
    ensures var f, canonical := Finalize(r, c, hash, height), NumberOf(c.canon, hash).Some?;
            && (f.Changed? <==> canonical || exists fork, branch :: Switchable(r, c, hash, fork, branch))
            && (f.Changed? ==> f.c.fin == Some(Mark(height, hash)))
            && (f.Changed? && canonical ==> f.c.canon == c.canon)
            && (forall fork, branch :: !canonical && Switchable(r, c, hash, fork, branch) ==> f.Changed? && f.c.canon == c.canon[..fork + 1] + branch)
  {
    OkFits(u, g, r, c);
    hide Ok, Switchable, ReorgTo;
    if NumberOf(c.canon, hash).None? {
      ReorgExactly(u, g, r, c, hash);
    }
  }

  // ---- imports

  /** Blocks that are known, come too early, have no known parent or fork below the checkpoint change nothing. */
  lemma ImportRefuses(r: Rules, c: Chain, b: Block, now: nat)
    requires c.canon != []
    requires var p := Locate(c, b.parent);
             || Locate(c, b.hash).Some? || b.time > now + MAX_FUTURE_SECONDS || p.None?
             || (c.fin.Some? && p.value.canonical && p.value.entry.b.number < c.fin.value.number)
    ensures var i := ImportMined(r, c, b, now); i.c == c && (i.outcome == Known <==> Locate(c, b.hash).Some?) && (i.outcome == Known || i.outcome.Rejected?)
  {
  }

  /** Every other import: a child of the head extends the chain exactly when it is valid there; another block
      with a good header waits on the side while it loses, and otherwise takes over exactly when its branch
      may replace the blocks above its fork. */
  lemma ImportExactly(u: map<nat, Block>, g: Block, r: Rules, c: Chain, b: Block, now: nat)
    requires Ok(u, g, r, c) && In(u, b) && Locate(c, b.hash).None? && Locate(c, b.parent).Some?
    requires b.time <= now + MAX_FUTURE_SECONDS
    requires var p := Locate(c, b.parent).value; c.fin.Some? && p.canonical ==> p.entry.b.number >= c.fin.value.number
    ensures c.canon != []
    ensures var i, d, up := ImportMined(r, c, b, now), Inserted(c, b), Locate(c, b.parent).value.entry.b;
            if b.parent == c.Head().b.hash then
              && (i.outcome == Extended <==> b.difficulty > 0 && b.number == up.number + 1 && b.time > up.time && r.exec(Blocks(c.canon), b))
              && (i.outcome == Extended || i.outcome.Rejected?)
              && (i.outcome == Extended ==> Blocks(i.c.canon) == Blocks(c.canon) + [b])
            else if !HeaderOk(r, c, b, up) then i.outcome.Rejected?
            else if Loses(d.side[b.hash], c.Head()) then i == Imported(d, OnSide)
            else
              && (i.outcome.Reorged? <==> exists fork, branch :: Switchable(r, d, b.hash, fork, branch))
              && (i.outcome.Reorged? || i.outcome.Rejected?)
              && forall fork, branch :: Switchable(r, d, b.hash, fork, branch) ==> i.c.canon == c.canon[..fork + 1] + branch
  {
    OkFits(u, g, r, c);
    LocatedOk(u, g, r, c, b.parent);
    var up := Locate(c, b.parent).value.entry.b;
    if b.parent == c.Head().b.hash {
      CanonIn(u, g, r, c.canon, |c.canon| - 1);
      hide Ok;
    } else if HeaderOk(r, c, b, up) {
      SideInsertOk(u, g, r, c, b, Locate(c, b.parent).value);
      hide Ok, HeaderOk, Loses, Switchable, ReorgTo;
      ReorgExactly(u, g, r, Inserted(c, b), b.hash);
    }
  }
}
