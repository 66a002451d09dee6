/** Order independence from the blocks alone: valid mined blocks whose forks stay within 128 blocks of each
    other, parents before children, are all accepted and all kept, in whatever order they come. */
module ForkValid {
  import opened Options
  import opened ForkSpec
  import opened ForkProofs
  import opened ForkOrder

  /** The blocks from genesis to `h`. */
  function Branch(u: map<nat, Block>, g: Block, h: nat): seq<Block>
    decreases Height(u, h)
  {
    if h == g.hash then [g]
    else if h !in u || Height(u, u[h].parent) >= Height(u, h) then []
    else Branch(u, g, u[h].parent) + [u[h]]
  }

  /** The block of height `n` below `h`, or `h` itself if it is no higher. */
  function Ancestor(u: map<nat, Block>, h: nat, n: nat): nat
    decreases Height(u, h)
  {
    if h !in u || u[h].number <= n || Height(u, u[h].parent) >= Height(u, h) then h
    else Ancestor(u, u[h].parent, n)
  }

  /** `x` lies on the branch of `y`. */
  predicate OnBranch(u: map<nat, Block>, x: nat, y: nat) {
    x in u && Ancestor(u, y, u[x].number) == x
  }

  /** `x` forks off the branch of `y` at most 128 blocks below `y`. */
  predicate Close(u: map<nat, Block>, x: nat, y: nat) {
    x in u && y in u &&
    (u[y].number > MAX_REORG_DEPTH ==>
       var n := u[y].number - MAX_REORG_DEPTH;
       u[x].number > n && Ancestor(u, x, n) == Ancestor(u, y, n))
  }

  /** A mined block that follows its parent and runs on its own branch. */
  ghost predicate ValidBlock(u: map<nat, Block>, g: Block, r: Rules, b: Block) {
    && In(u, b) && b.hash != g.hash && b.parent in u
    && b.number == u[b.parent].number + 1
    && b.time > u[b.parent].time
    && b.difficulty > 0
    && r.exec(Branch(u, g, b.parent), b)
  }

  /** A set of valid blocks that holds the parent of each. Their headers pass whichever of the blocks is the
      head, and any two blocks lie on one branch or fork close to each other. */
  ghost predicate Family(u: map<nat, Block>, g: Block, r: Rules, all: set<nat>) {
    && Universe(u, g)
    && g.hash in all
    && (forall h :: h in all && h != g.hash ==> h in u && ValidBlock(u, g, r, u[h]) && u[h].parent in all)
    && (forall h, t :: h in all && h != g.hash && t in all ==> r.header(Branch(u, g, t), u[h], u[u[h].parent]))
    && (forall x, y :: x in all && y in all ==> OnBranch(u, x, y) || OnBranch(u, y, x) || Close(u, x, y))
  }

  /** A block of the family other than genesis. */
  ghost predicate Member(u: map<nat, Block>, g: Block, all: set<nat>, b: Block) {
    In(u, b) && b.hash in all && b.hash != g.hash
  }

  lemma MemberValid(u: map<nat, Block>, g: Block, r: Rules, all: set<nat>, b: Block)
    requires Family(u, g, r, all) && Member(u, g, all, b)
    ensures ValidBlock(u, g, r, b) && b.parent in all && b.difficulty > 0
    ensures b.parent in u && b.number == u[b.parent].number + 1 && b.parent != b.hash
  {
  }

  lemma FamilyUniverse(u: map<nat, Block>, g: Block, r: Rules, all: set<nat>)
    requires Family(u, g, r, all)
    ensures Universe(u, g)
  {
  }

  lemma FamilyPair(u: map<nat, Block>, g: Block, r: Rules, all: set<nat>, x: nat, y: nat)
    requires Family(u, g, r, all) && x in all && y in all
    ensures OnBranch(u, x, y) || OnBranch(u, y, x) || Close(u, x, y)
  {
  }

  /** No canonical block is also a side block. */
  ghost predicate Disjoint(c: Chain) {
    forall i :: 0 <= i < |c.canon| ==> c.canon[i].b.hash !in c.side
  }

  /** The side blocks are blocks of the family. */
  ghost predicate SideIn(u: map<nat, Block>, all: set<nat>, side: map<nat, Entry>) {
    forall h :: h in side ==> h in all && h in u && side[h].b == u[h] && u[h].number > 0
  }

  ghost predicate Knows(c: Chain, hs: set<nat>) {
    forall h :: h in hs ==> KnowsHash(c, h)
  }

  /** A part of the family with the parent of each of its blocks. */
  ghost predicate Closed(u: map<nat, Block>, g: Block, hs: set<nat>, all: set<nat>) {
    hs <= all && g.hash in hs && forall h :: h in hs && h != g.hash ==> h in u && u[h].parent in hs
  }

  /** All of `hs`, and nothing else, is known; no checkpoint. */
  ghost predicate Holds(u: map<nat, Block>, g: Block, r: Rules, c: Chain, hs: set<nat>, all: set<nat>) {
    && Good(u, g, r, c, hs) && Family(u, g, r, all) && Closed(u, g, hs, all)
    && c.fin == None && Knows(c, hs) && Disjoint(c)
  }

  lemma {:induction false} CanonIsBranch(u: map<nat, Block>, g: Block, r: Rules, canon: seq<Entry>)
    requires Universe(u, g) && CanonOk(u, g, r, canon)
    ensures Blocks(canon) == Branch(u, g, canon[|canon| - 1].b.hash)
    decreases |canon|
  {
    var m := |canon| - 1;
    if m > 0 {
      assert LinkOk(u, g, r, canon, m);
      CanonIn(u, g, r, canon, m);
      CanonIn(u, g, r, canon, m - 1);
      PrefixOk(u, g, r, canon, m);
      CanonIsBranch(u, g, r, canon[..m]);
      assert Blocks(canon) == Blocks(canon[..m]) + [canon[m].b];
    } else {
      assert Blocks(canon) == [g];
    }
  }

  /** The canonical blocks are the ancestors of the head. */
  lemma {:induction false} CanonAncestor(u: map<nat, Block>, g: Block, r: Rules, canon: seq<Entry>, k: nat)
    requires Universe(u, g) && CanonOk(u, g, r, canon) && k < |canon|
    ensures Ancestor(u, canon[|canon| - 1].b.hash, k) == canon[k].b.hash
    decreases |canon|
  {
    var m := |canon| - 1;
    CanonIn(u, g, r, canon, m);
    if k < m {
      assert LinkOk(u, g, r, canon, m);
      CanonIn(u, g, r, canon, m - 1);
      PrefixOk(u, g, r, canon, m);
      hide CanonOk;
      CanonAncestor(u, g, r, canon[..m], k);
    }
  }

  // ---- children of the head import

  /** A lower side block is not an ancestor of the next block. */
  lemma SideApart(u: map<nat, Block>, g: Block, r: Rules, c: Chain, b: Block, x: nat)
    requires Universe(u, g) && CanonOk(u, g, r, c.canon) && Disjoint(c) && x in c.side && x in u
    requires In(u, b) && b.parent in u && b.number == u[b.parent].number + 1 && b.parent == c.canon[|c.canon| - 1].b.hash
    ensures u[x].number < b.number ==> !OnBranch(u, x, b.hash) && !OnBranch(u, b.hash, x)
  {
    hide Ancestor;
    var n, top := u[x].number, |c.canon| - 1;
    CanonIn(u, g, r, c.canon, top);
    AncestorStep(u, b, n);
    if n < b.number {
      CanonAncestor(u, g, r, c.canon, n);
      AncestorSelf(u, x, b.number);
    }
  }

  /** No side block is too old for the next block. */
  lemma SideYoung(u: map<nat, Block>, g: Block, r: Rules, all: set<nat>, c: Chain, b: Block, x: nat)
    requires Family(u, g, r, all) && CanonOk(u, g, r, c.canon) && SideIn(u, all, c.side) && Disjoint(c)
    requires Member(u, g, all, b) && b.parent == c.canon[|c.canon| - 1].b.hash && x in c.side
    ensures u[x].number > if b.number >= MAX_REORG_DEPTH then b.number - MAX_REORG_DEPTH else 0
  {
    hide Family, ValidBlock, CanonOk, Ancestor, OnBranch, Disjoint, Universe;
    MemberValid(u, g, r, all, b);
    FamilyUniverse(u, g, r, all);
    FamilyPair(u, g, r, all, x, b.hash);
    SideApart(u, g, r, c, b, x);
  }

  lemma KeepsSide(u: map<nat, Block>, g: Block, r: Rules, all: set<nat>, c: Chain, b: Block)
    requires Family(u, g, r, all) && CanonOk(u, g, r, c.canon) && SideIn(u, all, c.side) && Disjoint(c)
    requires Member(u, g, all, b) && b.parent == c.canon[|c.canon| - 1].b.hash
    ensures SideAbove(c.side, if b.number >= MAX_REORG_DEPTH then b.number - MAX_REORG_DEPTH else 0) == c.side
  {
    hide Family, CanonOk, Member;
    forall x | x in c.side ensures u[x].number > if b.number >= MAX_REORG_DEPTH then b.number - MAX_REORG_DEPTH else 0 {
      SideYoung(u, g, r, all, c, b, x);
    }
  }

  lemma ChildImports(u: map<nat, Block>, g: Block, r: Rules, all: set<nat>, c: Chain, b: Block)
    requires Family(u, g, r, all) && CanonOk(u, g, r, c.canon) && SideIn(u, all, c.side) && Disjoint(c)
    requires Member(u, g, all, b) && b.parent == c.canon[|c.canon| - 1].b.hash
    ensures var o := ImportFinal(r, c, b);
            && o.Some? && CanonOk(u, g, r, o.value.canon) && |o.value.canon| == |c.canon| + 1
            && o.value.canon[..|c.canon|] == c.canon && o.value.canon[|c.canon|].b == b && o.value.side == c.side
  {
    hide Branch, SideAbove, Family, Disjoint, SideIn;
    KeepsSide(u, g, r, all, c, b);
    FamilyUniverse(u, g, r, all);
    CanonIsBranch(u, g, r, c.canon);
    CanonIn(u, g, r, c.canon, |c.canon| - 1);
    MemberValid(u, g, r, all, b);
    AppendOk(u, g, r, c.canon, b);
  }

  // ---- a branch replays

  /** What block `i` of the branch must hang off. */
  function Below(branch: seq<Entry>, base: nat, i: nat): nat
    requires i < |branch|
  {
    if i == 0 then base else branch[i - 1].b.hash
  }

  predicate Linked(branch: seq<Entry>, base: nat) {
    forall i :: 0 <= i < |branch| ==> branch[i].b.parent == Below(branch, base, i)
  }

  lemma LinkedRest(branch: seq<Entry>, base: nat)
    requires branch != [] && Linked(branch, base)
    ensures branch[0].b.parent == base && Linked(branch[1..], branch[0].b.hash)
  {
    var rest := branch[1..];
    forall i | 0 <= i < |rest| ensures rest[i].b.parent == Below(rest, branch[0].b.hash, i) {
      assert rest[i] == branch[i + 1];
      assert branch[i + 1].b.parent == Below(branch, base, i + 1);
    }
  }

  lemma LinkedPush(branch: seq<Entry>, base: nat, e: Entry)
    requires Linked(branch, base) && e.b.parent == if branch == [] then base else branch[|branch| - 1].b.hash
    ensures Linked(branch + [e], base)
  {
    var all := branch + [e];
    forall i | 0 <= i < |all| ensures all[i].b.parent == Below(all, base, i) {
      if i < |branch| {
        assert branch[i].b.parent == Below(branch, base, i);
      }
    }
  }

  /** Importing a block of the side map and taking it out keeps the two apart. */
  lemma StaysDisjoint(c: Chain, d: Chain, b: Block)
    requires Disjoint(c) && d.side == c.side && |d.canon| == |c.canon| + 1
    requires d.canon[..|c.canon|] == c.canon && d.canon[|c.canon|].b == b
    ensures Disjoint(d.(side := d.side - {b.hash}))
  {
    forall i | 0 <= i < |d.canon| ensures d.canon[i].b.hash !in d.side - {b.hash} {
      if i < |c.canon| {
        assert d.canon[..|c.canon|][i] == c.canon[i];
      }
    }
  }

  /** Every block of the branch imports; only its own blocks leave the side map. */
  lemma {:induction false} ReplaySucceeds(u: map<nat, Block>, g: Block, r: Rules, all: set<nat>, c: Chain, branch: seq<Entry>)
    requires Family(u, g, r, all) && CanonOk(u, g, r, c.canon) && SideIn(u, all, c.side) && Disjoint(c)
    requires Linked(branch, c.canon[|c.canon| - 1].b.hash)
    requires forall i :: 0 <= i < |branch| ==> Member(u, g, all, branch[i].b)
    ensures var p := Replay(r, c, branch);
            && p.n == |branch| && Disjoint(p.c)
            && (forall h :: h in p.c.side ==> h in c.side)
            && forall h :: h in c.side && h !in Hashes(branch) ==> h in p.c.side
    decreases |branch|
  {
    CanonFits(u, g, r, c.canon);
    if branch != [] {
      var b, rest := branch[0].b, branch[1..];
      LinkedRest(branch, c.canon[|c.canon| - 1].b.hash);
      ChildImports(u, g, r, all, c, b);
      hide CanonOk, ImportFinal, Family, Member, Linked;
      var d := ImportFinal(r, c, b).value;
      var next := d.(side := d.side - {b.hash});
      assert d.canon[|d.canon| - 1].b == b;
      StaysDisjoint(c, d, b);
      assert SideIn(u, all, next.side);
      hide Disjoint, SideIn;
      ReplaySucceeds(u, g, r, all, next, rest);
      HashesFirst(branch);
    }
  }

  lemma HashesFirst(branch: seq<Entry>)
    requires branch != []
    ensures Hashes(branch) == {branch[0].b.hash} + Hashes(branch[1..])
  {
    assert branch == [branch[0]] + branch[1..];
  }

  // ---- the branch of a known block hangs off the chain

  /** A gathered branch hangs off a canonical block, in order, and is made of side blocks of the family. */
  ghost predicate Hangs(u: map<nat, Block>, g: Block, all: set<nat>, c: Chain, a: Gathered, cur: nat) {
    && NumberOf(c.canon, a.base).Some?
    && Linked(a.branch, a.base)
    && cur == (if a.branch == [] then a.base else a.branch[|a.branch| - 1].b.hash)
    && forall i :: 0 <= i < |a.branch| ==> Member(u, g, all, a.branch[i].b) && a.branch[i].b.hash in c.side
  }

  lemma HangsPush(u: map<nat, Block>, g: Block, all: set<nat>, c: Chain, d: Chain, a: Gathered, e: Entry)
    requires Hangs(u, g, all, c, a, e.b.parent) && Member(u, g, all, e.b) && e.b.hash in d.side
    requires d.canon == c.canon && c.side.Keys <= d.side.Keys
    ensures Hangs(u, g, all, d, Gathered(a.branch + [e], a.base), e.b.hash)
  {
    hide Member, NumberOf;
    LinkedPush(a.branch, a.base, e);
    hide Linked;
  }

  lemma {:induction false} GatherHangs(u: map<nat, Block>, g: Block, r: Rules, c: Chain, hs: set<nat>, all: set<nat>, cur: nat)
    requires Holds(u, g, r, c, hs, all) && cur in hs
    ensures Hangs(u, g, all, c, Gather(c.side, cur), cur)
    decreases Rank(c.side, cur)
  {
    if cur in c.side {
      var e := c.side[cur];
      SideEntry(u, g, r, c, hs, all, cur);
      hide Member, Holds, Hangs;
      GatherHangs(u, g, r, c, hs, all, e.b.parent);
      HangsPush(u, g, all, c, c, Gather(c.side, e.b.parent), e);
    } else {
      assert KnowsHash(c, cur);
    }
  }

  lemma SideEntry(u: map<nat, Block>, g: Block, r: Rules, c: Chain, hs: set<nat>, all: set<nat>, h: nat)
    requires Holds(u, g, r, c, hs, all) && h in c.side
    ensures var b := c.side[h].b;
            && b.hash == h && h in u && b == u[h] && Member(u, g, all, b) && b.parent in hs && b.number > 0
            && Rank(c.side, b.parent) < Rank(c.side, h)
  {
    var b := c.side[h].b;
    assert SideEntryOk(u, g, c.side[h]);
    assert h in hs && h != g.hash;
  }

  // ---- no reorganisation is too deep

  /** The blocks of a branch are the ancestors of its last block. */
  lemma {:induction false} BranchAncestor(u: map<nat, Block>, g: Block, r: Rules, all: set<nat>, branch: seq<Entry>, base: nat, k: nat)
    requires Family(u, g, r, all) && Linked(branch, base) && branch != [] && base in u
    requires forall i :: 0 <= i < |branch| ==> Member(u, g, all, branch[i].b)
    requires u[base].number < k <= u[base].number + |branch|
    ensures var tip := branch[|branch| - 1].b;
            tip.number == u[base].number + |branch| && Ancestor(u, tip.hash, k) == branch[k - u[base].number - 1].b.hash
    decreases |branch|
  {
    hide Family, Ancestor;
    var m, f := |branch| - 1, u[base].number;
    var tip := branch[m].b;
    MemberValid(u, g, r, all, tip);
    assert tip.parent == Below(branch, base, m);
    if m > 0 {
      var less := branch[..m];
      forall i | 0 <= i < m ensures less[i].b.parent == Below(less, base, i) {
        assert branch[i].b.parent == Below(branch, base, i);
      }
      assert less[m - 1].b.hash == tip.parent;
      BranchAncestor(u, g, r, all, less, base, if k <= f + m then k else f + m);
    }
    AncestorStep(u, tip, k);
  }

  lemma AncestorStep(u: map<nat, Block>, b: Block, k: nat)
    requires In(u, b) && b.parent in u && b.number == u[b.parent].number + 1
    ensures Ancestor(u, b.hash, k) == if b.number <= k then b.hash else Ancestor(u, b.parent, k)
  {
  }

  /** The fork of a side block lies at most 128 below the head. */
  lemma ForkClose(u: map<nat, Block>, g: Block, r: Rules, all: set<nat>, c: Chain, a: Gathered, tip: nat, fork: nat)
    requires Family(u, g, r, all) && CanonOk(u, g, r, c.canon) && Disjoint(c) && Hangs(u, g, all, c, a, tip)
    requires fork < |c.canon| && c.canon[fork].b.hash == a.base && tip in c.side
    requires tip in all && c.canon[|c.canon| - 1].b.hash in all
    ensures |c.canon| - 1 - fork <= MAX_REORG_DEPTH
  {
    hide Family, CanonOk, Disjoint, Member, Ancestor, Linked;
    var top := |c.canon| - 1;
    var head := c.canon[top].b.hash;
    FamilyUniverse(u, g, r, all);
    HeadNumber(u, g, r, c.canon);
    CanonIn(u, g, r, c.canon, fork);
    if top > MAX_REORG_DEPTH && fork < top - MAX_REORG_DEPTH {
      var n := top - MAX_REORG_DEPTH;
      TipNumber(u, g, r, all, c, a, tip, fork);
      NotCanonical(u, g, r, c, tip);
      NotMeeting(u, g, r, all, c, a, tip, fork, n);
      NotMeeting(u, g, r, all, c, a, tip, fork, top);
      CanonAncestor(u, g, r, c.canon, n);
      FamilyPair(u, g, r, all, tip, head);
      AncestorSelf(u, tip, top);
    }
  }

  lemma AncestorSelf(u: map<nat, Block>, h: nat, n: nat)
    requires h in u && u[h].number <= n
    ensures Ancestor(u, h, n) == h
  {
  }

  lemma HeadNumber(u: map<nat, Block>, g: Block, r: Rules, canon: seq<Entry>)
    requires Universe(u, g) && CanonOk(u, g, r, canon)
    ensures canon != [] && forall i :: 0 <= i < |canon| ==> In(u, canon[i].b) && canon[i].b.number == i
  {
    forall i | 0 <= i < |canon| ensures In(u, canon[i].b) {
      CanonIn(u, g, r, canon, i);
    }
  }

  lemma TipNumber(u: map<nat, Block>, g: Block, r: Rules, all: set<nat>, c: Chain, a: Gathered, tip: nat, fork: nat)
    requires Family(u, g, r, all) && CanonOk(u, g, r, c.canon) && Disjoint(c) && Hangs(u, g, all, c, a, tip)
    requires fork < |c.canon| && c.canon[fork].b.hash == a.base && tip in c.side
    ensures a.branch != [] && tip in u && u[tip].number == fork + |a.branch|
  {
    hide Family, Ancestor;
    FamilyUniverse(u, g, r, all);
    CanonIn(u, g, r, c.canon, fork);
    BranchAncestor(u, g, r, all, a.branch, a.base, fork + |a.branch|);
  }

  /** Above the fork the branch and the chain have no block in common. */
  lemma NotMeeting(u: map<nat, Block>, g: Block, r: Rules, all: set<nat>, c: Chain, a: Gathered, tip: nat, fork: nat, k: nat)
    requires Family(u, g, r, all) && CanonOk(u, g, r, c.canon) && Disjoint(c) && Hangs(u, g, all, c, a, tip)
    requires fork < k < |c.canon| && c.canon[fork].b.hash == a.base && a.branch != []
    ensures k <= fork + |a.branch| ==> Ancestor(u, tip, k) != c.canon[k].b.hash
  {
    hide Family, Ancestor;
    FamilyUniverse(u, g, r, all);
    CanonIn(u, g, r, c.canon, fork);
    if k <= fork + |a.branch| {
      BranchAncestor(u, g, r, all, a.branch, a.base, k);
      assert a.branch[k - fork - 1].b.hash in c.side;
    }
  }

  /** A side block is on no branch of the head. */
  lemma NotCanonical(u: map<nat, Block>, g: Block, r: Rules, c: Chain, tip: nat)
    requires Universe(u, g) && CanonOk(u, g, r, c.canon) && Disjoint(c) && tip in c.side && tip in u
    ensures !OnBranch(u, tip, c.canon[|c.canon| - 1].b.hash)
  {
    var top := |c.canon| - 1;
    CanonIn(u, g, r, c.canon, top);
    if u[tip].number <= top {
      CanonAncestor(u, g, r, c.canon, u[tip].number);
    }
  }

  // ---- a reorganisation is never refused

  lemma {:induction false} AddSideHas(side: map<nat, Entry>, es: seq<Entry>, h: nat)
    ensures h in AddSide(side, es) <==> h in side || exists i :: 0 <= i < |es| && es[i].b.hash == h
  {
    if es != [] {
      var less := es[..|es| - 1];
      AddSideHas(side, less, h);
      if i :| 0 <= i < |es| && es[i].b.hash == h {
        assert i < |less| ==> less[i].b.hash == h;
      }
    }
  }

  lemma SwitchKnows(c: Chain, hs: set<nat>, fork: nat, a: Gathered, p: Played)
    requires fork < |c.canon| && Knows(c, hs) && |p.c.canon| == fork + 1 + |a.branch|
    requires p.c.canon[..fork + 1] == c.canon[..fork + 1]
    requires forall i :: 0 <= i < |a.branch| ==> p.c.canon[fork + 1 + i].b == a.branch[i].b
    requires forall h :: h in c.side && h !in Hashes(a.branch) ==> h in p.c.side
    ensures Knows(p.c.(side := AddSide(p.c.side, c.canon[fork + 1..])), hs)
  {
    var undone := c.canon[fork + 1..];
    var d := p.c.(side := AddSide(p.c.side, undone));
    forall h | h in hs ensures KnowsHash(d, h) {
      assert KnowsHash(c, h);
      var o := NumberOf(c.canon, h);
      if o.Some? && o.value <= fork {
        assert p.c.canon[..fork + 1][o.value] == c.canon[..fork + 1][o.value];
        assert d.canon[o.value].b.hash == h;
      } else if o.Some? {
        assert undone[o.value - fork - 1].b.hash == h;
        AddSideHas(p.c.side, undone, h);
      } else if h in Hashes(a.branch) {
        var e :| e in a.branch && e.b.hash == h;
        var i :| 0 <= i < |a.branch| && a.branch[i] == e;
        assert d.canon[fork + 1 + i].b.hash == h;
      } else {
        AddSideHas(p.c.side, undone, h);
      }
    }
  }

  /** The blocks given up become side blocks; none of them is canonical any more. */
  lemma SwitchDisjoint(u: map<nat, Block>, g: Block, r: Rules, c: Chain, fork: nat, a: Gathered, p: Played)
    requires Ok(u, g, r, c) && fork < |c.canon| && Disjoint(c) && Disjoint(p.c) && |p.c.canon| == fork + 1 + |a.branch|
    requires p.c.canon[..fork + 1] == c.canon[..fork + 1]
    requires forall i :: 0 <= i < |a.branch| ==> p.c.canon[fork + 1 + i].b == a.branch[i].b && a.branch[i].b.hash in c.side
    ensures Disjoint(p.c.(side := AddSide(p.c.side, c.canon[fork + 1..])))
  {
    var undone := c.canon[fork + 1..];
    var d := p.c.(side := AddSide(p.c.side, undone));
    hide AddSide;
    forall i | 0 <= i < |d.canon| ensures d.canon[i].b.hash !in d.side {
      GivenUp(u, g, r, c, fork, a, p, i);
      AddSideHas(p.c.side, undone, d.canon[i].b.hash);
    }
  }

  lemma GivenUp(u: map<nat, Block>, g: Block, r: Rules, c: Chain, fork: nat, a: Gathered, p: Played, i: nat)
    requires Ok(u, g, r, c) && fork < |c.canon| && Disjoint(c) && |p.c.canon| == fork + 1 + |a.branch|
    requires p.c.canon[..fork + 1] == c.canon[..fork + 1] && i < |p.c.canon|
    requires forall i :: 0 <= i < |a.branch| ==> p.c.canon[fork + 1 + i].b == a.branch[i].b && a.branch[i].b.hash in c.side
    ensures var undone := c.canon[fork + 1..]; forall k :: 0 <= k < |undone| ==> undone[k].b.hash != p.c.canon[i].b.hash
  {
    var undone := c.canon[fork + 1..];
    HeadNumber(u, g, r, c.canon);
    if i <= fork {
      assert p.c.canon[..fork + 1][i] == c.canon[..fork + 1][i];
    } else {
      assert p.c.canon[fork + 1 + (i - fork - 1)].b == a.branch[i - fork - 1].b;
    }
  }

  lemma ReorgDone(u: map<nat, Block>, g: Block, r: Rules, c: Chain, hs: set<nat>, all: set<nat>, tip: nat)
    requires Ok(u, g, r, c) && Family(u, g, r, all) && c.canon != [] && MinedOnly(c.canon) && c.fin == None && Knows(c, hs)
    requires SideIn(u, all, c.side) && Disjoint(c) && tip in c.side && c.canon[|c.canon| - 1].b.hash in all
    requires Hangs(u, g, all, c, Gather(c.side, tip), tip)
    ensures var x := ReorgTo(r, c, tip); x.Done? && Knows(x.c, hs) && Disjoint(x.c)
  {
    hide Replay, Gather, PosAbove, AddSide, Member, Knows, Linked, CanonOk, SideOk, Universe, MinedOnly, Disjoint, Family;
    var a := Gather(c.side, tip);
    var fork := NumberOf(c.canon, a.base).value;
    NoPos(c.canon, fork);
    assert tip in all;
    ForkClose(u, g, r, all, c, a, tip, fork);
    BranchPlays(u, g, r, c, hs, all, fork, a);
  }

  lemma NoPos(canon: seq<Entry>, fork: nat)
    requires MinedOnly(canon)
    ensures !PosAbove(canon, fork)
  {
  }

  lemma PrefixDisjoint(c: Chain, n: nat)
    requires Disjoint(c) && n <= |c.canon|
    ensures Disjoint(c.(canon := c.canon[..n]))
  {
  }

  lemma BranchPlays(u: map<nat, Block>, g: Block, r: Rules, c: Chain, hs: set<nat>, all: set<nat>, fork: nat, a: Gathered)
    requires Ok(u, g, r, c) && Family(u, g, r, all) && fork < |c.canon| && c.canon[fork].b.hash == a.base && Knows(c, hs)
    requires Linked(a.branch, a.base) && SideIn(u, all, c.side) && Disjoint(c)
    requires forall i :: 0 <= i < |a.branch| ==> Member(u, g, all, a.branch[i].b) && a.branch[i].b.hash in c.side
    ensures var p := Replay(r, c.(canon := c.canon[..fork + 1]), a.branch);
            var d := p.c.(side := AddSide(p.c.side, c.canon[fork + 1..]));
            p.n == |a.branch| && Knows(d, hs) && Disjoint(d)
  {
    hide CanonOk, SideOk, Replay, AddSide, Knows, Linked, In, Family, SideIn, Disjoint;
    var start := c.(canon := c.canon[..fork + 1]);
    PrefixOk(u, g, r, c.canon, fork + 1);
    PrefixDisjoint(c, fork + 1);
    assert start.canon[|start.canon| - 1].b.hash == a.base;
    ReplaySucceeds(u, g, r, all, start, a.branch);
    ReplayOk(u, g, r, start, a.branch);
    SwitchKnows(c, hs, fork, a, Replay(r, start, a.branch));
    SwitchDisjoint(u, g, r, c, fork, a, Replay(r, start, a.branch));
  }

  // ---- one import

  lemma HeadIn(u: map<nat, Block>, g: Block, r: Rules, c: Chain, hs: set<nat>, all: set<nat>)
    requires Holds(u, g, r, c, hs, all)
    ensures c.canon != [] && c.canon[|c.canon| - 1].b.hash in all && SideIn(u, all, c.side)
  {
    forall h | h in c.side ensures h in all && h in u && c.side[h].b == u[h] && u[h].number > 0 {
      SideEntry(u, g, r, c, hs, all, h);
    }
  }

  lemma ParentLocated(u: map<nat, Block>, g: Block, r: Rules, c: Chain, hs: set<nat>, all: set<nat>, b: Block)
    requires Holds(u, g, r, c, hs, all) && Member(u, g, all, b) && b.parent in hs
    ensures Locate(c, b.parent).Some? && b.parent in u && Locate(c, b.parent).value.entry.b == u[b.parent]
    ensures HeaderOk(r, c, b, u[b.parent])
  {
    assert KnowsHash(c, b.parent);
    LocatedOk(u, g, r, c, b.parent);
    CanonIsBranch(u, g, r, c.canon);
    HeadIn(u, g, r, c, hs, all);
    MemberValid(u, g, r, all, b);
    hide Branch, Good, Closed, Knows, Disjoint, ValidBlock;
    assert b.hash in all && c.canon[|c.canon| - 1].b.hash in all;
  }

  lemma ExtendKnows(u: map<nat, Block>, g: Block, r: Rules, c: Chain, hs: set<nat>, all: set<nat>, b: Block)
    requires Holds(u, g, r, c, hs, all) && Member(u, g, all, b) && c.canon != [] && b.parent == c.Head().b.hash
    requires Locate(c, b.hash).None?
    ensures ImportFinal(r, c, b).Some? && Knows(ImportFinal(r, c, b).value, hs + {b.hash}) && Disjoint(ImportFinal(r, c, b).value)
  {
    HeadIn(u, g, r, c, hs, all);
    ChildImports(u, g, r, all, c, b);
    hide Family, Good, Closed, ImportFinal, Member, SideIn;
    var d := ImportFinal(r, c, b).value;
    StaysDisjoint(c, d, b);
    assert b.hash !in c.side;
    assert d.side - {b.hash} == d.side;
    assert d.(side := d.side - {b.hash}) == d;
    forall h | h in hs + {b.hash} ensures KnowsHash(d, h) {
      if h == b.hash {
        assert d.canon[|c.canon|].b.hash == h;
      } else {
        assert KnowsHash(c, h);
        var o := NumberOf(c.canon, h);
        if o.Some? {
          assert d.canon[..|c.canon|][o.value].b.hash == h;
        }
      }
    }
  }

  /** The side map with the new block in it. */
  function Inserted(c: Chain, b: Block): Chain
    requires Locate(c, b.parent).Some?
  {
    c.(side := c.side[b.hash := Entry(b, Locate(c, b.parent).value.entry.td + b.difficulty)])
  }

  lemma InsertKnows(c: Chain, hs: set<nat>, b: Block)
    requires Knows(c, hs) && Locate(c, b.parent).Some?
    ensures Knows(Inserted(c, b), hs + {b.hash})
  {
    forall h | h in hs + {b.hash} ensures KnowsHash(Inserted(c, b), h) {
      if h != b.hash {
        assert KnowsHash(c, h);
      }
    }
  }

  lemma InsertDisjoint(c: Chain, b: Block)
    requires Disjoint(c) && Locate(c, b.hash).None? && Locate(c, b.parent).Some?
    ensures Disjoint(Inserted(c, b))
  {
  }

  /** The new block's branch hangs off the chain. */
  lemma NewBranch(u: map<nat, Block>, g: Block, r: Rules, c: Chain, hs: set<nat>, all: set<nat>, b: Block)
    requires Holds(u, g, r, c, hs, all) && Member(u, g, all, b) && b.parent in hs && b.hash !in c.side && Locate(c, b.parent).Some?
    requires Ok(u, g, r, Inserted(c, b))
    ensures Hangs(u, g, all, Inserted(c, b), Gather(Inserted(c, b).side, b.hash), b.hash)
  {
    var d := Inserted(c, b);
    GatherHangs(u, g, r, c, hs, all, b.parent);
    MemberValid(u, g, r, all, b);
    GatherSame(u, g, r, c, hs, all, b, b.parent);
    ParentRank(u, g, r, d, b);
    hide Member, Holds, Hangs, Ok, Family;
    HangsPush(u, g, all, c, d, Gather(c.side, b.parent), d.side[b.hash]);
  }

  lemma ParentRank(u: map<nat, Block>, g: Block, r: Rules, d: Chain, b: Block)
    requires Ok(u, g, r, d) && b.hash in d.side && d.side[b.hash].b == b
    ensures Rank(d.side, b.parent) < Rank(d.side, b.hash)
  {
    assert SideEntryOk(u, g, d.side[b.hash]);
  }

  /** Inserting a block changes nothing below blocks of smaller height. */
  lemma {:induction false} GatherSame(u: map<nat, Block>, g: Block, r: Rules, c: Chain, hs: set<nat>, all: set<nat>, b: Block, cur: nat)
    requires Holds(u, g, r, c, hs, all) && b.hash !in c.side && Locate(c, b.parent).Some? && In(u, b)
    requires cur in hs && cur != b.hash && cur in u && u[cur].number < b.number
    ensures Gather(Inserted(c, b).side, cur) == Gather(c.side, cur)
    decreases Rank(c.side, cur)
  {
    var d := Inserted(c, b);
    if cur in c.side {
      SideEntry(u, g, r, c, hs, all, cur);
      var e := c.side[cur];
      MemberValid(u, g, r, all, e.b);
      hide Holds, Member, Family;
      assert e.b.parent != b.hash;
      GatherSame(u, g, r, c, hs, all, b, e.b.parent);
      assert Rank(d.side, e.b.parent) == Rank(c.side, e.b.parent) && Rank(d.side, cur) == Rank(c.side, cur);
    }
  }

  lemma HoldsParts(u: map<nat, Block>, g: Block, r: Rules, c: Chain, hs: set<nat>, all: set<nat>)
    requires Holds(u, g, r, c, hs, all)
    ensures MinedOnly(c.canon) && c.fin == None && Knows(c, hs) && Disjoint(c) && Family(u, g, r, all)
  {
  }

  lemma SideKnows(u: map<nat, Block>, g: Block, r: Rules, c: Chain, hs: set<nat>, all: set<nat>, b: Block)
    requires Holds(u, g, r, c, hs, all) && Member(u, g, all, b) && b.parent in hs && Locate(c, b.hash).None? && Locate(c, b.parent).Some?
    ensures var x := ReorgTo(r, Inserted(c, b), b.hash); x.Done? && Knows(x.c, hs + {b.hash}) && Disjoint(x.c)
  {
    hide Member, ReorgTo, Gather, Hangs, Knows, KnowsHash, Family, Disjoint, SideIn;
    var d := Inserted(c, b);
    HoldsParts(u, g, r, c, hs, all);
    InsertedOk(u, g, r, c, hs, all, b);
    InsertKnows(c, hs, b);
    InsertDisjoint(c, b);
    NewBranch(u, g, r, c, hs, all, b);
    hide Ok, MinedOnly, Holds;
    ReorgDone(u, g, r, d, hs + {b.hash}, all, b.hash);
  }

  lemma InsertedOk(u: map<nat, Block>, g: Block, r: Rules, c: Chain, hs: set<nat>, all: set<nat>, b: Block)
    requires Holds(u, g, r, c, hs, all) && Member(u, g, all, b) && b.parent in hs && Locate(c, b.hash).None? && Locate(c, b.parent).Some?
    ensures Ok(u, g, r, Inserted(c, b)) && c.canon != [] && c.canon[|c.canon| - 1].b.hash in all
    ensures SideIn(u, all, Inserted(c, b).side)
  {
    ParentLocated(u, g, r, c, hs, all, b);
    HeadIn(u, g, r, c, hs, all);
    MemberValid(u, g, r, all, b);
    hide Family, Closed, Knows, Disjoint, HeaderOk;
    SideInsertOk(u, g, r, c, b, Locate(c, b.parent).value);
  }

  lemma ImportKnows(u: map<nat, Block>, g: Block, r: Rules, c: Chain, hs: set<nat>, all: set<nat>, b: Block, now: nat)
    requires Holds(u, g, r, c, hs, all) && Member(u, g, all, b) && b.parent in hs && b.time <= now + MAX_FUTURE_SECONDS
    ensures var i := ImportMined(r, c, b, now);
            !i.outcome.Rejected? && Knows(i.c, hs + {b.hash}) && Disjoint(i.c)
  {
    HeadIn(u, g, r, c, hs, all);
    ParentLocated(u, g, r, c, hs, all, b);
    MemberValid(u, g, r, all, b);
    hide Good, Family, Closed, Knows, Disjoint, SideIn, ValidBlock, Member, ReorgTo, ImportFinal, HeaderOk, Loses, KnowsHash;
    if Locate(c, b.hash).Some? {
      KnownAlready(c, hs, b);
    } else if b.parent == c.Head().b.hash {
      ExtendKnows(u, g, r, c, hs, all, b);
    } else {
      InsertKnows(c, hs, b);
      InsertDisjoint(c, b);
      SideKnows(u, g, r, c, hs, all, b);
    }
  }

  /** A block of the family whose parent is known is accepted, and then every block so far is known. */
  lemma ImportAccepted(u: map<nat, Block>, g: Block, r: Rules, c: Chain, hs: set<nat>, all: set<nat>, b: Block, now: nat)
    requires Holds(u, g, r, c, hs, all) && Member(u, g, all, b) && b.parent in hs && b.time <= now + MAX_FUTURE_SECONDS
    ensures !ImportMined(r, c, b, now).outcome.Rejected? && Holds(u, g, r, ImportMined(r, c, b, now).c, hs + {b.hash}, all)
  {
    HeadIn(u, g, r, c, hs, all);
    hide Good, Family, Closed, Knows, Disjoint, SideIn, ValidBlock;
    ParentLocated(u, g, r, c, hs, all, b);
    MemberValid(u, g, r, all, b);
    ImportKnows(u, g, r, c, hs, all, b, now);
    GrowsClosed(u, g, hs, all, b);
    GoodIn(u, g, r, c, hs);
    hide ImportMined, HeaderOk, Locate;
    ImportBest(u, g, r, c, b, now, hs);
    ImportOk(u, g, r, c, b, now);
  }

  lemma GrowsClosed(u: map<nat, Block>, g: Block, hs: set<nat>, all: set<nat>, b: Block)
    requires Closed(u, g, hs, all) && Member(u, g, all, b) && b.parent in hs
    ensures Closed(u, g, hs + {b.hash}, all)
  {
  }

  lemma GoodIn(u: map<nat, Block>, g: Block, r: Rules, c: Chain, hs: set<nat>)
    requires Good(u, g, r, c, hs)
    ensures Ok(u, g, r, c)
  {
  }

  lemma KnownAlready(c: Chain, hs: set<nat>, b: Block)
    requires Knows(c, hs) && Locate(c, b.hash).Some?
    ensures Knows(c, hs + {b.hash})
  {
  }

  // ---- whole runs

  /** Parents come before children, and no block comes too early by the node's clock. */
  ghost predicate ParentFirst(g: Block, arrivals: seq<Arrival>) {
    forall i :: 0 <= i < |arrivals| ==>
      && arrivals[i].b.time <= arrivals[i].now + MAX_FUTURE_SECONDS
      && arrivals[i].b.parent in HashesOf(arrivals[..i]) + {g.hash}
  }

  ghost predicate AllMembers(u: map<nat, Block>, g: Block, all: set<nat>, arrivals: seq<Arrival>) {
    forall i :: 0 <= i < |arrivals| ==> Member(u, g, all, arrivals[i].b)
  }

  lemma GenesisHolds(u: map<nat, Block>, g: Block, r: Rules, all: set<nat>)
    requires Family(u, g, r, all)
    ensures Holds(u, g, r, Genesis(g), {g.hash}, all)
  {
    GenesisGood(u, g, r);
    KnowsGenesis(u, g, r, Genesis(g));
  }

  lemma {:induction false} AllHeld(u: map<nat, Block>, g: Block, r: Rules, all: set<nat>, arrivals: seq<Arrival>)
    requires Family(u, g, r, all) && AllMembers(u, g, all, arrivals) && ParentFirst(g, arrivals)
    ensures AllAccepted(r, Genesis(g), arrivals)
    ensures Holds(u, g, r, ImportAll(r, Genesis(g), arrivals), HashesOf(arrivals) + {g.hash}, all)
  {
    if arrivals == [] {
      GenesisHolds(u, g, r, all);
      NoHashes();
      assert HashesOf(arrivals) + {g.hash} == {g.hash};
    } else {
      var rest, a := arrivals[..|arrivals| - 1], arrivals[|arrivals| - 1];
      RestFirst(g, arrivals);
      hide Holds, Member, HashesOf, ImportMined, Family, ParentFirst;
      AllHeld(u, g, r, all, rest);
      var c := ImportAll(r, Genesis(g), rest);
      ImportAccepted(u, g, r, c, HashesOf(rest) + {g.hash}, all, a.b, a.now);
      LastHash(arrivals);
      assert HashesOf(arrivals) + {g.hash} == HashesOf(rest) + {g.hash} + {a.b.hash};
    }
  }

  lemma RestFirst(g: Block, arrivals: seq<Arrival>)
    requires ParentFirst(g, arrivals) && arrivals != []
    ensures var rest, a := arrivals[..|arrivals| - 1], arrivals[|arrivals| - 1];
            ParentFirst(g, rest) && a.b.time <= a.now + MAX_FUTURE_SECONDS && a.b.parent in HashesOf(rest) + {g.hash}
  {
    var rest := arrivals[..|arrivals| - 1];
    hide HashesOf;
    forall i | 0 <= i < |rest|
      ensures rest[i].b.time <= rest[i].now + MAX_FUTURE_SECONDS && rest[i].b.parent in HashesOf(rest[..i]) + {g.hash}
    {
      assert rest[..i] == arrivals[..i] && rest[i] == arrivals[i];
    }
  }

  /** Two nodes that receive the same valid mined blocks, whose forks are close to each other, each parents
      first and no block before its time, end with the same chain: the one of greatest total difficulty,
      then lowest hash. */
  lemma ValidOrderIndependent(u: map<nat, Block>, g: Block, r: Rules, all: set<nat>, a: seq<Arrival>, b: seq<Arrival>)
    requires Family(u, g, r, all) && AllMembers(u, g, all, a) && AllMembers(u, g, all, b)
    requires HashesOf(a) == HashesOf(b) && ParentFirst(g, a) && ParentFirst(g, b)
    ensures var c := ImportAll(r, Genesis(g), a);
            c.canon == ImportAll(r, Genesis(g), b).canon && Heaviest(u, g, HashesOf(a) + {g.hash}, c.Head().b.hash)
  {
    AllHeld(u, g, r, all, a);
    AllHeld(u, g, r, all, b);
    hide HashesOf, ImportAll, AllAccepted, Good, Heaviest, KnowsHash, ParentFirst, Closed, Disjoint;
    OrderIndependent(u, g, r, a, b);
  }
}
