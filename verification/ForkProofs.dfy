/** What the fork choice keeps in every reachable state, that failed reorganisations leave the chain
    alone, and that final blocks stay. */
module ForkProofs {
  import opened Options
  import opened ForkSpec

  /** All blocks ever met, by hash: a hash determines its block. */
  ghost predicate Universe(u: map<nat, Block>, g: Block) {
    && (forall h :: h in u ==> u[h].hash == h)
    && g.number == 0
    && g.hash in u
    && u[g.hash] == g
  }

  predicate In(u: map<nat, Block>, b: Block) {
    b.hash in u && u[b.hash] == b
  }

  function Height(u: map<nat, Block>, h: nat): nat {
    if h in u then u[h].number else 0
  }

  /** Sum of the difficulties of the branch from genesis to `h`. */
  function TotalDifficulty(u: map<nat, Block>, g: Block, h: nat): nat
    decreases Height(u, h)
  {
    if h == g.hash then g.difficulty
    else if h !in u || Height(u, u[h].parent) >= Height(u, h) then 0
    else TotalDifficulty(u, g, u[h].parent) + u[h].difficulty
  }

  // ---- invariant

  /** `e` is a child of `up`, with the right total difficulty. */
  ghost predicate Extends(u: map<nat, Block>, g: Block, up: Block, e: Entry) {
    && In(u, e.b)
    && e.b.parent == up.hash
    && e.b.number == up.number + 1
    && e.b.time > up.time
    && e.td == TotalDifficulty(u, g, e.b.hash)
  }

  ghost predicate CanonOk(u: map<nat, Block>, g: Block, r: Rules, canon: seq<Entry>) {
    && canon != []
    && canon[0] == Entry(g, g.difficulty)
    && (forall i :: 0 <= i < |canon| ==> canon[i].b.number == i)
    && (forall i :: 0 < i < |canon| ==> LinkOk(u, g, r, canon, i))
  }

  ghost predicate LinkOk(u: map<nat, Block>, g: Block, r: Rules, canon: seq<Entry>, i: nat)
    requires 0 < i < |canon|
  {
    Extends(u, g, canon[i - 1].b, canon[i]) && r.exec(Blocks(canon[..i]), canon[i].b)
  }

  ghost predicate SideEntryOk(u: map<nat, Block>, g: Block, e: Entry) {
    && In(u, e.b)
    && e.b.parent in u
    && Extends(u, g, u[e.b.parent], e)
    && e.b.difficulty > 0
  }

  ghost predicate SideOk(u: map<nat, Block>, g: Block, side: map<nat, Entry>) {
    forall h :: h in side ==> side[h].b.hash == h && SideEntryOk(u, g, side[h])
  }

  predicate FinOk(c: Chain) {
    c.fin.Some? ==> c.fin.value.number < |c.canon| && c.canon[c.fin.value.number].b.hash == c.fin.value.hash
  }

  /** Every reachable state: a valid chain of correct total difficulties from genesis, side blocks
      with correct total difficulties, the finalized block canonical. */
  ghost predicate Ok(u: map<nat, Block>, g: Block, r: Rules, c: Chain) {
    Universe(u, g) && CanonOk(u, g, r, c.canon) && SideOk(u, g, c.side) && FinOk(c)
  }

  // ---- extending the head

  lemma PrefixOk(u: map<nat, Block>, g: Block, r: Rules, canon: seq<Entry>, n: nat)
    requires CanonOk(u, g, r, canon) && 0 < n <= |canon|
    ensures CanonOk(u, g, r, canon[..n])
  {
    var p := canon[..n];
    forall i | 0 < i < n ensures LinkOk(u, g, r, p, i) {
      assert LinkOk(u, g, r, canon, i);
      assert p[..i] == canon[..i];
    }
  }

  lemma CanonIn(u: map<nat, Block>, g: Block, r: Rules, canon: seq<Entry>, i: nat)
    requires Universe(u, g) && CanonOk(u, g, r, canon) && i < |canon|
    ensures In(u, canon[i].b) && canon[i].td == TotalDifficulty(u, g, canon[i].b.hash)
  {
    if i > 0 {
      assert LinkOk(u, g, r, canon, i);
    }
  }

  lemma AppendOk(u: map<nat, Block>, g: Block, r: Rules, canon: seq<Entry>, b: Block)
    requires Universe(u, g) && CanonOk(u, g, r, canon) && In(u, b)
    requires var head := canon[|canon| - 1];
             b.parent == head.b.hash && b.number == head.b.number + 1 && b.time > head.b.time
    requires r.exec(Blocks(canon), b)
    ensures var e := Entry(b, canon[|canon| - 1].td + b.difficulty);
            CanonOk(u, g, r, canon + [e]) && e.td == TotalDifficulty(u, g, b.hash)
  {
    var n := |canon|;
    var head := canon[n - 1];
    var e := Entry(b, head.td + b.difficulty);
    CanonIn(u, g, r, canon, n - 1);
    assert b.hash != g.hash;
    var all := canon + [e];
    assert all[..n] == canon;
    forall i | 0 < i < |all| ensures LinkOk(u, g, r, all, i) {
      if i < n {
        assert LinkOk(u, g, r, canon, i);
        assert all[..i] == canon[..i];
      }
    }
  }

  lemma ImportFinalOk(u: map<nat, Block>, g: Block, r: Rules, c: Chain, b: Block)
    requires Ok(u, g, r, c) && In(u, b)
    ensures var d := ImportFinal(r, c, b);
            d.Some? ==> Ok(u, g, r, d.value) && d.value.fin == c.fin && |d.value.canon| > |c.canon| && d.value.canon[..|c.canon|] == c.canon
  {
    if ImportFinal(r, c, b).Some? {
      AppendOk(u, g, r, c.canon, b);
    }
  }

  // ---- replaying a branch

  ghost predicate SubMap(a: map<nat, Entry>, b: map<nat, Entry>) {
    forall h :: h in a ==> h in b && a[h] == b[h]
  }

  lemma ImportStep(u: map<nat, Block>, g: Block, r: Rules, c: Chain, b: Block)
    requires Universe(u, g) && CanonOk(u, g, r, c.canon) && In(u, b)
    ensures var o := ImportFinal(r, c, b);
            o.Some? ==>
              && CanonOk(u, g, r, o.value.canon) && |o.value.canon| == |c.canon| + 1
              && o.value.canon[..|c.canon|] == c.canon && o.value.canon[|c.canon|].b == b
              && SubMap(o.value.side, c.side) && o.value.fin == c.fin
  {
    if ImportFinal(r, c, b).Some? {
      AppendOk(u, g, r, c.canon, b);
    }
  }

  lemma {:induction false} ReplayOk(u: map<nat, Block>, g: Block, r: Rules, c: Chain, branch: seq<Entry>)
    requires Universe(u, g) && CanonOk(u, g, r, c.canon)
    requires forall i :: 0 <= i < |branch| ==> In(u, branch[i].b)
    ensures var p := Replay(r, c, branch);
            && CanonOk(u, g, r, p.c.canon)
            && |p.c.canon| == |c.canon| + p.n
            && p.c.canon[..|c.canon|] == c.canon
            && (forall i :: 0 <= i < p.n ==> p.c.canon[|c.canon| + i].b == branch[i].b)
            && SubMap(p.c.side, c.side)
            && p.c.fin == c.fin
    decreases |branch|
  {
    CanonFits(u, g, r, c.canon);
    hide CanonOk, ImportFinal, In, Universe;
    if branch != [] {
      var b := branch[0].b;
      var o := ImportFinal(r, c, b);
      ImportStep(u, g, r, c, b);
      if o.Some? {
        var d := o.value;
        var next := d.(side := d.side - {b.hash});
        ReplayOk(u, g, r, next, branch[1..]);
        var p := Replay(r, next, branch[1..]);
        assert p.c.canon[..|c.canon|] == p.c.canon[..|d.canon|][..|c.canon|];
        forall i | 0 <= i < p.n + 1 ensures p.c.canon[|c.canon| + i].b == branch[i].b {
          if i == 0 {
            assert p.c.canon[|c.canon|] == p.c.canon[..|d.canon|][|c.canon|];
          } else {
            assert p.c.canon[|d.canon| + (i - 1)].b == branch[1..][i - 1].b;
          }
        }
      }
    }
  }

  /** The next block of a valid chain imports on the chain below it. */
  lemma NextImports(u: map<nat, Block>, g: Block, r: Rules, whole: seq<Entry>, c: Chain)
    requires Universe(u, g) && CanonOk(u, g, r, whole) && 0 < |c.canon| < |whole| && c.canon == whole[..|c.canon|]
    ensures var o := ImportFinal(r, c, whole[|c.canon|].b);
            o.Some? && o.value.canon == whole[..|c.canon| + 1] && o.value.fin == c.fin && SubMap(o.value.side, c.side)
  {
    var n := |c.canon|;
    assert LinkOk(u, g, r, whole, n);
    CanonIn(u, g, r, whole, n - 1);
    CanonIn(u, g, r, whole, n);
    PrefixOk(u, g, r, whole, n);
    AppendOk(u, g, r, c.canon, whole[n].b);
    assert whole[..n + 1] == c.canon + [whole[n]];
  }

  /** Importing the undone blocks again on the block they hung off gives the old chain back. */
  lemma {:induction false} RestoreExact(u: map<nat, Block>, g: Block, r: Rules, whole: seq<Entry>, c: Chain)
    requires Universe(u, g) && CanonOk(u, g, r, whole) && 0 < |c.canon| <= |whole| && c.canon == whole[..|c.canon|]
    ensures var d := Restore(r, c, whole[|c.canon|..]); d.canon == whole && d.fin == c.fin && SubMap(d.side, c.side)
    decreases |whole| - |c.canon|
  {
    hide CanonOk, ImportFinal, Universe;
    var n := |c.canon|;
    var undone := whole[n..];
    if undone == [] {
      assert c.canon == whole;
    } else {
      var e := c.(side := c.side - {undone[0].b.hash});
      NextImports(u, g, r, whole, e);
      assert undone[1..] == whole[n + 1..];
      RestoreExact(u, g, r, whole, ImportFinal(r, e, undone[0].b).value);
    }
  }

  // ---- the branch

  lemma {:induction false} GatherOk(u: map<nat, Block>, g: Block, side: map<nat, Entry>, cur: nat)
    requires Universe(u, g) && SideOk(u, g, side)
    ensures var a := Gather(side, cur);
            && (forall i :: 0 <= i < |a.branch| ==>
                  In(u, a.branch[i].b) && a.branch[i].b.hash in side && side[a.branch[i].b.hash] == a.branch[i])
            && (cur in side ==> a.branch != [] && a.branch[|a.branch| - 1] == side[cur])
            && (cur !in side ==> a.branch == [] && a.base == cur)
    decreases Rank(side, cur)
  {
    if cur in side {
      var e := side[cur];
      if Rank(side, e.b.parent) < Rank(side, cur) {
        GatherOk(u, g, side, e.b.parent);
      }
    }
  }

  lemma {:induction false} AddSideOk(u: map<nat, Block>, g: Block, side: map<nat, Entry>, es: seq<Entry>)
    requires SideOk(u, g, side) && forall i :: 0 <= i < |es| ==> SideEntryOk(u, g, es[i])
    ensures SideOk(u, g, AddSide(side, es))
    ensures forall h :: h in AddSide(side, es) ==> (h in side && AddSide(side, es)[h] == side[h]) || AddSide(side, es)[h] in es
  {
    if es != [] {
      AddSideOk(u, g, side, es[..|es| - 1]);
    }
  }

  lemma UndoneOk(u: map<nat, Block>, g: Block, r: Rules, canon: seq<Entry>, fork: nat, undone: seq<Entry>)
    requires Universe(u, g) && CanonOk(u, g, r, canon) && fork < |canon| && !PosAbove(canon, fork)
    requires undone == canon[fork + 1..]
    ensures forall i :: 0 <= i < |undone| ==> SideEntryOk(u, g, undone[i])
  {
    forall i | 0 <= i < |undone| ensures SideEntryOk(u, g, undone[i]) {
      var n := fork + 1 + i;
      assert LinkOk(u, g, r, canon, n);
      CanonIn(u, g, r, canon, n - 1);
      assert canon[n].b.difficulty != 0;
    }
  }

  /** The canonical prefix a reorganisation keeps. */
  ghost predicate KeepsTo(c: Chain, d: Chain, fork: nat) {
    fork < |c.canon| && fork < |d.canon| && d.canon[..fork + 1] == c.canon[..fork + 1]
  }

  /** Refused, a reorganisation leaves the chain and the finalized block as they were. Done, it
      replaces only blocks above a fork point at most 128 deep, not below the finalized block and not
      below a PoS block, and `tip` becomes the head. */
  ghost predicate ReorgGood(c: Chain, tip: nat, x: Reorg) {
    && x.c.canon != []
    && x.c.fin == c.fin
    && match x
       case Refused(d, _) => d.canon == c.canon
       case Done(d, depth) =>
         && depth < |c.canon| && depth <= MAX_REORG_DEPTH
         && var fork := |c.canon| - 1 - depth;
         && KeepsTo(c, d, fork)
         && (c.fin.Some? ==> c.fin.value.number <= fork)
         && !PosAbove(c.canon, fork)
         && (tip in c.side ==> d.Head() == c.side[tip])
         && (forall i :: fork < i < |d.canon| ==> d.canon[i].b.hash in c.side)
         && (forall h :: h in d.side ==> (h in c.side && d.side[h] == c.side[h]) || d.side[h] in c.canon)
  }

  lemma RefusedOk(u: map<nat, Block>, g: Block, r: Rules, c: Chain, d: Chain)
    requires Ok(u, g, r, c) && d.canon == c.canon && d.fin == c.fin && SubMap(d.side, c.side)
    ensures Ok(u, g, r, d)
  {
    hide CanonOk, SideEntryOk;
  }

  /** The branch `a` hangs off block `fork`, and nothing forbids undoing down to it. */
  lemma SwitchOk(u: map<nat, Block>, g: Block, r: Rules, c: Chain, tip: nat, fork: nat, a: Gathered)
    requires Ok(u, g, r, c) && fork < |c.canon| && !PosAbove(c.canon, fork) && a == Gather(c.side, tip)
    requires c.fin.Some? ==> c.fin.value.number <= fork
    ensures var p := Replay(r, c.(canon := c.canon[..fork + 1]), a.branch);
            if p.n == |a.branch| then
              Switched(u, g, r, c, p.c.(side := AddSide(p.c.side, c.canon[fork + 1..])), tip, fork)
            else
              var d := Restore(r, Chain(c.canon[..fork + 1], p.c.side - Hashes(a.branch[p.n..]), c.fin), c.canon[fork + 1..]);
              Ok(u, g, r, d) && d.canon == c.canon && d.fin == c.fin
  {
    hide CanonOk, SideOk, Replay, Restore, Gather, PosAbove, AddSide;
    GatherOk(u, g, c.side, tip);
    var start := c.(canon := c.canon[..fork + 1]);
    PrefixOk(u, g, r, c.canon, fork + 1);
    ReplayOk(u, g, r, start, a.branch);
    var p := Replay(r, start, a.branch);
    if p.n == |a.branch| {
      DoneOk(u, g, r, c, tip, fork, a, p);
    } else {
      var kept := Chain(c.canon[..fork + 1], p.c.side - Hashes(a.branch[p.n..]), c.fin);
      RestoreExact(u, g, r, c.canon, kept);
      RefusedOk(u, g, r, c, Restore(r, kept, c.canon[fork + 1..]));
    }
  }

  lemma ReorgOk(u: map<nat, Block>, g: Block, r: Rules, c: Chain, tip: nat)
    requires Ok(u, g, r, c)
    ensures Ok(u, g, r, ReorgTo(r, c, tip).c) && ReorgGood(c, tip, ReorgTo(r, c, tip))
  {
    hide Ok, Replay, Restore, Gather, PosAbove, AddSide, KeepsTo;
    OkFits(u, g, r, c);
    var a := Gather(c.side, tip);
    var o := NumberOf(c.canon, a.base);
    if o.Some? {
      var fork := o.value;
      if !(c.fin.Some? && fork < c.fin.value.number) && |c.canon| - 1 - fork <= MAX_REORG_DEPTH && !PosAbove(c.canon, fork) {
        SwitchOk(u, g, r, c, tip, fork, a);
      }
    }
  }

  lemma CanonFits(u: map<nat, Block>, g: Block, r: Rules, canon: seq<Entry>)
    requires CanonOk(u, g, r, canon)
    ensures canon != []
  {
  }

  lemma OkFits(u: map<nat, Block>, g: Block, r: Rules, c: Chain)
    requires Ok(u, g, r, c)
    ensures c.canon != []
  {
  }

  lemma SubSideOk(u: map<nat, Block>, g: Block, side: map<nat, Entry>, sub: map<nat, Entry>)
    requires SideOk(u, g, side) && SubMap(sub, side)
    ensures SideOk(u, g, sub)
  {
  }

  /** `d` is `c` with the side branch up to `tip` in place of the blocks above `fork`. */
  ghost predicate Switched(u: map<nat, Block>, g: Block, r: Rules, c: Chain, d: Chain, tip: nat, fork: nat) {
    && Ok(u, g, r, d)
    && d.fin == c.fin
    && d.canon != []
    && KeepsTo(c, d, fork)
    && (tip in c.side ==> d.Head() == c.side[tip])
    && (forall i :: fork < i < |d.canon| ==> d.canon[i].b.hash in c.side)
    && (forall h :: h in d.side ==> (h in c.side && d.side[h] == c.side[h]) || d.side[h] in c.canon)
  }

  lemma DoneSide(u: map<nat, Block>, g: Block, r: Rules, c: Chain, fork: nat, side: map<nat, Entry>)
    requires Ok(u, g, r, c) && fork < |c.canon| && !PosAbove(c.canon, fork) && SubMap(side, c.side)
    ensures var d := AddSide(side, c.canon[fork + 1..]);
            SideOk(u, g, d) && forall h :: h in d ==> (h in c.side && d[h] == c.side[h]) || d[h] in c.canon
  {
    var undone := c.canon[fork + 1..];
    UndoneOk(u, g, r, c.canon, fork, undone);
    SubSideOk(u, g, c.side, side);
    AddSideOk(u, g, side, undone);
  }

  lemma DoneOk(u: map<nat, Block>, g: Block, r: Rules, c: Chain, tip: nat, fork: nat, a: Gathered, p: Played)
    requires Ok(u, g, r, c) && fork < |c.canon| && !PosAbove(c.canon, fork)
    requires c.fin.Some? ==> c.fin.value.number <= fork
    requires CanonOk(u, g, r, p.c.canon) && |p.c.canon| == fork + 1 + |a.branch|
    requires p.c.canon[..fork + 1] == c.canon[..fork + 1]
    requires forall i :: 0 <= i < |a.branch| ==> p.c.canon[fork + 1 + i].b == a.branch[i].b
    requires SubMap(p.c.side, c.side) && p.c.fin == c.fin
    requires forall i :: 0 <= i < |a.branch| ==>
               a.branch[i].b.hash in c.side && c.side[a.branch[i].b.hash] == a.branch[i]
    requires tip in c.side ==> a.branch != [] && a.branch[|a.branch| - 1] == c.side[tip]
    ensures Switched(u, g, r, c, p.c.(side := AddSide(p.c.side, c.canon[fork + 1..])), tip, fork)
  {
    DoneSide(u, g, r, c, fork, p.c.side);
    if tip in c.side {
      var k := |a.branch| - 1;
      assert p.c.canon[fork + 1 + k].b == a.branch[k].b;
      CanonIn(u, g, r, p.c.canon, fork + 1 + k);
    }
    hide CanonOk, SideEntryOk, AddSide, PosAbove;
    forall i | fork < i < |p.c.canon| ensures p.c.canon[i].b.hash in c.side {
      assert p.c.canon[fork + 1 + (i - fork - 1)].b == a.branch[i - fork - 1].b;
    }
    if c.fin.Some? {
      var n := c.fin.value.number;
      assert p.c.canon[..fork + 1][n] == c.canon[..fork + 1][n];
    }
  }

  // ---- imports and checkpoints keep the invariant and every final block

  lemma LocatedOk(u: map<nat, Block>, g: Block, r: Rules, c: Chain, h: nat)
    requires Ok(u, g, r, c) && Locate(c, h).Some?
    ensures var e := Locate(c, h).value.entry; In(u, e.b) && e.b.hash == h && e.td == TotalDifficulty(u, g, h)
  {
    var o := NumberOf(c.canon, h);
    if o.Some? {
      CanonIn(u, g, r, c.canon, o.value);
    }
  }

  /** The state a mined block reaches before the work comparison. */
  lemma SideInsertOk(u: map<nat, Block>, g: Block, r: Rules, c: Chain, b: Block, p: Located)
    requires Ok(u, g, r, c) && In(u, b) && Locate(c, b.hash).None? && Locate(c, b.parent) == Some(p) && HeaderOk(r, c, b, p.entry.b)
    ensures var e := Entry(b, p.entry.td + b.difficulty);
            Ok(u, g, r, c.(side := c.side[b.hash := e])) && e.td == TotalDifficulty(u, g, b.hash)
  {
    LocatedOk(u, g, r, c, b.parent);
    assert b.hash != g.hash;
  }

  lemma ImportOk(u: map<nat, Block>, g: Block, r: Rules, c: Chain, b: Block, now: nat)
    requires Ok(u, g, r, c) && In(u, b)
    ensures var i := ImportMined(r, c, b, now);
            && Ok(u, g, r, i.c) && i.c.fin == c.fin
            && (i.outcome.Rejected? ==> i.c.canon == c.canon)
  {
    hide Ok, ReorgTo, ImportFinal, HeaderOk, Locate, Loses, KeepsTo, PosAbove;
    OkFits(u, g, r, c);
    if Locate(c, b.hash).None? && b.time <= now + MAX_FUTURE_SECONDS && Locate(c, b.parent).Some? {
      var p := Locate(c, b.parent).value;
      if c.fin.Some? && p.canonical && p.entry.b.number < c.fin.value.number {
      } else if b.parent == c.Head().b.hash {
        ImportFinalOk(u, g, r, c, b);
      } else if HeaderOk(r, c, b, p.entry.b) {
        SideInsertOk(u, g, r, c, b, p);
        ReorgOk(u, g, r, c.(side := c.side[b.hash := Entry(b, p.entry.td + b.difficulty)]), b.hash);
      }
    }
  }

  /** `d` came from `c` without replacing any block for which `is_final` held in `c`, and with every
      PoS block of `c` and the blocks below it in place. */
  ghost predicate FinalStays(pos: (seq<Block>, nat) -> bool, c: Chain, d: Chain)
    requires c.canon != []
  {
    && (forall n :: 0 <= n < |c.canon| && IsFinal(pos, c, n) ==> n < |d.canon| && d.canon[n] == c.canon[n])
    && (forall n :: 0 < n < |c.canon| && c.canon[n].b.difficulty == 0 ==> n < |d.canon| && d.canon[..n + 1] == c.canon[..n + 1])
  }

  /** What execution guarantees about phases: a block runs with difficulty zero exactly at a height that the
      state below it gives to the PoS committee, and growing the chain changes no height's phase. */
  ghost predicate PhaseRule(r: Rules, pos: (seq<Block>, nat) -> bool) {
    && (forall chain, b :: r.exec(chain, b) ==> (b.difficulty == 0 <==> pos(chain, |chain|)))
    && (forall chain, b, n: nat :: r.exec(chain, b) && n <= |chain| ==> pos(chain + [b], n) == pos(chain, n))
  }

  /** Heights of the PoS committee hold PoS blocks. */
  ghost predicate PosIsPos(pos: (seq<Block>, nat) -> bool, c: Chain) {
    forall n :: 0 < n < |c.canon| && pos(Blocks(c.canon), n) ==> c.canon[n].b.difficulty == 0
  }

  lemma {:induction false} PhaseOfHeight(u: map<nat, Block>, g: Block, r: Rules, pos: (seq<Block>, nat) -> bool, canon: seq<Entry>, n: nat)
    requires CanonOk(u, g, r, canon) && PhaseRule(r, pos) && 0 < n < |canon|
    ensures pos(Blocks(canon), n) <==> canon[n].b.difficulty == 0
    decreases |canon|
  {
    var m := |canon| - 1;
    var less := canon[..m];
    assert LinkOk(u, g, r, canon, m);
    PrefixOk(u, g, r, canon, m);
    assert Blocks(canon) == Blocks(less) + [canon[m].b];
    if n < m {
      PhaseOfHeight(u, g, r, pos, less, n);
    }
  }

  /** In a valid chain the phase of a height and the kind of its block agree. */
  lemma PhasesAgree(u: map<nat, Block>, g: Block, r: Rules, pos: (seq<Block>, nat) -> bool, c: Chain)
    requires Ok(u, g, r, c) && PhaseRule(r, pos)
    ensures PosIsPos(pos, c)
  {
    forall n | 0 < n < |c.canon| && pos(Blocks(c.canon), n) ensures c.canon[n].b.difficulty == 0 {
      PhaseOfHeight(u, g, r, pos, c.canon, n);
    }
  }

  lemma ReorgKeepsFinal(pos: (seq<Block>, nat) -> bool, c: Chain, d: Chain, fork: nat)
    requires c.canon != [] && PosIsPos(pos, c) && KeepsTo(c, d, fork) && |c.canon| - 1 - fork <= MAX_REORG_DEPTH
    requires c.fin.Some? ==> c.fin.value.number <= fork
    requires !PosAbove(c.canon, fork)
    ensures FinalStays(pos, c, d)
  {
    forall n | 0 <= n < |c.canon| && IsFinal(pos, c, n) ensures n < |d.canon| && d.canon[n] == c.canon[n] {
      assert n <= fork;
      assert d.canon[..fork + 1][n] == c.canon[..fork + 1][n];
    }
    forall n | 0 < n < |c.canon| && c.canon[n].b.difficulty == 0
      ensures n < |d.canon| && d.canon[..n + 1] == c.canon[..n + 1]
    {
      assert n <= fork;
      assert d.canon[..n + 1] == d.canon[..fork + 1][..n + 1];
      assert c.canon[..n + 1] == c.canon[..fork + 1][..n + 1];
    }
  }

  lemma GrowthKeepsFinal(pos: (seq<Block>, nat) -> bool, c: Chain, d: Chain)
    requires c.canon != [] && |c.canon| <= |d.canon| && d.canon[..|c.canon|] == c.canon
    ensures FinalStays(pos, c, d)
  {
    forall n | 0 <= n < |c.canon| ensures d.canon[n] == c.canon[n] && d.canon[..n + 1] == c.canon[..n + 1] {
      assert d.canon[..|c.canon|][n] == c.canon[n];
      assert d.canon[..n + 1] == d.canon[..|c.canon|][..n + 1];
    }
  }

  /** No import of a mined block replaces a final block. */
  lemma ImportKeepsFinal(u: map<nat, Block>, g: Block, r: Rules, pos: (seq<Block>, nat) -> bool, c: Chain, b: Block, now: nat)
    requires Ok(u, g, r, c) && In(u, b) && PhaseRule(r, pos)
    ensures c.canon != [] && FinalStays(pos, c, ImportMined(r, c, b, now).c)
  {
    OkFits(u, g, r, c);
    hide Ok, FinalStays, PosIsPos, PhaseRule, ImportMined;
    PhasesAgree(u, g, r, pos, c);
    ImportStays(u, g, r, pos, c, b, now);
  }

  lemma ImportStays(u: map<nat, Block>, g: Block, r: Rules, pos: (seq<Block>, nat) -> bool, c: Chain, b: Block, now: nat)
    requires Ok(u, g, r, c) && In(u, b) && PosIsPos(pos, c)
    ensures FinalStays(pos, c, ImportMined(r, c, b, now).c)
  {
    hide Ok, FinalStays, PosIsPos, ReorgTo, ImportFinal, HeaderOk, Locate, Loses, KeepsTo, PosAbove;
    OkFits(u, g, r, c);
    GrowthKeepsFinal(pos, c, c);
    if Locate(c, b.hash).None? && b.time <= now + MAX_FUTURE_SECONDS && Locate(c, b.parent).Some? {
      var p := Locate(c, b.parent).value;
      if c.fin.Some? && p.canonical && p.entry.b.number < c.fin.value.number {
      } else if b.parent == c.Head().b.hash {
        ImportFinalOk(u, g, r, c, b);
        var o := ImportFinal(r, c, b);
        if o.Some? {
          GrowthKeepsFinal(pos, c, o.value);
        }
      } else if HeaderOk(r, c, b, p.entry.b) {
        SideInsertOk(u, g, r, c, b, p);
        var d := c.(side := c.side[b.hash := Entry(b, p.entry.td + b.difficulty)]);
        ReorgOk(u, g, r, d, b.hash);
        GrowthKeepsFinal(pos, c, d);
        ReorgStays(pos, c, d, b.hash, ReorgTo(r, d, b.hash));
      }
    }
  }

  lemma ReorgStays(pos: (seq<Block>, nat) -> bool, c: Chain, d: Chain, tip: nat, x: Reorg)
    requires c.canon != [] && PosIsPos(pos, c) && d == c.(side := d.side) && ReorgGood(d, tip, x)
    ensures FinalStays(pos, c, x.c)
  {
    hide FinalStays, PosIsPos;
    match x
    case Refused(e, _) => GrowthKeepsFinal(pos, c, e);
    case Done(e, depth) => ReorgKeepsFinal(pos, c, e, |c.canon| - 1 - depth);
  }

  function After(c: Chain, f: Finalized): Chain {
    match f
    case Changed(d) => d
    case Already => c
    case Failed(d, _) => d
  }

  /** Marking a canonical block final. */
  lemma MarkOk(u: map<nat, Block>, g: Block, r: Rules, d: Chain, m: Mark)
    requires Ok(u, g, r, d) && m.number < |d.canon| && d.canon[m.number].b.hash == m.hash
    ensures Ok(u, g, r, Chain(d.canon, SideAbove(d.side, m.number), Some(m)))
  {
  }

  lemma LocatedHeight(u: map<nat, Block>, g: Block, r: Rules, c: Chain, h: nat)
    requires Ok(u, g, r, c) && Locate(c, h).Some?
    ensures var l := Locate(c, h).value;
            if l.canonical then l.entry.b.number < |c.canon| && c.canon[l.entry.b.number].b.hash == h
            else h in c.side && c.side[h] == l.entry
  {
  }

  lemma HeadHeight(u: map<nat, Block>, g: Block, r: Rules, c: Chain)
    requires Ok(u, g, r, c)
    ensures c.canon != [] && c.Head().b.number == |c.canon| - 1
  {
  }

  lemma SideHash(u: map<nat, Block>, g: Block, r: Rules, c: Chain, h: nat)
    requires Ok(u, g, r, c) && h in c.side
    ensures c.side[h].b.hash == h
  {
  }

  /** No checkpoint replaces a final block. */
  lemma FinalizeKeepsFinal(u: map<nat, Block>, g: Block, r: Rules, pos: (seq<Block>, nat) -> bool, c: Chain, hash: nat, height: nat)
    requires Ok(u, g, r, c) && PhaseRule(r, pos)
    ensures c.canon != [] && FinalStays(pos, c, After(c, Finalize(r, c, hash, height)))
  {
    OkFits(u, g, r, c);
    hide Ok, FinalStays, PosIsPos, PhaseRule, Finalize;
    PhasesAgree(u, g, r, pos, c);
    FinalizeStays(u, g, r, pos, c, hash, height);
  }

  /** Recording a checkpoint keeps the invariant, so the finalized block is canonical; a failed one leaves
      the chain and the finalized block as they were. */
  lemma FinalizeStays(u: map<nat, Block>, g: Block, r: Rules, pos: (seq<Block>, nat) -> bool, c: Chain, hash: nat, height: nat)
    requires Ok(u, g, r, c) && PosIsPos(pos, c)
    ensures var f := Finalize(r, c, hash, height);
            && Ok(u, g, r, After(c, f))
            && FinalStays(pos, c, After(c, f))
            && (f.Changed? ==> f.c.fin == Some(Mark(height, hash)) && height < |f.c.canon| && f.c.canon[height].b.hash == hash
                               && (c.fin.Some? ==> c.fin.value.number < height))
            && (!f.Changed? ==> After(c, f).canon == c.canon && After(c, f).fin == c.fin)
  {
    hide Ok, FinalStays, PosIsPos, ReorgTo, Locate, PosAbove, SideAbove;
    OkFits(u, g, r, c);
    var f := Finalize(r, c, hash, height);
    GrowthKeepsFinal(pos, c, c);
    var o := Locate(c, hash);
    if f != Already && o.Some? && o.value.entry.b.number == height {
      LocatedHeight(u, g, r, c, hash);
      if o.value.canonical {
        MarkOk(u, g, r, c, Mark(height, hash));
        GrowthKeepsFinal(pos, c, f.c);
      } else {
        ReorgOk(u, g, r, c, hash);
        var x := ReorgTo(r, c, hash);
        if x.Done? {
          HeadHeight(u, g, r, x.c);
          SideHash(u, g, r, c, hash);
          MarkOk(u, g, r, x.c, Mark(height, hash));
          ReorgKeepsFinal(pos, c, f.c, |c.canon| - 1 - x.depth);
        } else {
          GrowthKeepsFinal(pos, c, f.c);
        }
      }
    }
  }
}
