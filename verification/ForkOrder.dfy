/** Whole runs of the fork choice: reachable states, permanence of finality, and independence of the
    order in which mined blocks arrive. */
module ForkOrder {
  import opened Options
  import opened ForkSpec
  import opened ForkProofs

  // ---- reachable states

  datatype Op = OpMined(b: Block, now: nat) | OpFinal(b: Block) | OpCheckpoint(hash: nat, height: nat)

  function Apply(r: Rules, c: Chain, op: Op): Chain
    requires c.canon != []
  {
    match op
    case OpMined(b, now) => ImportMined(r, c, b, now).c
    case OpFinal(b) => (match ImportFinal(r, c, b) case Some(d) => d case None => c)
    case OpCheckpoint(hash, height) => After(c, Finalize(r, c, hash, height))
  }

  predicate OpIn(u: map<nat, Block>, op: Op) {
    match op
    case OpMined(b, _) => In(u, b)
    case OpFinal(b) => In(u, b)
    case OpCheckpoint(_, _) => true
  }

  lemma GenesisOk(u: map<nat, Block>, g: Block, r: Rules)
    requires Universe(u, g)
    ensures Ok(u, g, r, Genesis(g))
  {
  }

  lemma StepOk(u: map<nat, Block>, g: Block, r: Rules, pos: (seq<Block>, nat) -> bool, c: Chain, op: Op)
    requires Ok(u, g, r, c) && OpIn(u, op) && PosIsPos(pos, c)
    ensures c.canon != [] && Ok(u, g, r, Apply(r, c, op)) && FinalStays(pos, c, Apply(r, c, op))
  {
    hide FinalStays, PosIsPos;
    CanonFits(u, g, r, c.canon);
    match op
    case OpMined(b, now) =>
      ImportOk(u, g, r, c, b, now);
      ImportStays(u, g, r, pos, c, b, now);
    case OpFinal(b) =>
      ImportFinalOk(u, g, r, c, b);
      GrowthKeepsFinal(pos, c, Apply(r, c, op));
    case OpCheckpoint(hash, height) =>
      FinalizeStays(u, g, r, pos, c, hash, height);
  }

  ghost predicate Next(u: map<nat, Block>, r: Rules, c: Chain, d: Chain)
    requires c.canon != []
  {
    exists op :: OpIn(u, op) && d == Apply(r, c, op)
  }

  /** A run: each state follows from the one before by some operation. */
  ghost predicate Run(u: map<nat, Block>, g: Block, r: Rules, run: seq<Chain>) {
    && Universe(u, g)
    && |run| > 0
    && run[0] == Genesis(g)
    && (forall k :: 0 <= k < |run| ==> run[k].canon != [])
    && (forall k :: 0 <= k < |run| - 1 ==> Next(u, r, run[k], run[k + 1]))
  }

  /** In every reachable state the chain is valid, every total difficulty is the sum of its branch's
      difficulties, and the finalized block is canonical. */
  lemma {:induction false} ReachableOk(u: map<nat, Block>, g: Block, r: Rules, run: seq<Chain>, k: nat)
    requires Run(u, g, r, run) && k < |run|
    ensures Ok(u, g, r, run[k])
  {
    if k == 0 {
      GenesisOk(u, g, r);
    } else {
      ReachableOk(u, g, r, run, k - 1);
      var j := k - 1;
      assert Next(u, r, run[j], run[j + 1]);
      var op :| OpIn(u, op) && run[j + 1] == Apply(r, run[j], op);
      StepOk(u, g, r, (_, _) => false, run[j], op);
    }
  }

  lemma NextStays(u: map<nat, Block>, g: Block, r: Rules, pos: (seq<Block>, nat) -> bool, c: Chain, d: Chain)
    requires Ok(u, g, r, c) && c.canon != [] && PhaseRule(r, pos) && Next(u, r, c, d)
    ensures FinalStays(pos, c, d)
  {
    PhasesAgree(u, g, r, pos, c);
    hide Ok, FinalStays, PosIsPos, PhaseRule, Apply;
    var op :| OpIn(u, op) && d == Apply(r, c, op);
    StepOk(u, g, r, pos, c, op);
  }

  /** In every run, no operation replaces a block for which `is_final` held just before. */
  lemma FinalNeverReplaced(u: map<nat, Block>, g: Block, r: Rules, pos: (seq<Block>, nat) -> bool, run: seq<Chain>, k: nat)
    requires Run(u, g, r, run) && PhaseRule(r, pos) && k + 1 < |run|
    ensures FinalStays(pos, run[k], run[k + 1])
  {
    hide Ok, FinalStays, PhaseRule, Next;
    ReachableOk(u, g, r, run, k);
    NextStays(u, g, r, pos, run[k], run[k + 1]);
  }

  /** The blocks up to height `n` are the same in both states. */
  ghost predicate SameTo(c: Chain, d: Chain, n: nat) {
    n < |c.canon| && n < |d.canon| && c.canon[..n + 1] == d.canon[..n + 1]
  }

  lemma SameToTrans(c: Chain, d: Chain, e: Chain, n: nat, n': nat)
    requires SameTo(c, d, n) && SameTo(d, e, n') && n <= n'
    ensures SameTo(c, e, n)
  {
    assert d.canon[..n + 1] == d.canon[..n' + 1][..n + 1];
    assert e.canon[..n + 1] == e.canon[..n' + 1][..n + 1];
  }

  lemma FinStep(u: map<nat, Block>, g: Block, r: Rules, c: Chain, d: Chain)
    requires Ok(u, g, r, c) && c.canon != [] && Next(u, r, c, d) && c.fin.Some?
    ensures d.fin.Some? && d.fin.value.number >= c.fin.value.number && SameTo(c, d, c.fin.value.number)
  {
    var op :| OpIn(u, op) && d == Apply(r, c, op);
    var pos: (seq<Block>, nat) -> bool := (_, _) => false;
    StepOk(u, g, r, pos, c, op);
    var n := c.fin.value.number;
    assert forall i :: 0 <= i <= n ==> IsFinal(pos, c, i);
    assert c.canon[..n + 1] == d.canon[..n + 1];
    match op
    case OpMined(b, now) => ImportOk(u, g, r, c, b, now);
    case OpFinal(b) => ImportFinalOk(u, g, r, c, b);
    case OpCheckpoint(hash, height) => FinalizeStays(u, g, r, pos, c, hash, height);
  }

  /** Finality by stake is permanent: once a checkpoint is finalized, the chain up to it never changes
      again, whatever is imported or finalized later. */
  lemma {:induction false} FinalizedForever(u: map<nat, Block>, g: Block, r: Rules, run: seq<Chain>, k: nat, m: nat)
    requires Run(u, g, r, run) && k <= m < |run| && run[k].fin.Some?
    ensures run[m].fin.Some? && run[m].fin.value.number >= run[k].fin.value.number
    ensures SameTo(run[k], run[m], run[k].fin.value.number)
    decreases m
  {
    hide Next, CanonOk, SideOk;
    if k < m {
      FinalizedForever(u, g, r, run, k, m - 1);
      ReachableOk(u, g, r, run, m - 1);
      var j := m - 1;
      assert Next(u, r, run[j], run[j + 1]);
      FinStep(u, g, r, run[j], run[j + 1]);
      SameToTrans(run[k], run[j], run[m], run[k].fin.value.number, run[j].fin.value.number);
    } else {
      ReachableOk(u, g, r, run, k);
    }
  }

  lemma PosStep(u: map<nat, Block>, g: Block, r: Rules, c: Chain, d: Chain, n: nat)
    requires Ok(u, g, r, c) && c.canon != [] && Next(u, r, c, d) && 0 < n < |c.canon| && c.canon[n].b.difficulty == 0
    ensures SameTo(c, d, n)
  {
    var op :| OpIn(u, op) && d == Apply(r, c, op);
    StepOk(u, g, r, (_, _) => false, c, op);
  }

  /** A block of the PoS committee, once canonical, is never undone. */
  lemma {:induction false} PosForever(u: map<nat, Block>, g: Block, r: Rules, run: seq<Chain>, k: nat, m: nat, n: nat)
    requires Run(u, g, r, run) && k <= m < |run| && 0 < n < |run[k].canon| && run[k].canon[n].b.difficulty == 0
    ensures SameTo(run[k], run[m], n)
    decreases m
  {
    hide Next, Ok;
    if k < m {
      PosForever(u, g, r, run, k, m - 1, n);
      ReachableOk(u, g, r, run, m - 1);
      var j := m - 1;
      assert Next(u, r, run[j], run[j + 1]);
      assert run[j].canon[n] == run[j].canon[..n + 1][n];
      PosStep(u, g, r, run[j], run[m], n);
      SameToTrans(run[k], run[j], run[m], n, n);
    }
  }

  // ---- order independence

  predicate Beats(head: Entry, e: Entry) {
    e.b.hash == head.b.hash || Loses(e, head)
  }

  /** The head has the most work of all known blocks, the lowest hash among equals. */
  ghost predicate Best(c: Chain)
    requires c.canon != []
  {
    && (forall i :: 0 <= i < |c.canon| ==> Beats(c.Head(), c.canon[i]))
    && (forall h :: h in c.side ==> Beats(c.Head(), c.side[h]))
  }

  predicate MinedOnly(canon: seq<Entry>) {
    forall i :: 0 < i < |canon| ==> canon[i].b.difficulty > 0
  }

  lemma {:induction false} WorkGrows(u: map<nat, Block>, g: Block, r: Rules, canon: seq<Entry>, i: nat, n: nat)
    requires Universe(u, g) && CanonOk(u, g, r, canon) && MinedOnly(canon) && i <= n < |canon|
    ensures canon[i].td <= canon[n].td && (i < n ==> canon[i].td < canon[n].td)
  {
    if i < n {
      WorkGrows(u, g, r, canon, i, n - 1);
      assert LinkOk(u, g, r, canon, n);
      CanonIn(u, g, r, canon, n - 1);
      assert canon[n].b.hash != g.hash;
    }
  }

  /** The head beats every canonical block. */
  lemma HeadBeatsCanon(u: map<nat, Block>, g: Block, r: Rules, c: Chain)
    requires Ok(u, g, r, c) && MinedOnly(c.canon)
    ensures c.canon != [] && forall i :: 0 <= i < |c.canon| ==> Beats(c.Head(), c.canon[i])
  {
    forall i | 0 <= i < |c.canon| ensures Beats(c.Head(), c.canon[i]) {
      WorkGrows(u, g, r, c.canon, i, |c.canon| - 1);
    }
  }

  predicate KnowsHash(c: Chain, h: nat) {
    Locate(c, h).Some?
  }

  ghost predicate KnowsOnly(c: Chain, hs: set<nat>) {
    && (forall i :: 0 <= i < |c.canon| ==> c.canon[i].b.hash in hs)
    && (forall h :: h in c.side ==> h in hs)
  }

  ghost predicate Good(u: map<nat, Block>, g: Block, r: Rules, c: Chain, hs: set<nat>) {
    Ok(u, g, r, c) && c.canon != [] && MinedOnly(c.canon) && Best(c) && KnowsOnly(c, hs)
  }

  lemma ReorgCanon(u: map<nat, Block>, g: Block, r: Rules, c: Chain, d: Chain, fork: nat, hs: set<nat>, i: nat)
    requires Ok(u, g, r, c) && Ok(u, g, r, d) && MinedOnly(c.canon) && KnowsOnly(c, hs) && KeepsTo(c, d, fork)
    requires i < |d.canon| && (i > fork ==> d.canon[i].b.hash in c.side)
    ensures d.canon[i].b.hash in hs && (i > 0 ==> d.canon[i].b.difficulty > 0)
  {
    if i <= fork {
      assert d.canon[..fork + 1][i] == c.canon[..fork + 1][i];
    } else {
      CanonIn(u, g, r, d.canon, i);
    }
  }

  /** A block that lost to the old head loses to the new one. */
  lemma StillBeaten(u: map<nat, Block>, g: Block, r: Rules, c: Chain, tip: nat, e: Entry)
    requires Ok(u, g, r, c) && c.canon != [] && tip in c.side && !Loses(c.side[tip], c.Head())
    requires e == c.side[tip] || (Beats(c.Head(), e) && e.td == TotalDifficulty(u, g, e.b.hash))
    ensures Beats(c.side[tip], e)
  {
    CanonIn(u, g, r, c.canon, |c.canon| - 1);
  }

  lemma ReorgSide(u: map<nat, Block>, g: Block, r: Rules, c: Chain, tip: nat, hs: set<nat>, e: Entry, h: nat)
    requires Ok(u, g, r, c) && c.canon != [] && tip in c.side && !Loses(c.side[tip], c.Head()) && KnowsOnly(c, hs)
    requires Best(Chain(c.canon, c.side - {tip}, c.fin)) && ((h in c.side && e == c.side[h]) || e in c.canon) && h == e.b.hash
    ensures Beats(c.side[tip], e) && h in hs
  {
    if h in c.side && e == c.side[h] {
      if h != tip {
        assert h in c.side - {tip};
        assert Beats(c.Head(), (c.side - {tip})[h]);
      }
    } else {
      var i :| 0 <= i < |c.canon| && c.canon[i] == e;
      CanonIn(u, g, r, c.canon, i);
      assert Beats(c.Head(), c.canon[i]);
    }
    StillBeaten(u, g, r, c, tip, e);
  }

  lemma ReorgBest(u: map<nat, Block>, g: Block, r: Rules, c: Chain, tip: nat, hs: set<nat>)
    requires Ok(u, g, r, c) && MinedOnly(c.canon) && KnowsOnly(c, hs) && tip in c.side && ReorgTo(r, c, tip).Done?
    requires c.canon != [] && Best(Chain(c.canon, c.side - {tip}, c.fin)) && !Loses(c.side[tip], c.Head())
    ensures Good(u, g, r, ReorgTo(r, c, tip).c, hs)
  {
    hide ReorgTo, Ok, KeepsTo, Loses, Beats, PosAbove;
    ReorgOk(u, g, r, c, tip);
    var x := ReorgTo(r, c, tip);
    var d, fork := x.c, |c.canon| - 1 - x.depth;
    forall i | 0 <= i < |d.canon| ensures d.canon[i].b.hash in hs && (i > 0 ==> d.canon[i].b.difficulty > 0) {
      ReorgCanon(u, g, r, c, d, fork, hs, i);
    }
    HeadBeatsCanon(u, g, r, d);
    forall h | h in d.side ensures Beats(d.Head(), d.side[h]) && h in hs {
      SideHash(u, g, r, d, h);
      ReorgSide(u, g, r, c, tip, hs, d.side[h], h);
    }
  }

  lemma ExtendBest(u: map<nat, Block>, g: Block, r: Rules, c: Chain, b: Block, hs: set<nat>)
    requires Good(u, g, r, c, hs) && In(u, b) && b.difficulty > 0 && ImportFinal(r, c, b).Some?
    ensures Good(u, g, r, ImportFinal(r, c, b).value, hs + {b.hash})
  {
    var d := ImportFinal(r, c, b).value;
    ImportFinalOk(u, g, r, c, b);
    assert d.canon == c.canon + [d.Head()];
    HeadBeatsCanon(u, g, r, d);
    CanonIn(u, g, r, c.canon, |c.canon| - 1);
    hide CanonOk, SideAbove;
    forall h | h in d.side ensures Beats(d.Head(), d.side[h]) {
      SideAboveSub(c.side, h, if b.number >= MAX_REORG_DEPTH then b.number - MAX_REORG_DEPTH else 0);
      assert Beats(c.Head(), c.side[h]);
    }
    forall h | h in d.side ensures h in hs {
      SideAboveSub(c.side, h, if b.number >= MAX_REORG_DEPTH then b.number - MAX_REORG_DEPTH else 0);
    }
  }

  lemma SideAboveSub(side: map<nat, Entry>, h: nat, horizon: nat)
    ensures h in SideAbove(side, horizon) ==> h in side && SideAbove(side, horizon)[h] == side[h]
  {
  }

  /** The block is known but not yet compared with the head. */
  lemma InsertBest(u: map<nat, Block>, g: Block, r: Rules, c: Chain, b: Block, p: Located, hs: set<nat>)
    requires Good(u, g, r, c, hs) && In(u, b) && Locate(c, b.hash).None? && Locate(c, b.parent) == Some(p) && HeaderOk(r, c, b, p.entry.b)
    ensures var e := Entry(b, p.entry.td + b.difficulty);
            var d := c.(side := c.side[b.hash := e]);
            && Ok(u, g, r, d) && MinedOnly(d.canon) && KnowsOnly(d, hs + {b.hash})
            && Best(Chain(d.canon, d.side - {b.hash}, d.fin))
            && (Loses(e, c.Head()) ==> Best(d))
  {
    SideInsertOk(u, g, r, c, b, p);
    hide CanonOk, SideOk, HeaderOk;
    var d := c.(side := c.side[b.hash := Entry(b, p.entry.td + b.difficulty)]);
    var rest := d.side - {b.hash};
    forall h | h in rest ensures Beats(c.Head(), rest[h]) {
      assert Beats(c.Head(), c.side[h]);
    }
  }

  /** An accepted import keeps the head best and adds at most the imported block. */
  lemma ImportBest(u: map<nat, Block>, g: Block, r: Rules, c: Chain, b: Block, now: nat, hs: set<nat>)
    requires Good(u, g, r, c, hs) && In(u, b) && !ImportMined(r, c, b, now).outcome.Rejected?
    ensures Good(u, g, r, ImportMined(r, c, b, now).c, hs + {b.hash})
  {
    hide Ok, MinedOnly, Best, ReorgTo, ImportFinal, HeaderOk, Loses;
    if Locate(c, b.hash).None? {
      var p := Locate(c, b.parent).value;
      if b.parent == c.Head().b.hash {
        ExtendBest(u, g, r, c, b, hs);
      } else {
        InsertBest(u, g, r, c, b, p, hs);
        var e := Entry(b, p.entry.td + b.difficulty);
        var d := c.(side := c.side[b.hash := e]);
        if !Loses(e, c.Head()) {
          ReorgBest(u, g, r, d, b.hash, hs + {b.hash});
        }
      }
    }
  }

  datatype Arrival = Arrival(b: Block, now: nat)

  function ImportAll(r: Rules, c: Chain, arrivals: seq<Arrival>): (d: Chain)
    requires c.canon != []
    ensures d.canon != []
  {
    if arrivals == [] then c
    else
      var d := ImportAll(r, c, arrivals[..|arrivals| - 1]);
      var a := arrivals[|arrivals| - 1];
      ImportMined(r, d, a.b, a.now).c
  }

  /** Every block is accepted when it arrives: none is invalid, orphaned or refused. */
  predicate AllAccepted(r: Rules, c: Chain, arrivals: seq<Arrival>)
    requires c.canon != []
  {
    arrivals == [] ||
    var d := ImportAll(r, c, arrivals[..|arrivals| - 1]);
    var a := arrivals[|arrivals| - 1];
    AllAccepted(r, c, arrivals[..|arrivals| - 1]) && !ImportMined(r, d, a.b, a.now).outcome.Rejected?
  }

  function HashesOf(arrivals: seq<Arrival>): set<nat> {
    set a | a in arrivals :: a.b.hash
  }

  lemma GenesisGood(u: map<nat, Block>, g: Block, r: Rules)
    requires Universe(u, g)
    ensures Good(u, g, r, Genesis(g), {g.hash})
  {
    GenesisOk(u, g, r);
  }

  lemma LastHash(arrivals: seq<Arrival>)
    requires arrivals != []
    ensures HashesOf(arrivals) == HashesOf(arrivals[..|arrivals| - 1]) + {arrivals[|arrivals| - 1].b.hash}
  {
    assert arrivals == arrivals[..|arrivals| - 1] + [arrivals[|arrivals| - 1]];
  }

  lemma {:induction false} ImportAllGood(u: map<nat, Block>, g: Block, r: Rules, arrivals: seq<Arrival>)
    requires Universe(u, g) && (forall i :: 0 <= i < |arrivals| ==> In(u, arrivals[i].b)) && AllAccepted(r, Genesis(g), arrivals)
    ensures Good(u, g, r, ImportAll(r, Genesis(g), arrivals), HashesOf(arrivals) + {g.hash})
  {
    hide Good, ImportMined, HashesOf;
    if arrivals == [] {
      GenesisGood(u, g, r);
      assert HashesOf(arrivals) + {g.hash} == {g.hash} by { NoHashes(); }
    } else {
      var rest, a := arrivals[..|arrivals| - 1], arrivals[|arrivals| - 1];
      var d := ImportAll(r, Genesis(g), rest);
      ImportAllGood(u, g, r, rest);
      ImportBest(u, g, r, d, a.b, a.now, HashesOf(rest) + {g.hash});
      LastHash(arrivals);
      assert HashesOf(arrivals) + {g.hash} == HashesOf(rest) + {g.hash} + {a.b.hash};
    }
  }

  lemma NoHashes()
    ensures HashesOf([]) == {}
  {
  }

  /** A chain is determined by its head. */
  lemma {:induction false} SameHead(u: map<nat, Block>, g: Block, r: Rules, a: seq<Entry>, b: seq<Entry>)
    requires Universe(u, g) && CanonOk(u, g, r, a) && CanonOk(u, g, r, b) && a[|a| - 1].b == b[|b| - 1].b
    ensures a == b
    decreases |a|
  {
    var n := |a| - 1;
    assert |b| - 1 == b[|b| - 1].b.number == n;
    CanonIn(u, g, r, a, n);
    CanonIn(u, g, r, b, n);
    if n > 0 {
      assert LinkOk(u, g, r, a, n) && LinkOk(u, g, r, b, n);
      CanonIn(u, g, r, a, n - 1);
      CanonIn(u, g, r, b, n - 1);
      PrefixOk(u, g, r, a, n);
      PrefixOk(u, g, r, b, n);
      SameHead(u, g, r, a[..n], b[..n]);
      assert a == a[..n] + [a[n]] && b == b[..n] + [b[n]];
    }
  }

  /** `h` has the greatest total difficulty of `hs`, the lowest hash among equals. */
  ghost predicate Heaviest(u: map<nat, Block>, g: Block, hs: set<nat>, h: nat) {
    h in hs && forall x :: x in hs ==>
      || TotalDifficulty(u, g, x) < TotalDifficulty(u, g, h)
      || (TotalDifficulty(u, g, x) == TotalDifficulty(u, g, h) && h <= x)
  }

  lemma HeadHeaviest(u: map<nat, Block>, g: Block, r: Rules, c: Chain, hs: set<nat>)
    requires Good(u, g, r, c, hs) && forall h :: h in hs ==> KnowsHash(c, h)
    ensures Heaviest(u, g, hs, c.Head().b.hash)
  {
    var head := c.Head();
    CanonIn(u, g, r, c.canon, |c.canon| - 1);
    forall x | x in hs
      ensures || TotalDifficulty(u, g, x) < TotalDifficulty(u, g, head.b.hash)
              || (TotalDifficulty(u, g, x) == TotalDifficulty(u, g, head.b.hash) && head.b.hash <= x)
    {
      assert KnowsHash(c, x);
      LocatedOk(u, g, r, c, x);
      assert Beats(head, Locate(c, x).value.entry);
    }
  }

  lemma BestAgree(u: map<nat, Block>, g: Block, r: Rules, c: Chain, d: Chain, hs: set<nat>)
    requires Good(u, g, r, c, hs) && Good(u, g, r, d, hs) && forall h :: h in hs ==> KnowsHash(c, h) && KnowsHash(d, h)
    ensures c.canon == d.canon && Heaviest(u, g, hs, c.Head().b.hash)
  {
    HeadHeaviest(u, g, r, c, hs);
    HeadHeaviest(u, g, r, d, hs);
    CanonIn(u, g, r, c.canon, |c.canon| - 1);
    CanonIn(u, g, r, d.canon, |d.canon| - 1);
    SameHead(u, g, r, c.canon, d.canon);
  }

  lemma KnowsGenesis(u: map<nat, Block>, g: Block, r: Rules, c: Chain)
    requires Ok(u, g, r, c)
    ensures KnowsHash(c, g.hash)
  {
    assert c.canon[0].b.hash == g.hash;
  }

  /** Both nodes still know every block they imported: none was pruned. */
  ghost predicate KnowsAll(c: Chain, arrivals: seq<Arrival>) {
    forall h :: h in HashesOf(arrivals) ==> KnowsHash(c, h)
  }

  /** Order independence: two nodes that accept the same mined blocks, in any orders and at any times,
      and still know them all, end with the same chain: the one whose head has the greatest total
      difficulty, then the lowest hash. */
  lemma OrderIndependent(u: map<nat, Block>, g: Block, r: Rules, a: seq<Arrival>, b: seq<Arrival>)
    requires Universe(u, g) && HashesOf(a) == HashesOf(b)
    requires (forall i :: 0 <= i < |a| ==> In(u, a[i].b)) && (forall i :: 0 <= i < |b| ==> In(u, b[i].b))
    requires AllAccepted(r, Genesis(g), a) && AllAccepted(r, Genesis(g), b)
    requires KnowsAll(ImportAll(r, Genesis(g), a), a) && KnowsAll(ImportAll(r, Genesis(g), b), b)
    ensures var c := ImportAll(r, Genesis(g), a);
            c.canon == ImportAll(r, Genesis(g), b).canon && Heaviest(u, g, HashesOf(a) + {g.hash}, c.Head().b.hash)
  {
    var c, d := ImportAll(r, Genesis(g), a), ImportAll(r, Genesis(g), b);
    var hs := HashesOf(a) + {g.hash};
    ImportAllGood(u, g, r, a);
    ImportAllGood(u, g, r, b);
    hide ImportAll, AllAccepted, HashesOf, Ok, Best, MinedOnly, KnowsOnly, KnowsHash, Heaviest;
    KnowsGenesis(u, g, r, c);
    KnowsGenesis(u, g, r, d);
    BestAgree(u, g, r, c, d, hs);
  }
}
