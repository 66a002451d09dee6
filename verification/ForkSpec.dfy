/** Fork choice among mined blocks as functions on values (crates/chain/src/pow.rs): the canonical
    chain, the side blocks and the finalized checkpoint. `ForkChoice.dfy` holds the imperative form.

    Executing a block and the kind-specific header checks are deterministic predicates of the chain
    below it, given as parameters. Total difficulties are unbounded. */
module ForkSpec {
  import opened Options

  const MAX_REORG_DEPTH: nat := 128
  const MAX_FUTURE_SECONDS: nat := 15

  /** A header with everything the fork choice does not read in `body`. Hashes are ordered numbers. */
  datatype Block = Block(hash: nat, parent: nat, number: nat, difficulty: nat, time: nat, body: nat)

  /** A block and the work of its branch, its own included. */
  datatype Entry = Entry(b: Block, td: nat)

  /** `exec(chain, b)`: block `b` executes on top of `chain`. `header(chain, b, parent)`: the
      difficulty, seal and phase checks of a side block, given the canonical chain. */
  datatype Rules = Rules(exec: (seq<Block>, Block) -> bool, header: (seq<Block>, Block, Block) -> bool)

  datatype Mark = Mark(number: nat, hash: nat)

  /** `canon[n]` is the canonical block of height `n`. */
  datatype Chain = Chain(canon: seq<Entry>, side: map<nat, Entry>, fin: Option<Mark>) {
    function Head(): Entry
      requires canon != []
    {
      canon[|canon| - 1]
    }
  }

  function Blocks(canon: seq<Entry>): seq<Block> {
    seq(|canon|, i requires 0 <= i < |canon| => canon[i].b)
  }

  /** The chain that holds only the genesis block. */
  function Genesis(g: Block): Chain {
    Chain([Entry(g, g.difficulty)], map[], None)
  }

  /** Height of the canonical block with this hash. */
  function NumberOf(canon: seq<Entry>, hash: nat): (n: Option<nat>)
    ensures n.Some? ==> n.value < |canon| && canon[n.value].b.hash == hash
    ensures n.None? ==> forall i :: 0 <= i < |canon| ==> canon[i].b.hash != hash
  {
    if canon == [] then None
    else if canon[|canon| - 1].b.hash == hash then Some(|canon| - 1)
    else NumberOf(canon[..|canon| - 1], hash)
  }

  datatype Located = Located(entry: Entry, canonical: bool)

  function Locate(c: Chain, hash: nat): Option<Located> {
    match NumberOf(c.canon, hash)
    case Some(n) => Some(Located(c.canon[n], true))
    case None => if hash in c.side then Some(Located(c.side[hash], false)) else None
  }

  function SideAbove(side: map<nat, Entry>, horizon: nat): map<nat, Entry> {
    map h | h in side && side[h].b.number > horizon :: side[h]
  }

  /** Appends a child of the head. Side blocks 128 or more below it leave the side map. */
  function ImportFinal(r: Rules, c: Chain, b: Block): Option<Chain>
    requires c.canon != []
  {
    var head := c.Head();
    if b.parent != head.b.hash || b.number != head.b.number + 1 || b.time <= head.b.time || !r.exec(Blocks(c.canon), b)
    then None
    else
      var horizon := if b.number >= MAX_REORG_DEPTH then b.number - MAX_REORG_DEPTH else 0;
      Some(Chain(c.canon + [Entry(b, head.td + b.difficulty)], SideAbove(c.side, horizon), c.fin))
  }

  // ---- reorganisation

  /** A side branch, oldest first, and the hash it hangs off. */
  datatype Gathered = Gathered(branch: seq<Entry>, base: nat)

  function Rank(side: map<nat, Entry>, h: nat): nat {
    if h in side then side[h].b.number + 1 else 0
  }

  /** Follows side blocks down from `cur`. A side block numbered no higher than its parent would end
      the walk; numbers rule that out. */
  function Gather(side: map<nat, Entry>, cur: nat): Gathered
    decreases Rank(side, cur)
  {
    if cur !in side then Gathered([], cur)
    else
      var e := side[cur];
      if Rank(side, e.b.parent) >= Rank(side, cur) then Gathered([e], e.b.parent)
      else
        var g := Gather(side, e.b.parent);
        Gathered(g.branch + [e], g.base)
  }

  datatype Played = Played(c: Chain, n: nat)

  /** Imports a branch block by block until one fails; imported blocks leave the side map. */
  function Replay(r: Rules, c: Chain, branch: seq<Entry>): (p: Played)
    requires c.canon != []
    ensures p.c.canon != [] && p.n <= |branch|
    decreases |branch|
  {
    if branch == [] then Played(c, 0)
    else
      match ImportFinal(r, c, branch[0].b)
      case None => Played(c, 0)
      case Some(d) =>
        var p := Replay(r, d.(side := d.side - {branch[0].b.hash}), branch[1..]);
        Played(p.c, p.n + 1)
  }

  /** Imports undone blocks again; each leaves the side map first. */
  function Restore(r: Rules, c: Chain, undone: seq<Entry>): (d: Chain)
    requires c.canon != []
    ensures d.canon != []
    decreases |undone|
  {
    if undone == [] then c
    else
      var d := c.(side := c.side - {undone[0].b.hash});
      match ImportFinal(r, d, undone[0].b)
      case None => d
      case Some(e) => Restore(r, e, undone[1..])
  }

  function Hashes(es: seq<Entry>): set<nat> {
    set e | e in es :: e.b.hash
  }

  function AddSide(side: map<nat, Entry>, es: seq<Entry>): map<nat, Entry> {
    if es == [] then side
    else
      var e := es[|es| - 1];
      AddSide(side, es[..|es| - 1])[e.b.hash := e]
  }

  datatype Error = Invalid | UnknownParent | DeepReorg

  datatype Reorg = Done(c: Chain, depth: nat) | Refused(c: Chain, e: Error)

  /** A block above `fork` has difficulty zero, as only PoS blocks do. */
  predicate PosAbove(canon: seq<Entry>, fork: nat) {
    exists n :: fork < n < |canon| && canon[n].b.difficulty == 0
  }

  /** Switches to the branch of side block `tip`: three reasons to refuse, then unwind and replay. A block
      that fails to replay brings the old chain back. */
  function ReorgTo(r: Rules, c: Chain, tip: nat): (x: Reorg)
    requires c.canon != []
    ensures x.c.canon != []
  {
    var g := Gather(c.side, tip);
    match NumberOf(c.canon, g.base)
    case None => Refused(c, UnknownParent)
    case Some(fork) =>
      var depth := |c.canon| - 1 - fork;
      if c.fin.Some? && fork < c.fin.value.number then Refused(c, DeepReorg)
      else if depth > MAX_REORG_DEPTH || PosAbove(c.canon, fork) then Refused(c, DeepReorg)
      else
        var undone := c.canon[fork + 1..];
        var p := Replay(r, c.(canon := c.canon[..fork + 1]), g.branch);
        if p.n == |g.branch| then Done(p.c.(side := AddSide(p.c.side, undone)), depth)
        else
          var kept := Chain(c.canon[..fork + 1], p.c.side - Hashes(g.branch[p.n..]), c.fin);
          Refused(Restore(r, kept, undone), Invalid)
  }

  // ---- imports

  datatype Outcome = Known | Extended | OnSide | Reorged(depth: nat) | Rejected(e: Error)

  datatype Imported = Imported(c: Chain, outcome: Outcome)

  /** `e` is no better than the head: less work, or the same work and no smaller hash. */
  predicate Loses(e: Entry, head: Entry) {
    e.td < head.td || (e.td == head.td && e.b.hash >= head.b.hash)
  }

  predicate HeaderOk(r: Rules, c: Chain, b: Block, parent: Block) {
    && b.number == parent.number + 1
    && b.time > parent.time
    && b.difficulty > 0
    && r.header(Blocks(c.canon), b, parent)
  }

  function ImportMined(r: Rules, c: Chain, b: Block, now: nat): (i: Imported)
    requires c.canon != []
    ensures i.c.canon != []
  {
    if Locate(c, b.hash).Some? then Imported(c, Known)
    else if b.time > now + MAX_FUTURE_SECONDS then Imported(c, Rejected(Invalid))
    else
      match Locate(c, b.parent)
      case None => Imported(c, Rejected(UnknownParent))
      case Some(p) =>
        if c.fin.Some? && p.canonical && p.entry.b.number < c.fin.value.number then Imported(c, Rejected(DeepReorg))
        else if b.parent == c.Head().b.hash then
          if b.difficulty == 0 then Imported(c, Rejected(Invalid))
          else
            match ImportFinal(r, c, b)
            case None => Imported(c, Rejected(Invalid))
            case Some(d) => Imported(d, Extended)
        else if !HeaderOk(r, c, b, p.entry.b) then Imported(c, Rejected(Invalid))
        else
          var e := Entry(b, p.entry.td + b.difficulty);
          var d := c.(side := c.side[b.hash := e]);
          if Loses(e, c.Head()) then Imported(d, OnSide)
          else
            match ReorgTo(r, d, b.hash)
            case Done(f, depth) => Imported(f, Reorged(depth))
            case Refused(f, err) => Imported(f, Rejected(err))
  }

  datatype Finalized = Changed(c: Chain) | Already | Failed(c: Chain, e: Error)

  /** Marks a checkpoint, first switching to its branch if necessary: work is not compared here. */
  function Finalize(r: Rules, c: Chain, hash: nat, height: nat): Finalized
    requires c.canon != []
  {
    if c.fin.Some? && c.fin.value.number >= height then Already
    else
      match Locate(c, hash)
      case None => Failed(c, UnknownParent)
      case Some(l) =>
        if l.entry.b.number != height then Failed(c, Invalid)
        else
          var re := if l.canonical then Done(c, 0) else ReorgTo(r, c, hash);
          match re
          case Refused(d, e) => Failed(d, e)
          case Done(d, _) => Changed(Chain(d.canon, SideAbove(d.side, height), Some(Mark(height, hash))))
  }

  /** The node treats height `n` as settled: PoS, under a checkpoint, or 128 deep. `pos(chain, n)` reads
      the phase of height `n` from the state after `chain`. */
  predicate IsFinal(pos: (seq<Block>, nat) -> bool, c: Chain, n: nat)
    requires c.canon != []
  {
    || pos(Blocks(c.canon), n)
    || (c.fin.Some? && c.fin.value.number >= n)
    || |c.canon| - 1 >= n + MAX_REORG_DEPTH
  }
}
