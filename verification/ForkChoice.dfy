/** The fork choice as an object that updates its chain, side blocks and finalized mark in place
    (crates/chain/src/pow.rs). Every method computes the function of the same name in `ForkSpec`. */
module ForkChoice {
  import opened Options
  import opened ForkSpec
  import opened Sequences

  /** Replaying a branch only adds blocks. */
  lemma {:induction false} ReplayPrefix(r: Rules, c: Chain, branch: seq<Entry>)
    requires c.canon != []
    ensures var p := Replay(r, c, branch);
            |p.c.canon| >= |c.canon| && p.c.canon[..|c.canon|] == c.canon && p.c.fin == c.fin
    decreases |branch|
  {
    if branch != [] {
      var o := ForkSpec.ImportFinal(r, c, branch[0].b);
      if o.Some? {
        var d := o.value;
        var next := d.(side := d.side - {branch[0].b.hash});
        ReplayPrefix(r, next, branch[1..]);
        var p := Replay(r, next, branch[1..]);
        assert p.c.canon[..|c.canon|] == p.c.canon[..|d.canon|][..|c.canon|];
      }
    }
  }

  class Node {
    const rules: Rules
    var canon: seq<Entry>
    var side: map<nat, Entry>
    var fin: Option<Mark>

    function View(): Chain
      reads this
    {
      Chain(canon, side, fin)
    }

    constructor (rules: Rules, g: Block)
      ensures View() == Genesis(g) && this.rules == rules
    {
      this.rules := rules;
      canon, side, fin := [Entry(g, g.difficulty)], map[], None;
    }

    method ImportFinal(b: Block) returns (ok: bool)
      requires canon != []
      modifies this
      ensures ok == ForkSpec.ImportFinal(rules, old(View()), b).Some?
      ensures View() == if ok then ForkSpec.ImportFinal(rules, old(View()), b).value else old(View())
    {
      var head := View().Head();
      if b.parent != head.b.hash || b.number != head.b.number + 1 || b.time <= head.b.time
         || !rules.exec(Blocks(canon), b) {
        return false;
      }
      canon := canon + [Entry(b, head.td + b.difficulty)];
      var horizon := if b.number >= MAX_REORG_DEPTH then b.number - MAX_REORG_DEPTH else 0;
      side := SideAbove(side, horizon);
      ok := true;
    }

    /** Cuts the chain after height `number`. What was cut off comes back in chain order. */
    method UnwindTo(number: nat) returns (undone: seq<Entry>)
      requires number < |canon|
      modifies this`canon
      ensures canon == old(canon)[..number + 1] && undone == old(canon)[number + 1..]
    {
      var popped := [];
      while |canon| - 1 > number
        invariant number < |canon| <= |old(canon)| && canon == old(canon)[..|canon|]
        invariant |popped| == |old(canon)| - |canon|
        invariant forall i :: 0 <= i < |popped| ==> popped[i] == old(canon)[|old(canon)| - 1 - i]
      {
        popped := popped + [canon[|canon| - 1]];
        canon := canon[..|canon| - 1];
      }
      ReversedSlice(old(canon), number + 1, popped);
      undone := Reversed(popped);
    }

    /** The side branch that ends at `tip`, oldest first, and the hash it hangs off. */
    method CollectBranch(tip: nat) returns (g: Gathered)
      ensures g == Gather(side, tip)
    {
      var cur, branch := tip, [];
      while cur in side
        invariant Gather(side, tip).branch == Gather(side, cur).branch + branch
        invariant Gather(side, tip).base == Gather(side, cur).base
        decreases Rank(side, cur)
      {
        var e := side[cur];
        branch := [e] + branch;
        if Rank(side, e.b.parent) >= Rank(side, cur) {
          assert Gather(side, cur).branch + branch[1..] == branch;
          return Gathered(branch, e.b.parent);
        }
        assert Gather(side, cur).branch + branch[1..] == Gather(side, e.b.parent).branch + branch;
        cur := e.b.parent;
      }
      assert Gather(side, cur).branch + branch == branch;
      g := Gathered(branch, cur);
    }

    method HoldsPos(fork: nat) returns (b: bool)
      requires fork < |canon|
      ensures b == PosAbove(canon, fork)
    {
      for n := fork + 1 to |canon|
        invariant forall i :: fork < i < n ==> canon[i].b.difficulty != 0
      {
        if canon[n].b.difficulty == 0 {
          return true;
        }
      }
      b := false;
    }

    /** Imports the branch until a block fails; returns how many were imported. */
    method ReplayBranch(branch: seq<Entry>) returns (n: nat)
      requires canon != []
      modifies this
      ensures Played(View(), n) == Replay(rules, old(View()), branch)
    {
      n := 0;
      while n < |branch|
        invariant n <= |branch| && canon != []
        invariant var p := Replay(rules, View(), branch[n..]);
                  Replay(rules, old(View()), branch) == Played(p.c, p.n + n)
      {
        var h := branch[n].b.hash;
        assert branch[n..][1..] == branch[n + 1..];
        var ok := ImportFinal(branch[n].b);
        if !ok {
          return;
        }
        side := side - {h};
        n := n + 1;
      }
    }

    method RestoreBranch(undone: seq<Entry>)
      requires canon != []
      modifies this
      ensures View() == Restore(rules, old(View()), undone)
    {
      for n := 0 to |undone|
        invariant canon != []
        invariant Restore(rules, old(View()), undone) == Restore(rules, View(), undone[n..])
      {
        assert undone[n..][1..] == undone[n + 1..];
        side := side - {undone[n].b.hash};
        var ok := ImportFinal(undone[n].b);
        if !ok {
          return;
        }
      }
    }

    /** Switches to the branch of side block `tip`; any failure leaves the chain alone. */
    method ReorgTo(tip: nat) returns (err: Option<Error>, depth: nat)
      requires canon != []
      modifies this
      ensures match ForkSpec.ReorgTo(rules, old(View()), tip)
              case Done(c, d) => View() == c && err == None && depth == d
              case Refused(c, e) => View() == c && err == Some(e)
    {
      hide Replay, Restore, Gather, PosAbove, AddSide;
      depth := 0;
      var g := CollectBranch(tip);
      var at := NumberOf(canon, g.base);
      if at == None {
        return Some(UnknownParent), 0;
      }
      var fork := at.value;
      depth := |canon| - 1 - fork;
      if fin.Some? && fork < fin.value.number {
        return Some(DeepReorg), depth;
      }
      var pos := HoldsPos(fork);
      if depth > MAX_REORG_DEPTH || pos {
        return Some(DeepReorg), depth;
      }
      var undone := UnwindTo(fork);
      ReplayPrefix(rules, View(), g.branch);
      var n := ReplayBranch(g.branch);
      if n < |g.branch| {
        side := side - Hashes(g.branch[n..]);
        var added := UnwindTo(fork);
        RestoreBranch(undone);
        return Some(Invalid), depth;
      }
      side := AddSide(side, undone);
      err := None;
    }

    method ImportMined(b: Block, now: nat) returns (out: Outcome)
      requires canon != []
      modifies this
      ensures Imported(View(), out) == ForkSpec.ImportMined(rules, old(View()), b, now)
    {
      hide Locate, ForkSpec.ReorgTo, ForkSpec.ImportFinal, HeaderOk;
      if Locate(View(), b.hash).Some? {
        return Known;
      }
      if b.time > now + MAX_FUTURE_SECONDS {
        return Rejected(Invalid);
      }
      var p := Locate(View(), b.parent);
      if p == None {
        return Rejected(UnknownParent);
      }
      var parent := p.value;
      if fin.Some? && parent.canonical && parent.entry.b.number < fin.value.number {
        return Rejected(DeepReorg);
      }
      var head := View().Head();
      if b.parent == head.b.hash {
        if b.difficulty == 0 {
          return Rejected(Invalid);
        }
        var ok := ImportFinal(b);
        return if ok then Extended else Rejected(Invalid);
      }
      if !HeaderOk(rules, View(), b, parent.entry.b) {
        return Rejected(Invalid);
      }
      var e := Entry(b, parent.entry.td + b.difficulty);
      side := side[b.hash := e];
      if Loses(e, head) {
        return OnSide;
      }
      var err, depth := ReorgTo(b.hash);
      out := match err case None => Reorged(depth) case Some(x) => Rejected(x);
    }

    method Finalize(hash: nat, height: nat) returns (err: Option<Error>, changed: bool)
      requires canon != []
      modifies this
      ensures match ForkSpec.Finalize(rules, old(View()), hash, height)
              case Changed(c) => View() == c && err == None && changed
              case Already => View() == old(View()) && err == None && !changed
              case Failed(c, e) => View() == c && err == Some(e) && !changed
    {
      hide Locate, ForkSpec.ReorgTo, SideAbove;
      if fin.Some? && fin.value.number >= height {
        return None, false;
      }
      var at := Locate(View(), hash);
      if at == None {
        return Some(UnknownParent), false;
      }
      if at.value.entry.b.number != height {
        return Some(Invalid), false;
      }
      if !at.value.canonical {
        var depth;
        err, depth := ReorgTo(hash);
        if err.Some? {
          return err, false;
        }
      }
      fin := Some(Mark(height, hash));
      side := SideAbove(side, height);
      return None, true;
    }
  }
}
