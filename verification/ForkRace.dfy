/** Two mined blocks of equal work that race on the genesis block: the hypotheses of the order theorem
    are met, with a reorganisation in one order and none in the other. */
module ForkRace {
  import opened Options
  import opened ForkSpec
  import opened ForkProofs
  import opened ForkOrder

  function Permissive(): Rules { Rules((_, _) => true, (_, _, _) => true) }
  const G := Block(9, 0, 0, 1, 0, 0)
  const A := Block(5, 9, 1, 1, 1, 0)
  const B := Block(3, 9, 1, 1, 1, 0)
  const EG := Entry(G, 1)
  const EA := Entry(A, 2)
  const EB := Entry(B, 2)

  lemma First(b: Block)
    requires b == A || b == B
    ensures ImportMined(Permissive(), Genesis(G), b, 0) == Imported(Chain([EG, Entry(b, 2)], map[], None), Extended)
  {
    var c := Genesis(G);
    assert c.canon[..0] == [];
    assert NumberOf(c.canon, b.hash) == None;
    assert SideAbove(map[], 0) == map[];
  }

  lemma SecondLoses()
    ensures ImportMined(Permissive(), Chain([EG, EB], map[], None), A, 0) == Imported(Chain([EG, EB], map[5 := EA], None), OnSide)
  {
    var c := Chain([EG, EB], map[], None);
    assert c.canon[..1] == [EG] && [EG][..0] == [];
    assert NumberOf(c.canon, 5) == None;
    assert NumberOf(c.canon, 9) == Some(0);
  }

  lemma SecondWins()
    ensures ImportMined(Permissive(), Chain([EG, EA], map[], None), B, 0) == Imported(Chain([EG, EB], map[5 := EA], None), Reorged(1))
  {
    var c := Chain([EG, EA], map[], None);
    assert c.canon[..1] == [EG] && [EG][..0] == [];
    assert NumberOf(c.canon, 3) == None;
    assert NumberOf(c.canon, 9) == Some(0);
    var d := Chain([EG, EA], map[3 := EB], None);
    assert Gather(d.side, 9) == Gathered([], 9);
    assert [] + [EB] == [EB];
    assert Gather(d.side, 3) == Gathered([EB], 9);
    assert !PosAbove(d.canon, 0);
    var start := d.(canon := [EG]);
    assert SideAbove(d.side, 0) == d.side;
    var e := Chain([EG, EB], map[], None);
    assert d.side - {3} == map[];
    assert [EB][1..] == [];
    assert Replay(Permissive(), e, []) == Played(e, 0);
    assert Replay(Permissive(), start, [EB]) == Played(e, 1);
    assert d.canon[1..] == [EA] && [EA][..0] == [];
    assert AddSide(map[], [EA]) == map[5 := EA];
  }

  lemma Both(r: Rules, c: Chain, x: Arrival, y: Arrival)
    requires c.canon != []
    ensures var d := ImportMined(r, c, x.b, x.now);
            var e := ImportMined(r, d.c, y.b, y.now);
            && ImportAll(r, c, [x, y]) == e.c
            && (AllAccepted(r, c, [x, y]) <==> !d.outcome.Rejected? && !e.outcome.Rejected?)
  {
    hide ImportMined;
    var l := [x, y];
    assert l[..1] == [x] && [x][..0] == [];
    assert ImportAll(r, c, []) == c;
    assert ImportAll(r, c, [x]) == ImportMined(r, c, x.b, x.now).c;
    assert AllAccepted(r, c, []);
    assert AllAccepted(r, c, [x]) <==> !ImportMined(r, c, x.b, x.now).outcome.Rejected?;
  }

  lemma End()
    ensures var c := Chain([EG, EB], map[5 := EA], None); KnowsHash(c, 3) && KnowsHash(c, 5)
  {
    var c := Chain([EG, EB], map[5 := EA], None);
    assert c.canon[1].b.hash == 3;
    assert 5 in c.side;
  }

  lemma Racers(x: Arrival, y: Arrival)
    requires {x.b.hash, y.b.hash} == {3, 5}
    ensures HashesOf([x, y]) == {3, 5}
  {
    var l := [x, y];
    assert l[0] in l && l[1] in l;
    assert forall a :: a in l ==> a == x || a == y;
    assert HashesOf(l) == {x.b.hash, y.b.hash};
  }

  /** Both orders are accepted, keep both blocks and end at the lower hash. */
  lemma RaceMeetsOrder()
    ensures var a, b := [Arrival(A, 0), Arrival(B, 0)], [Arrival(B, 0), Arrival(A, 0)];
            && AllAccepted(Permissive(), Genesis(G), a) && AllAccepted(Permissive(), Genesis(G), b)
            && HashesOf(a) == HashesOf(b)
            && KnowsAll(ImportAll(Permissive(), Genesis(G), a), a) && KnowsAll(ImportAll(Permissive(), Genesis(G), b), b)
            && ImportAll(Permissive(), Genesis(G), a).canon == [EG, EB]
  {
    hide ImportMined, ImportAll, AllAccepted, HashesOf, KnowsHash, Permissive;
    First(A);
    First(B);
    SecondLoses();
    SecondWins();
    Both(Permissive(), Genesis(G), Arrival(A, 0), Arrival(B, 0));
    Both(Permissive(), Genesis(G), Arrival(B, 0), Arrival(A, 0));
    Racers(Arrival(A, 0), Arrival(B, 0));
    Racers(Arrival(B, 0), Arrival(A, 0));
    End();
  }
}
