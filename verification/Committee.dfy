/** Committee weights, quorums and leaders (crates/consensus/src/types.rs). Validator indices are
    `u16` in the source and `nat` here; weights are unbounded. */
module Committee {

  datatype ValidatorSet = ValidatorSet(weights: seq<nat>, seats: seq<nat>) {

    function Len(): nat {
      |weights|
    }

    function Total(): nat {
      PrefixSum(weights, |weights|)
    }

    /** Weight of a validator; unknown indices count zero. */
    function Weight(i: nat): nat {
      if i < |weights| then weights[i] else 0
    }

    /** Weight of a list of signers, repeated entries counted each time. */
    function WeightOf(signers: seq<nat>): nat {
      if signers == [] then 0
      else WeightOf(signers[..|signers| - 1]) + Weight(signers[|signers| - 1])
    }

    predicate IsQuorum(weight: nat) {
      weight * 3 > Total() * 2
    }

    predicate IsOneThird(weight: nat) {
      weight * 3 > Total()
    }

    /** The leader rotates over the seats, or over the validators when there are none. The source
        divides by zero on a set with neither; here that set has leader 0. */
    function Leader(round: nat): nat {
      if |seats| > 0 then seats[round % |seats|]
      else if |weights| > 0 then round % |weights|
      else 0
    }
  }

  function PrefixSum(w: seq<nat>, n: nat): nat
    requires n <= |w|
  {
    if n == 0 then 0 else PrefixSum(w, n - 1) + w[n - 1]
  }

  /** Weight of the members of `s` among the first `n` validators, each counted once. */
  function SetWeight(w: seq<nat>, s: set<nat>, n: nat): nat
    requires n <= |w|
  {
    if n == 0 then 0 else SetWeight(w, s, n - 1) + (if n - 1 in s then w[n - 1] else 0)
  }

  function Elems(s: seq<nat>): set<nat> {
    set x | x in s
  }

  predicate Ascending(s: seq<nat>) {
    forall i, j :: 0 <= i < j < |s| ==> s[i] < s[j]
  }

  predicate Distinct<T(==)>(s: seq<T>) {
    forall i, j :: 0 <= i < j < |s| ==> s[i] != s[j]
  }

  /** The members of `s` below `n`, in ascending order: the key order of the source's B-tree maps. */
  function Sorted(s: set<nat>, n: nat): (r: seq<nat>)
    ensures Ascending(r)
    ensures forall i :: 0 <= i < |r| ==> r[i] < n
    ensures forall x :: x in r <==> x in s && x < n
  {
    if n == 0 then []
    else
      var r := Sorted(s, n - 1);
      if n - 1 in s then r + [n - 1] else r
  }

  lemma {:induction false} SetWeightMonotone(w: seq<nat>, a: set<nat>, b: set<nat>, n: nat)
    requires n <= |w|
    requires forall x :: x in a && x < n ==> x in b
    ensures SetWeight(w, a, n) <= SetWeight(w, b, n) <= PrefixSum(w, n)
  {
    if n > 0 {
      SetWeightMonotone(w, a, b, n - 1);
    }
  }

  lemma {:induction false} SetWeightUnion(w: seq<nat>, a: set<nat>, b: set<nat>, n: nat)
    requires n <= |w|
    ensures SetWeight(w, a, n) + SetWeight(w, b, n) == SetWeight(w, a + b, n) + SetWeight(w, a * b, n)
  {
    if n > 0 {
      SetWeightUnion(w, a, b, n - 1);
    }
  }

  /** An ascending in-range signer list weighs what its set weighs. */
  lemma {:induction false} ListWeight(v: ValidatorSet, s: seq<nat>, n: nat)
    requires n <= v.Len() && Ascending(s)
    requires forall i :: 0 <= i < |s| ==> s[i] < n
    ensures v.WeightOf(s) == SetWeight(v.weights, Elems(s), n)
    decreases n
  {
    if n == 0 {
      assert s == [];
    } else if |s| > 0 && s[|s| - 1] == n - 1 {
      var t := s[..|s| - 1];
      ListWeight(v, t, n - 1);
      assert s == t + [n - 1];
      assert n - 1 in Elems(s);
      SetWeightMonotone(v.weights, Elems(s), Elems(t), n - 1);
      SetWeightMonotone(v.weights, Elems(t), Elems(s), n - 1);
    } else {
      ListWeight(v, s, n - 1);
    }
  }

  ghost function Weigh(v: ValidatorSet, s: set<nat>): nat {
    SetWeight(v.weights, s, v.Len())
  }

  ghost predicate Quorum(v: ValidatorSet, s: set<nat>) {
    v.IsQuorum(Weigh(v, s))
  }

  lemma {:induction false} AddMember(w: seq<nat>, s: set<nat>, x: nat, n: nat)
    requires n <= |w| && x < |w| && x !in s
    ensures SetWeight(w, s + {x}, n) == SetWeight(w, s, n) + if x < n then w[x] else 0
  {
    if n > 0 {
      AddMember(w, s, x, n - 1);
    }
  }

  lemma {:induction false} NoWeight(w: seq<nat>, n: nat)
    requires n <= |w|
    ensures SetWeight(w, {}, n) == 0
  {
    if n > 0 {
      NoWeight(w, n - 1);
    }
  }

  lemma {:induction false} DistinctWeight(v: ValidatorSet, s: seq<nat>)
    requires Distinct(s) && forall i :: 0 <= i < |s| ==> s[i] < v.Len()
    ensures v.WeightOf(s) == Weigh(v, Elems(s))
  {
    if s == [] {
      NoWeight(v.weights, v.Len());
      assert Elems(s) == {};
    } else {
      var t, x := s[..|s| - 1], s[|s| - 1];
      DistinctWeight(v, t);
      AddMember(v.weights, Elems(t), x, v.Len());
      assert s == t + [x];
      assert Elems(s) == Elems(t) + {x};
    }
  }

  lemma QuorumMonotone(v: ValidatorSet, a: set<nat>, b: set<nat>)
    requires Quorum(v, a) && a <= b
    ensures Quorum(v, b)
  {
    SetWeightMonotone(v.weights, a, b, v.Len());
  }

  /** Two quorums share more than a third of the weight. */
  lemma QuorumIntersection(v: ValidatorSet, a: set<nat>, b: set<nat>)
    requires Quorum(v, a) && Quorum(v, b)
    ensures v.IsOneThird(Weigh(v, a * b))
  {
    var n := v.Len();
    SetWeightUnion(v.weights, a, b, n);
    SetWeightMonotone(v.weights, a + b, a + b, n);
  }

  /** With at most a third of the weight Byzantine, any set of more than a third has an honest
      member, which is returned. */
  lemma HonestMember(v: ValidatorSet, byz: set<nat>, s: set<nat>) returns (i: nat)
    requires !v.IsOneThird(Weigh(v, byz)) && v.IsOneThird(Weigh(v, s))
    ensures i in s && i !in byz && i < v.Len()
  {
    if forall x :: x in s && x < v.Len() ==> x in byz {
      SetWeightMonotone(v.weights, s, byz, v.Len());
      assert false;
    }
    i :| i in s && i < v.Len() && i !in byz;
  }

  /** Any two quorums share an honest member. */
  lemma HonestInBoth(v: ValidatorSet, byz: set<nat>, a: set<nat>, b: set<nat>) returns (i: nat)
    requires !v.IsOneThird(Weigh(v, byz)) && Quorum(v, a) && Quorum(v, b)
    ensures i in a && i in b && i !in byz && i < v.Len()
  {
    QuorumIntersection(v, a, b);
    i := HonestMember(v, byz, a * b);
  }

  // ---- leaders

  function UpTo(n: nat): (s: seq<nat>)
    ensures |s| == n && forall i :: 0 <= i < n ==> s[i] == i
  {
    if n == 0 then [] else UpTo(n - 1) + [n - 1]
  }

  /** The seats that take turns: a committee without seats rotates through its members. */
  function Turns(v: ValidatorSet): seq<nat> {
    if |v.seats| > 0 then v.seats else UpTo(v.Len())
  }

  function Leaders(v: ValidatorSet, from: nat, n: nat): seq<nat> {
    seq<nat>(n, i requires 0 <= i < n => v.Leader(from + i))
  }

  lemma TurnIs(v: ValidatorSet, round: nat)
    requires |Turns(v)| > 0
    ensures v.Leader(round) == Turns(v)[round % |Turns(v)|]
  {
  }

  lemma RoundTurn(from: nat, i: nat, n: nat)
    requires 0 < n && i < n
    ensures var k := from % n; (from + i) % n == if k + i < n then k + i else k + i - n
  {
    var k := from % n;
    assert from == n * (from / n) + k;
    var j := if k + i < n then k + i else k + i - n;
    var q := if k + i < n then from / n else from / n + 1;
    assert from + i == n * q + j by {
      assert n * (from / n + 1) == n * (from / n) + n;
    }
    Remainder(n, q, j);
  }

  lemma Remainder(n: int, q: int, j: int)
    requires 0 <= j < n
    ensures (n * q + j) % n == j
  {
    var x := n * q + j;
    assert x == n * (x / n) + x % n;
    var d := q - x / n;
    assert n * d == n * q - n * (x / n);
    assert d >= 1 ==> n * d >= n;
    assert d <= -1 ==> n * d <= -n;
  }

  /** In every stretch of as many rounds as there are seats, wherever it starts, each seat leads exactly once; so
      each member leads as often as it has weight, if its weight is its number of seats. */
  lemma LeadersTurn(v: ValidatorSet, from: nat)
    requires |Turns(v)| > 0
    ensures multiset(Leaders(v, from, |Turns(v)|)) == multiset(Turns(v))
    ensures forall i :: 0 <= i < v.Len() && |v.seats| > 0 && v.weights[i] == multiset(v.seats)[i] ==>
              multiset(Leaders(v, from, |Turns(v)|))[i] == v.weights[i]
  {
    var t := Turns(v);
    var n := |t|;
    var k := from % n;
    hide Turns, ValidatorSet.Leader;
    var l := Leaders(v, from, n);
    forall i | 0 <= i < n ensures l[i] == (t[k..] + t[..k])[i] {
      TurnIs(v, from + i);
      RoundTurn(from, i, n);
    }
    assert l == t[k..] + t[..k];
    assert t == t[..k] + t[k..];
    assert multiset(l) == multiset(t);
    assert |v.seats| > 0 ==> t == v.seats by { TurnsAre(v); }
  }

  lemma TurnsAre(v: ValidatorSet)
    ensures |v.seats| > 0 ==> Turns(v) == v.seats
  {
  }
}
