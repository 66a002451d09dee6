/** Lazy vote checking (`Engine::on_vote`) against verifying each vote as it comes: whatever forgeries
    and duplicates arrive, the certificate forms at the same arrival, from the same signers. */
module LazyVotes {
  import opened Options
  import opened Committee
  import opened Certificates
  import opened EngineSpec

  /** One vote of a signer, genuine or not. */
  datatype Arrival = Arrival(signer: nat, sig: Sig)

  /** The reference: keep a vote only if its signature verifies. */
  datatype Eager = Eager(votes: map<nat, Sig>, done: bool)

  datatype EagerTally = EagerTally(e: Eager, formed: Option<Formed>)

  function Collected(v: ValidatorSet, votes: map<nat, Sig>): Formed {
    var signers := Sorted(votes.Keys, v.Len());
    Formed(signers, seq(|signers|, i requires 0 <= i < |signers| => if signers[i] in votes then votes[signers[i]] else Junk(0)))
  }

  predicate Enough(v: ValidatorSet, keys: set<nat>) {
    v.IsQuorum(v.WeightOf(Sorted(keys, v.Len())))
  }

  function EagerAdd(v: ValidatorSet, msg: Msg, e: Eager, a: Arrival): EagerTally {
    if e.done || a.signer in e.votes || !VerifySig(a.signer, msg, a.sig) then EagerTally(e, None)
    else
      var votes := e.votes[a.signer := a.sig];
      if Enough(v, votes.Keys) then EagerTally(Eager(votes, true), Some(Collected(v, votes)))
      else EagerTally(Eager(votes, false), None)
  }

  /** What forms at each arrival. */
  function LazyOutcomes(v: ValidatorSet, msg: Msg, vs: VoteSet, arrivals: seq<Arrival>): seq<Option<Formed>>
    decreases |arrivals|
  {
    if arrivals == [] then []
    else
      var t := AddVote(v, msg, vs, vs.height, arrivals[0].signer, arrivals[0].sig);
      [t.formed] + LazyOutcomes(v, msg, t.votes, arrivals[1..])
  }

  function EagerOutcomes(v: ValidatorSet, msg: Msg, e: Eager, arrivals: seq<Arrival>): seq<Option<Formed>>
    decreases |arrivals|
  {
    if arrivals == [] then []
    else
      var t := EagerAdd(v, msg, e, arrivals[0]);
      [t.formed] + EagerOutcomes(v, msg, t.e, arrivals[1..])
  }

  /** The signers whose genuine vote a set holds, checked or not. */
  function Good(msg: Msg, vs: VoteSet): set<nat> {
    vs.sigs.Keys + VerifiedVotes(vs.pending, msg).Keys
  }

  ghost predicate AllValid(msg: Msg, votes: map<nat, Sig>) {
    forall i :: i in votes ==> VerifySig(i, msg, votes[i])
  }

  ghost predicate WellKept(v: ValidatorSet, msg: Msg, vs: VoteSet) {
    && AllValid(msg, vs.sigs)
    && vs.sigs.Keys !! vs.pending.Keys
    && (forall i :: i in vs.sigs || i in vs.pending ==> i < v.Len())
  }

  /** The lazy set and the eager one have met the same genuine votes. */
  ghost predicate Matches(v: ValidatorSet, msg: Msg, vs: VoteSet, e: Eager) {
    && vs.done == e.done
    && (!vs.done ==> WellKept(v, msg, vs) && Good(msg, vs) == e.votes.Keys && AllValid(msg, e.votes) && !Enough(v, e.votes.Keys))
  }

  /** The certificate of these signers. */
  function Expected(v: ValidatorSet, msg: Msg, keys: set<nat>): Formed {
    var signers := Sorted(keys, v.Len());
    Formed(signers, seq(|signers|, i requires 0 <= i < |signers| => Signed(signers[i], msg)))
  }

  lemma EnoughMonotone(v: ValidatorSet, a: set<nat>, b: set<nat>)
    requires Enough(v, a) && a <= b
    ensures Enough(v, b)
  {
    var n := v.Len();
    ListWeight(v, Sorted(a, n), n);
    ListWeight(v, Sorted(b, n), n);
    SetWeightMonotone(v.weights, Elems(Sorted(a, n)), Elems(Sorted(b, n)), n);
  }

  lemma CollectedExpected(v: ValidatorSet, msg: Msg, votes: map<nat, Sig>)
    requires AllValid(msg, votes)
    ensures Collected(v, votes) == Expected(v, msg, votes.Keys)
  {
    var signers := Sorted(votes.Keys, v.Len());
    forall i | 0 <= i < |signers| ensures Collected(v, votes).agg[i] == Expected(v, msg, votes.Keys).agg[i] {
      assert signers[i] in signers;
    }
  }

  lemma SigsExpected(v: ValidatorSet, msg: Msg, vs: VoteSet, keys: set<nat>)
    requires forall i :: i in keys ==> SigOf(vs, i) == Signed(i, msg)
    ensures var signers := Sorted(keys, v.Len()); Formed(signers, SigsOf(vs, signers)) == Expected(v, msg, keys)
  {
    var signers := Sorted(keys, v.Len());
    forall i | 0 <= i < |signers| ensures SigsOf(vs, signers)[i] == Expected(v, msg, keys).agg[i] {
      assert signers[i] in signers;
    }
  }

  /** Settling forms a certificate exactly when the genuine votes are enough, from exactly them, and
      otherwise loses none of them. */
  lemma SettleExact(v: ValidatorSet, msg: Msg, vs: VoteSet)
    requires WellKept(v, msg, vs) && !vs.done
    ensures var t := Settle(v, msg, vs);
            if Enough(v, Good(msg, vs))
            then t.formed == Some(Expected(v, msg, Good(msg, vs))) && t.votes.done
            else t.formed == None && !t.votes.done && WellKept(v, msg, t.votes) && Good(msg, t.votes) == Good(msg, vs)
                 && t.votes.height == vs.height
  {
    hide Expected, Enough, Good, WellKept, VerifyAggregate, SigsOf, Sorted, ValidatorSet.IsQuorum, ValidatorSet.WeightOf;
    var keys := vs.sigs.Keys + vs.pending.Keys;
    var all := Sorted(keys, v.Len());
    var good := Good(msg, vs);
    QuorumIsEnough(v, keys);
    GoodVotes(v, msg, vs);
    if Enough(v, good) {
      EnoughMonotone(v, good, keys);
    }
    if Enough(v, keys) {
      if vs.pending == map[] || VerifyAggregate(all, msg, SigsOf(vs, all)) {
        AllGood(v, msg, vs);
      } else {
        QuorumIsEnough(v, good);
      }
    }
  }

  lemma GoodVotes(v: ValidatorSet, msg: Msg, vs: VoteSet)
    requires WellKept(v, msg, vs)
    ensures Good(msg, vs) <= vs.sigs.Keys + vs.pending.Keys
    ensures var checked := vs.(sigs := vs.sigs + VerifiedVotes(vs.pending, msg), pending := map[]);
            && checked.sigs.Keys == Good(msg, vs) && WellKept(v, msg, checked) && Good(msg, checked) == Good(msg, vs)
            && var signers := Sorted(checked.sigs.Keys, v.Len());
               Formed(signers, SigsOf(checked, signers)) == Expected(v, msg, Good(msg, vs))
  {
    var checked := vs.(sigs := vs.sigs + VerifiedVotes(vs.pending, msg), pending := map[]);
    hide Sorted;
    assert VerifiedVotes(map[], msg).Keys == {};
    SigsExpected(v, msg, checked, checked.sigs.Keys);
  }

  lemma QuorumIsEnough(v: ValidatorSet, keys: set<nat>)
    ensures Enough(v, keys) <==> v.IsQuorum(v.WeightOf(Sorted(keys, v.Len())))
  {
  }

  lemma AllGood(v: ValidatorSet, msg: Msg, vs: VoteSet)
    requires WellKept(v, msg, vs)
    requires var all := Sorted(vs.sigs.Keys + vs.pending.Keys, v.Len());
             vs.pending == map[] || VerifyAggregate(all, msg, SigsOf(vs, all))
    ensures Good(msg, vs) == vs.sigs.Keys + vs.pending.Keys
    ensures var all := Sorted(vs.sigs.Keys + vs.pending.Keys, v.Len());
            Formed(all, SigsOf(vs, all)) == Expected(v, msg, Good(msg, vs))
  {
    var all := Sorted(vs.sigs.Keys + vs.pending.Keys, v.Len());
    forall i | i in vs.pending ensures VerifySig(i, msg, vs.pending[i]) {
      assert i in all;
      var k :| 0 <= k < |all| && all[k] == i;
      assert VerifySig(all[k], msg, SigsOf(vs, all)[k]);
    }
    hide Sorted;
    SigsExpected(v, msg, vs, Good(msg, vs));
  }

  /** The set after a vote of a signer that has no checked vote yet. */
  function Taken(msg: Msg, vs: VoteSet, a: Arrival): VoteSet {
    var x := a.signer;
    if x !in vs.pending then vs.(pending := vs.pending[x := a.sig])
    else
      var rest := vs.(pending := vs.pending - {x});
      var first := vs.pending[x];
      if VerifySig(x, msg, first) then rest.(sigs := rest.sigs[x := first])
      else if VerifySig(x, msg, a.sig) then rest.(sigs := rest.sigs[x := a.sig])
      else rest
  }

  lemma GoodAt(msg: Msg, vs: VoteSet, i: nat)
    ensures i in Good(msg, vs) <==> i in vs.sigs || (i in vs.pending && VerifySig(i, msg, vs.pending[i]))
  {
  }

  lemma TakenGood(v: ValidatorSet, msg: Msg, vs: VoteSet, a: Arrival)
    requires WellKept(v, msg, vs) && a.signer < v.Len() && a.signer !in vs.sigs
    ensures WellKept(v, msg, Taken(msg, vs, a))
    ensures Good(msg, Taken(msg, vs, a)) == if VerifySig(a.signer, msg, a.sig) then Good(msg, vs) + {a.signer} else Good(msg, vs)
  {
    TakenKept(v, msg, vs, a);
    hide Good, WellKept;
    var x := a.signer;
    var t := Taken(msg, vs, a);
    forall i: nat
      ensures i in Good(msg, t) <==> i in Good(msg, vs) || (i == x && VerifySig(x, msg, a.sig))
    {
      GoodAt(msg, vs, i);
      GoodAt(msg, t, i);
    }
  }

  lemma TakenKept(v: ValidatorSet, msg: Msg, vs: VoteSet, a: Arrival)
    requires WellKept(v, msg, vs) && a.signer < v.Len() && a.signer !in vs.sigs
    ensures WellKept(v, msg, Taken(msg, vs, a))
  {
  }

  lemma StepMatches(v: ValidatorSet, msg: Msg, vs: VoteSet, e: Eager, a: Arrival)
    requires Matches(v, msg, vs, e) && a.signer < v.Len()
    ensures var t := AddVote(v, msg, vs, vs.height, a.signer, a.sig);
            var u := EagerAdd(v, msg, e, a);
            t.formed == u.formed && Matches(v, msg, t.votes, u.e)
  {
    hide Settle, Collected, Expected, Enough, WellKept;
    var x := a.signer;
    if !vs.done && x !in vs.sigs {
      if x in vs.pending && vs.pending[x] == a.sig {
        assert VerifySig(x, msg, a.sig) ==> x in Good(msg, vs);
      } else {
        var next := Taken(msg, vs, a);
        TakenGood(v, msg, vs, a);
        SettleExact(v, msg, next);
        assert AddVote(v, msg, vs, vs.height, x, a.sig) == Settle(v, msg, next);
        hide Good, AddVote;
        if VerifySig(x, msg, a.sig) {
          var votes := e.votes[x := a.sig];
          assert votes.Keys == e.votes.Keys + {x};
          CollectedExpected(v, msg, votes);
        }
      }
    }
  }

  lemma {:induction false} OutcomesMatch(v: ValidatorSet, msg: Msg, vs: VoteSet, e: Eager, arrivals: seq<Arrival>)
    requires Matches(v, msg, vs, e) && forall i :: 0 <= i < |arrivals| ==> arrivals[i].signer < v.Len()
    ensures LazyOutcomes(v, msg, vs, arrivals) == EagerOutcomes(v, msg, e, arrivals)
    decreases |arrivals|
  {
    hide AddVote, EagerAdd, Matches;
    if arrivals != [] {
      StepMatches(v, msg, vs, e, arrivals[0]);
      OutcomesMatch(v, msg, AddVote(v, msg, vs, vs.height, arrivals[0].signer, arrivals[0].sig).votes,
                    EagerAdd(v, msg, e, arrivals[0]).e, arrivals[1..]);
    }
  }

  lemma {:induction false} SortedEmpty(n: nat)
    ensures Sorted({}, n) == []
  {
    if n > 0 {
      SortedEmpty(n - 1);
    }
  }

  /** From the first vote on, lazy checking forms the same certificate at the same arrival as
      verifying each vote as it comes. */
  lemma LazyRefinesEager(v: ValidatorSet, msg: Msg, height: nat, arrivals: seq<Arrival>)
    requires forall i :: 0 <= i < |arrivals| ==> arrivals[i].signer < v.Len()
    ensures LazyOutcomes(v, msg, VoteSet(height, map[], map[], false), arrivals)
            == EagerOutcomes(v, msg, Eager(map[], false), arrivals)
  {
    var vs, e := VoteSet(height, map[], map[], false), Eager(map[], false);
    SortedEmpty(v.Len());
    assert VerifiedVotes(map[], msg) == map[];
    assert Good(msg, vs) == {} && e.votes.Keys == {};
    OutcomesMatch(v, msg, vs, e, arrivals);
  }
}
