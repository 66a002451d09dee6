/** How far two accepted certificates overlap: quorum certificates by weight
    (crates/consensus/src/types.rs) and panel certificates by count (crates/consensus/src/audit.rs). */
module Panels {
  import opened Options
  import opened Committee
  import opened Certificates
  import Bitmap

  // ---- quorum certificates

  function Signers(bitmap: seq<bv8>): set<nat> {
    Elems(Bitmap.Decode(bitmap))
  }

  /** An accepted certificate whose bitmap does not alias carries a quorum. */
  lemma QcQuorum(c: Scope, q: Qc)
    requires q.Verify(c) && !q.IsAnchor() && Bitmap.NoAliases(q.signers)
    ensures Quorum(c.validators, Signers(q.signers))
  {
    Bitmap.DistinctExactly(q.signers);
    DistinctWeight(c.validators, Bitmap.Decode(q.signers));
  }

  /** Two certificates accepted under one committee share more than a third of its weight. Bitmaps of
      at most 8192 bytes never alias. */
  lemma QcOverlap(c: Scope, a: Qc, b: Qc)
    requires a.Verify(c) && !a.IsAnchor() && Bitmap.NoAliases(a.signers)
    requires b.Verify(c) && !b.IsAnchor() && Bitmap.NoAliases(b.signers)
    ensures c.validators.IsOneThird(Weigh(c.validators, Signers(a.signers) * Signers(b.signers)))
  {
    QcQuorum(c, a);
    QcQuorum(c, b);
    QuorumIntersection(c.validators, Signers(a.signers), Signers(b.signers));
  }

  /** An accepted finality proof, of whatever shape, is two certificates of consecutive rounds that a quorum signed
      each; the anchor proves nothing. */
  lemma ProofQuorums(c: Scope, p: CommitProof)
    requires p.Verify(c).Some? && Bitmap.NoAliases(p.qc.signers) && Bitmap.NoAliases(p.childQc.signers)
    ensures p.qc.round > 0 && p.childQc.round == p.qc.round + 1 && p.childQc.epoch == p.qc.epoch
    ensures Quorum(c.validators, Signers(p.qc.signers)) && Quorum(c.validators, Signers(p.childQc.signers))
  {
    var scope := c.(epoch := p.qc.epoch);
    QcQuorum(scope, p.qc);
    QcQuorum(scope, p.childQc);
    hide Quorum;
    assert p.qc.Verify(scope);
  }

  // ---- exactly which bitmaps are safe

  /** Whatever the committee, of at most as many members as there are indices, an accepted certificate with
      this bitmap carries a quorum. */
  ghost predicate Trustworthy(b: seq<bv8>) {
    forall c: Scope, q: Qc :: c.validators.Len() <= Bitmap.INDEX_RANGE && q.signers == b && !q.IsAnchor() && q.Verify(c) ==>
      Quorum(c.validators, Signers(b))
  }

  /** The bitmap names every index there is. */
  ghost predicate NamesAll(b: seq<bv8>) {
    forall i: nat :: i < Bitmap.INDEX_RANGE ==> i in Signers(b)
  }

  /** A committee drawn by seats: each member weighs as much as it has seats. */
  ghost predicate Seated(v: ValidatorSet) {
    && (forall k :: 0 <= k < |v.seats| ==> v.seats[k] < v.Len())
    && (forall i :: 0 <= i < v.Len() ==> v.weights[i] == multiset(v.seats)[i])
  }

  /** Of `n` members, `x` has two seats, `y` has one, the others none. */
  function Skewed(x: nat, y: nat, n: nat): ValidatorSet {
    ValidatorSet(seq(n, i => if i == x then 2 else if i == y then 1 else 0), [x, x, y])
  }

  lemma {:induction false} SkewedSums(x: nat, y: nat, n: nat, s: set<nat>, k: nat)
    requires x < n && y < n && x != y && x in s && y !in s && k <= n
    ensures var w := Skewed(x, y, n).weights;
            && PrefixSum(w, k) == (if x < k then 2 else 0) + (if y < k then 1 else 0)
            && SetWeight(w, s, k) == if x < k then 2 else 0
  {
    if k > 0 {
      SkewedSums(x, y, n, s, k - 1);
    }
  }

  lemma {:induction false} AllWeigh(w: seq<nat>, s: set<nat>, n: nat)
    requires n <= |w| && forall i: nat :: i < n ==> i in s
    ensures SetWeight(w, s, n) == PrefixSum(w, n)
  {
    if n > 0 {
      AllWeigh(w, s, n - 1);
    }
  }

  lemma {:induction false} PartOfTotal(w: seq<nat>, i: nat, n: nat)
    requires i < n <= |w|
    ensures w[i] <= PrefixSum(w, n)
  {
    if i < n - 1 {
      PartOfTotal(w, i, n - 1);
    }
  }

  lemma {:induction false} NoWeightNoVotes(v: ValidatorSet, s: seq<nat>)
    requires v.Total() == 0
    ensures v.WeightOf(s) == 0
  {
    if s != [] {
      var i := s[|s| - 1];
      NoWeightNoVotes(v, s[..|s| - 1]);
      if i < v.Len() {
        PartOfTotal(v.weights, i, v.Len());
      }
    }
  }

  /** Certificates that name every index carry the whole weight, however often an index is named. */
  lemma AllNamedQuorum(c: Scope, q: Qc)
    requires c.validators.Len() <= Bitmap.INDEX_RANGE && !q.IsAnchor() && q.Verify(c) && NamesAll(q.signers)
    ensures Quorum(c.validators, Signers(q.signers))
  {
    var v := c.validators;
    AllWeigh(v.weights, Signers(q.signers), v.Len());
    if v.Total() == 0 {
      NoWeightNoVotes(v, Bitmap.Decode(q.signers));
    }
  }

  lemma {:induction false} WeighsOne(v: ValidatorSet, s: seq<nat>, i: nat)
    requires i < |s|
    ensures v.WeightOf(s) >= v.Weight(s[i])
  {
    if i < |s| - 1 {
      WeighsOne(v, s[..|s| - 1], i);
    }
  }

  lemma {:induction false} WeighsTwice(v: ValidatorSet, s: seq<nat>, i: nat, j: nat)
    requires i < j < |s|
    ensures v.WeightOf(s) >= v.Weight(s[i]) + v.Weight(s[j])
  {
    if j == |s| - 1 {
      WeighsOne(v, s[..|s| - 1], i);
    } else {
      WeighsTwice(v, s[..|s| - 1], i, j);
    }
  }

  /** A list that names one signer twice and another never passes the weight test of some committee that the
      signers are no quorum of. */
  lemma SkewedAccepts(list: seq<nat>, i: nat, j: nat, y: nat, n: nat)
    requires i < j < |list| && list[i] == list[j] && y !in list && y < n && forall k :: 0 <= k < |list| ==> list[k] < n
    ensures var v := Skewed(list[i], y, n);
            && v.IsQuorum(v.WeightOf(list)) && !Quorum(v, Elems(list))
            && forall k :: 0 <= k < |list| ==> list[k] < v.Len()
  {
    var x, v := list[i], Skewed(list[i], y, n);
    WeighsTwice(v, list, i, j);
    SkewedSums(x, y, n, Elems(list), n);
  }

  lemma {:induction false} DecodedBelow(b: seq<bv8>, p: nat)
    ensures forall i :: 0 <= i < |Bitmap.DecodeTo(b, p)| ==> Bitmap.DecodeTo(b, p)[i] < Bitmap.INDEX_RANGE
  {
    if p > 0 {
      DecodedBelow(b, p - 1);
    }
  }

  /** A bitmap that names one signer twice and another never has an accepted certificate without a quorum,
      under a committee drawn by seats. */
  lemma SkewedCertificate(chain: nat, anchor: Hash, block: Hash, b: seq<bv8>, i: nat, j: nat, y: nat, n: nat)
    requires var list := Bitmap.Decode(b); i < j < |list| && list[i] == list[j] && y !in list
    requires y < n == Bitmap.INDEX_RANGE
    ensures var list := Bitmap.Decode(b);
            var c := Scope(chain, 0, Skewed(list[i], y, n), anchor);
            var q := Qc(0, 1, block, 1, b, Some(AllSign(list, VoteMsg(chain, 0, 1, block))));
            && c.validators.Len() == n && Seated(c.validators)
            && q.Verify(c) && !q.IsAnchor() && !Quorum(c.validators, Signers(b))
  {
    DecodedBelow(b, 8 * |b|);
    hide Bitmap.DecodeTo, Quorum;
    SkewedAccepts(Bitmap.Decode(b), i, j, y, n);
    SkewedSeated(Bitmap.Decode(b)[i], y, n);
    hide Skewed, Bitmap.Decode, Seated;
  }

  lemma SkewedSeated(x: nat, y: nat, n: nat)
    requires x < n && y < n && x != y
    ensures Seated(Skewed(x, y, n)) && Skewed(x, y, n).Len() == n
  {
  }

  function AllSign(signers: seq<nat>, msg: Msg): seq<Sig> {
    seq(|signers|, i requires 0 <= i < |signers| => Signed(signers[i], msg))
  }

  /** A bitmap's certificates can be trusted to carry a quorum if and only if no two of its set positions
      denote the same signer or every index is named. */
  lemma TrustworthyExactly(b: seq<bv8>)
    ensures Trustworthy(b) <==> Bitmap.NoAliases(b) || NamesAll(b)
  {
    hide Qc.Verify, Bitmap.NoAliases, Quorum, NamesAll;
    if Bitmap.NoAliases(b) || NamesAll(b) {
      forall c: Scope, q: Qc | c.validators.Len() <= Bitmap.INDEX_RANGE && q.signers == b && !q.IsAnchor() && q.Verify(c)
        ensures Quorum(c.validators, Signers(b))
      {
        if Bitmap.NoAliases(b) {
          QcQuorum(c, q);
        } else {
          AllNamedQuorum(c, q);
        }
      }
    } else {
      Bitmap.DistinctExactly(b);
      var list := Bitmap.Decode(b);
      var i, j :| 0 <= i < j < |list| && list[i] == list[j];
      var y := Unnamed(b);
      SkewedCertificate(0, Bare(0), Bare(1), b, i, j, y, Bitmap.INDEX_RANGE);
    }
  }

  lemma Unnamed(b: seq<bv8>) returns (y: nat)
    requires !NamesAll(b)
    ensures y < Bitmap.INDEX_RANGE && y !in Bitmap.Decode(b)
  {
    y :| y < Bitmap.INDEX_RANGE && y !in Signers(b);
  }

  // ---- panel certificates

  /** What a panel decides. */
  datatype Claim =
    | Audit(epoch: nat, task: nat, passed: bool)
    | Verdict(epoch: nat, job: nat, fault: bool)
    | Attest(epoch: nat, request: nat, ok: bool, machine: seq<bv8>)

  /** The signature of a key over a claim of one chain. */
  datatype PanelSig = By(key: nat, chain: nat, claim: Claim) | Garbage(id: nat)

  datatype PanelVote = PanelVote(claim: Claim, member: nat, sig: PanelSig) {
    /** The machine ID of an attestation must have 32 bytes. */
    predicate Verify(chain: nat, panel: seq<nat>) {
      MachineOk(claim) && member < |panel| && sig == By(panel[member], chain, claim)
    }
  }

  predicate MachineOk(c: Claim) {
    c.Attest? ==> |c.machine| == 32
  }

  /** The signatures the listed members of `panel` give. */
  function SigsBy(panel: seq<nat>, members: seq<nat>, chain: nat, c: Claim): multiset<PanelSig>
    requires forall i :: 0 <= i < |members| ==> members[i] < |panel|
  {
    if members == [] then multiset{}
    else
      SigsBy(panel, members[..|members| - 1], chain, c) + multiset{By(panel[members[|members| - 1]], chain, c)}
  }

  /** The aggregate of a list of signatures does not depend on their order. */
  datatype PanelCert = PanelCert(claim: Claim, signers: seq<bv8>, sig: multiset<PanelSig>) {
    predicate Verify(chain: nat, panel: seq<nat>) {
      var members := Bitmap.Decode(signers);
      && MachineOk(claim)
      && |members| * 3 > |panel| * 2
      && (forall i :: 0 <= i < |members| ==> members[i] < |panel|)
      && sig == SigsBy(panel, members, chain, claim)
    }
  }

  function MembersOf(votes: seq<PanelVote>): seq<nat> {
    seq(|votes|, i requires 0 <= i < |votes| => votes[i].member)
  }

  function SigsOf(votes: seq<PanelVote>): multiset<PanelSig> {
    if votes == [] then multiset{} else SigsOf(votes[..|votes| - 1]) + multiset{votes[|votes| - 1].sig}
  }

  /** Joins votes for one claim by more than two thirds of a panel of `n`, each member once. The
      sorted list of distinct members is as long as the list of votes only without repetition. */
  function Aggregate(votes: seq<PanelVote>, n: nat): Option<PanelCert> {
    if votes == [] || (exists i :: 0 <= i < |votes| && votes[i].claim != votes[0].claim) then None
    else
      var members := Sorted(Elems(MembersOf(votes)), Bitmap.INDEX_RANGE);
      if |members| != |votes| || |members| * 3 <= n * 2 then None
      else Some(PanelCert(votes[0].claim, Bitmap.Encode(members, n), SigsOf(votes)))
  }

  /** The signatures of a set of members. */
  function SigsTo(panel: seq<nat>, s: set<nat>, n: nat, chain: nat, c: Claim): multiset<PanelSig>
    requires n <= |panel|
  {
    if n == 0 then multiset{}
    else SigsTo(panel, s, n - 1, chain, c) + if n - 1 in s then multiset{By(panel[n - 1], chain, c)} else multiset{}
  }

  lemma {:induction false} AddSig(panel: seq<nat>, s: set<nat>, x: nat, n: nat, chain: nat, c: Claim)
    requires n <= |panel| && x < |panel| && x !in s
    ensures SigsTo(panel, s + {x}, n, chain, c)
         == SigsTo(panel, s, n, chain, c) + if x < n then multiset{By(panel[x], chain, c)} else multiset{}
  {
    hide SigsTo;
    if n == 0 {
      NoneTo(panel, s, chain, c);
      NoneTo(panel, s + {x}, chain, c);
    } else {
      AddSig(panel, s, x, n - 1, chain, c);
      SigStep(panel, s, n, chain, c);
      SigStep(panel, s + {x}, n, chain, c);
      Swap(SigsTo(panel, s, n - 1, chain, c), multiset{By(panel[n - 1], chain, c)}, multiset{By(panel[x], chain, c)});
    }
  }

  lemma NoneTo(panel: seq<nat>, s: set<nat>, chain: nat, c: Claim)
    ensures SigsTo(panel, s, 0, chain, c) == multiset{}
  {
  }

  lemma SigStep(panel: seq<nat>, s: set<nat>, n: nat, chain: nat, c: Claim)
    requires 0 < n <= |panel|
    ensures SigsTo(panel, s, n, chain, c)
         == if n - 1 in s then SigsTo(panel, s, n - 1, chain, c) + multiset{By(panel[n - 1], chain, c)} else SigsTo(panel, s, n - 1, chain, c)
  {
    assert SigsTo(panel, s, n - 1, chain, c) + multiset{} == SigsTo(panel, s, n - 1, chain, c);
  }

  lemma Swap(a: multiset<PanelSig>, b: multiset<PanelSig>, c: multiset<PanelSig>)
    ensures a + b + c == a + c + b && a + multiset{} == a
  {
  }

  lemma {:induction false} NoSigs(panel: seq<nat>, n: nat, chain: nat, c: Claim)
    requires n <= |panel|
    ensures SigsTo(panel, {}, n, chain, c) == multiset{}
  {
    if n > 0 {
      NoSigs(panel, n - 1, chain, c);
    }
  }

  /** The order of a list of distinct members does not matter. */
  lemma {:induction false} SigsOfSet(panel: seq<nat>, s: seq<nat>, chain: nat, c: Claim)
    requires Distinct(s) && forall i :: 0 <= i < |s| ==> s[i] < |panel|
    ensures SigsBy(panel, s, chain, c) == SigsTo(panel, Elems(s), |panel|, chain, c)
  {
    if s == [] {
      NoSigs(panel, |panel|, chain, c);
      assert Elems(s) == {};
    } else {
      var t, x := s[..|s| - 1], s[|s| - 1];
      SigsOfSet(panel, t, chain, c);
      AddSig(panel, Elems(t), x, |panel|, chain, c);
      assert s == t + [x];
      assert Elems(s) == Elems(t) + {x};
    }
  }

  lemma {:induction false} VoteSigs(chain: nat, panel: seq<nat>, votes: seq<PanelVote>, c: Claim)
    requires forall i :: 0 <= i < |votes| ==> votes[i].Verify(chain, panel) && votes[i].claim == c
    ensures var m := MembersOf(votes);
            (forall i :: 0 <= i < |m| ==> m[i] < |panel|) && SigsOf(votes) == SigsBy(panel, m, chain, c)
  {
    if votes != [] {
      VoteSigs(chain, panel, votes[..|votes| - 1], c);
      var m := MembersOf(votes);
      assert m[..|m| - 1] == MembersOf(votes[..|votes| - 1]);
    }
  }

  lemma {:induction false} CountOf(s: seq<nat>)
    ensures |Elems(s)| <= |s| && (|Elems(s)| == |s| <==> Distinct(s))
  {
    if s == [] {
      assert Elems(s) == {};
    } else {
      var t, x := s[..|s| - 1], s[|s| - 1];
      CountOf(t);
      assert s == t + [x];
      Bitmap.AppendDistinct(t, x);
      assert Elems(s) == Elems(t) + {x};
    }
  }

  lemma AscendingDistinct(s: seq<nat>)
    requires Ascending(s)
    ensures Distinct(s) && |Elems(s)| == |s|
  {
    CountOf(s);
  }

  /** Sorting members below `n` without repetition keeps the set. */
  lemma SortedMembers(list: seq<nat>, n: nat)
    requires n <= Bitmap.INDEX_RANGE && forall i :: 0 <= i < |list| ==> list[i] < n
    ensures var members := Sorted(Elems(list), Bitmap.INDEX_RANGE);
            && Elems(members) == Elems(list)
            && (forall i :: 0 <= i < |members| ==> members[i] < n)
            && (|members| == |list| ==> Distinct(list))
            && Distinct(members)
            && Bitmap.Decode(Bitmap.Encode(members, n)) == members
  {
    var members := Sorted(Elems(list), Bitmap.INDEX_RANGE);
    assert forall x :: x in list ==> x < n;
    assert Elems(members) == Elems(list);
    forall i | 0 <= i < |members| ensures members[i] < n {
      assert members[i] in Elems(members);
    }
    AscendingDistinct(members);
    CountOf(list);
    Bitmap.RoundTrip(members, n);
    Bitmap.SortedUnique(members, Elems(members), n);
  }

  /** Votes aggregate exactly when they are about one claim, of distinct members, more than two thirds of the
      panel. */
  lemma AggregateExactly(votes: seq<PanelVote>, n: nat)
    requires n <= Bitmap.INDEX_RANGE && forall i :: 0 <= i < |votes| ==> votes[i].member < n
    ensures Aggregate(votes, n).Some? <==>
            && votes != [] && (forall i :: 0 <= i < |votes| ==> votes[i].claim == votes[0].claim)
            && Distinct(MembersOf(votes)) && |votes| * 3 > n * 2
  {
    hide Bitmap.Encode, Sorted, SigsOf, Distinct;
    var list := MembersOf(votes);
    SortedMembers(list, n);
    CountOf(list);
    CountOf(Sorted(Elems(list), Bitmap.INDEX_RANGE));
  }

  /** Round trip: what a producer aggregates from valid votes of one panel, the chain accepts. */
  lemma AggregateVerifies(chain: nat, panel: seq<nat>, votes: seq<PanelVote>)
    requires |panel| <= Bitmap.INDEX_RANGE
    requires forall i :: 0 <= i < |votes| ==> votes[i].Verify(chain, panel)
    ensures var o := Aggregate(votes, |panel|);
            o.Some? ==>
              && o.value.Verify(chain, panel)
              && Signers(o.value.signers) == Elems(MembersOf(votes))
              && forall i :: 0 <= i < |votes| ==> votes[i].claim == o.value.claim
  {
    hide Bitmap.Encode, Bitmap.Decode, Sorted, SigsBy, SigsTo, SigsOf, Distinct;
    var o := Aggregate(votes, |panel|);
    if o.Some? {
      var c := votes[0].claim;
      var list := MembersOf(votes);
      VoteSigs(chain, panel, votes, c);
      SortedMembers(list, |panel|);
      SigsOfSet(panel, list, chain, c);
      SigsOfSet(panel, Sorted(Elems(list), Bitmap.INDEX_RANGE), chain, c);
    }
  }

  lemma {:induction false} SigIn(panel: seq<nat>, s: seq<nat>, chain: nat, c: Claim, i: nat)
    requires i < |s| && forall k :: 0 <= k < |s| ==> s[k] < |panel|
    ensures By(panel[s[i]], chain, c) in SigsBy(panel, s, chain, c)
  {
    if i < |s| - 1 {
      SigIn(panel, s[..|s| - 1], chain, c, i);
    }
  }

  lemma {:induction false} BoundedSet(s: set<nat>, n: nat)
    requires forall x :: x in s ==> x < n
    ensures |s| <= n
  {
    if n == 0 {
      assert s == {};
    } else {
      BoundedSet(s - {n - 1}, n - 1);
    }
  }

  /** Opposite outcomes (any two claims) can both be certified only if more than a third of the panel
      signed both. */
  lemma OppositeCerts(chain: nat, panel: seq<nat>, a: PanelCert, b: PanelCert)
    requires a.Verify(chain, panel) && Bitmap.NoAliases(a.signers)
    requires b.Verify(chain, panel) && Bitmap.NoAliases(b.signers)
    ensures var both := Signers(a.signers) * Signers(b.signers);
            && |both| * 3 > |panel|
            && forall m :: m in both ==> m < |panel| && By(panel[m], chain, a.claim) in a.sig && By(panel[m], chain, b.claim) in b.sig
  {
    var ma, mb := Bitmap.Decode(a.signers), Bitmap.Decode(b.signers);
    Bitmap.DistinctExactly(a.signers);
    Bitmap.DistinctExactly(b.signers);
    CountOf(ma);
    CountOf(mb);
    hide Bitmap.Decode;
    var sa, sb := Elems(ma), Elems(mb);
    BoundedSet(sa + sb, |panel|);
    assert |sa| + |sb| == |sa + sb| + |sa * sb|;
    forall m | m in sa * sb ensures m < |panel| && By(panel[m], chain, a.claim) in a.sig && By(panel[m], chain, b.claim) in b.sig {
      var i :| 0 <= i < |ma| && ma[i] == m;
      var j :| 0 <= j < |mb| && mb[j] == m;
      SigIn(panel, ma, chain, a.claim, i);
      SigIn(panel, mb, chain, b.claim, j);
    }
  }
}
