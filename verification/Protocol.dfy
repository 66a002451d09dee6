/** The protocol seen from outside: which signatures have been released, what they certify, and why
    two certified consecutive blocks lock every later certificate to their branch. */
module Protocol {
  import opened Committee
  import opened Certificates
  import opened EngineSpec
  import Bitmap

  // ---- block identity

  function ParentOf(h: Hash): Hash {
    match h
    case Bare(_) => h
    case Header(p, _, _, _) => p
    case Nil(_, p, _) => p
  }

  /** Round a hash commits to; the epoch's anchor counts as round 0. */
  function RoundOf(cfg: Config, h: Hash): nat {
    if h == cfg.anchor.hash then 0
    else
      match h
      case Bare(_) => 0
      case Header(_, _, r, _) => r
      case Nil(_, _, r) => r
  }

  function HeightOf(cfg: Config, h: Hash): nat {
    if h == cfg.anchor.hash then cfg.anchor.height
    else
      match h
      case Bare(_) => 0
      case Header(_, n, _, _) => n
      case Nil(_, p, _) => HeightOf(cfg, p) + 1
  }

  /** Block identity: a block description agrees with its hash. */
  predicate Genuine(cfg: Config, b: BlockInfo) {
    || b == cfg.anchor
    || (&& b.hash != cfg.anchor.hash
        && !b.hash.Bare?
        && b.parent == ParentOf(b.hash)
        && b.round == RoundOf(cfg, b.hash)
        && b.height == HeightOf(cfg, b.hash)
        && b.height == HeightOf(cfg, b.parent) + 1)
  }

  /** `a` is `h` or one of its ancestors. */
  predicate Ancestor(a: Hash, h: Hash)
    decreases h
  {
    a == h ||
    match h
    case Bare(_) => false
    case Header(p, _, _, _) => Ancestor(a, p)
    case Nil(_, p, _) => Ancestor(a, p)
  }

  lemma {:induction false} AncestorTrans(a: Hash, b: Hash, c: Hash)
    requires Ancestor(a, b) && Ancestor(b, c)
    ensures Ancestor(a, c)
    decreases c
  {
    if b != c {
      AncestorTrans(a, b, ParentOf(c));
    }
  }

  /** The ancestors of one block form a chain. */
  lemma {:induction false} AncestorsLinear(a: Hash, b: Hash, c: Hash)
    requires Ancestor(a, c) && Ancestor(b, c)
    ensures Ancestor(a, b) || Ancestor(b, a)
    decreases c
  {
    if a != c && b != c {
      AncestorsLinear(a, b, ParentOf(c));
    }
  }

  // ---- released signatures

  /** One epoch's parameters, its Byzantine members and every vote and timeout signature that has
      left an honest node. */
  datatype Net = Net(cfg: Config, byz: set<nat>, rel: set<Sig>) {

    function N(): nat {
      cfg.validators.Len()
    }

    function Ballot(v: nat, r: nat, h: Hash): Sig {
      Signed(v, VoteMsg(cfg.chain, cfg.epoch, r, h))
    }

    function GaveUp(v: nat, r: nat, q: nat): Sig {
      Signed(v, TimeoutMsg(cfg.chain, cfg.epoch, r, q))
    }

    predicate Honest(v: nat) {
      v < N() && v !in byz
    }

    /** A Byzantine member can sign anything as itself. */
    function Voters(r: nat, h: Hash): set<nat> {
      set v | 0 <= v < N() && (v in byz || Ballot(v, r, h) in rel)
    }

    ghost predicate Reported(v: nat, r: nat, q: nat) {
      exists q' :: 0 <= q' <= q && GaveUp(v, r, q') in rel
    }

    ghost function Reporters(r: nat, q: nat): set<nat> {
      set v | 0 <= v < N() && (v in byz || Reported(v, r, q))
    }

    ghost predicate Certified(r: nat, h: Hash) {
      Quorum(cfg.validators, Voters(r, h))
    }

    /** A quorum gave up on round `r`, none of them reporting a high QC above round `q`. */
    ghost predicate TimedOut(r: nat, q: nat) {
      Quorum(cfg.validators, Reporters(r, q))
    }

    /** `h` is certified in its own round `r`, or is the anchor. */
    ghost predicate CertAt(r: nat, h: Hash) {
      r == RoundOf(cfg, h) && (h == cfg.anchor.hash || Certified(r, h))
    }

    /** The vote rule, as facts about released signatures. */
    ghost predicate Justified(r: nat, h: Hash) {
      var p := ParentOf(h);
      var pr := RoundOf(cfg, p);
      && h != cfg.anchor.hash && !h.Bare?
      && r == RoundOf(cfg, h) && pr < r
      && HeightOf(cfg, h) == HeightOf(cfg, p) + 1
      && (HeightOf(cfg, h) > cfg.endHeight ==> h == Nil(cfg.epoch, p, r))
      && CertAt(pr, p)
      && (pr + 1 == r || TimedOut(r - 1, pr))
    }

    /** Honest members follow the vote and timeout rules. */
    ghost predicate Disciplined() {
      && (forall v, r, h :: Honest(v) && Ballot(v, r, h) in rel ==> Justified(r, h))
      && (forall v, r, h, h' :: Honest(v) && Ballot(v, r, h) in rel && Ballot(v, r, h') in rel ==> h == h')
      && (forall v, r, q, r', h :: Honest(v) && GaveUp(v, r, q) in rel && Ballot(v, r', h) in rel && r' <= r
            ==> RoundOf(cfg, ParentOf(h)) <= q)
    }

    /** The assumptions: at most a third of the weight is Byzantine, indices fit the bitmap, and the
        anchor enters the epoch with round 0, not above the epoch's last height. */
    predicate Assumed() {
      && !cfg.validators.IsOneThird(SetWeight(cfg.validators.weights, byz, cfg.validators.Len()))
      && N() <= Bitmap.INDEX_RANGE
      && cfg.anchor.round == 0
      && cfg.anchor.height <= cfg.endHeight
    }

    /** `p` and a child of it are certified in consecutive rounds. */
    ghost predicate Decided(p: Hash) {
      exists b :: DecidedBy(p, b)
    }

    ghost predicate DecidedBy(p: Hash, b: Hash) {
      ParentOf(b) == p && CertAt(RoundOf(cfg, p), p) && CertAt(RoundOf(cfg, p) + 1, b)
    }
  }

  /** More released signatures certify more. */
  ghost predicate Grows(a: Net, b: Net) {
    a.cfg == b.cfg && a.byz == b.byz && a.rel <= b.rel
  }

  lemma CertGrows(a: Net, b: Net, r: nat, h: Hash)
    requires Grows(a, b) && a.CertAt(r, h)
    ensures b.CertAt(r, h)
  {
    if h != a.cfg.anchor.hash {
      QuorumMonotone(a.cfg.validators, a.Voters(r, h), b.Voters(r, h));
    }
  }

  lemma TimedOutGrows(a: Net, b: Net, r: nat, q: nat)
    requires Grows(a, b) && a.TimedOut(r, q)
    ensures b.TimedOut(r, q)
  {
    forall v | a.Reported(v, r, q) ensures b.Reported(v, r, q) {
      var q' :| 0 <= q' <= q && a.GaveUp(v, r, q') in a.rel;
      assert b.GaveUp(v, r, q') in b.rel;
    }
    QuorumMonotone(a.cfg.validators, a.Reporters(r, q), b.Reporters(r, q));
  }

  lemma JustifiedGrows(a: Net, b: Net, r: nat, h: Hash)
    requires Grows(a, b) && a.Justified(r, h)
    ensures b.Justified(r, h)
  {
    var pr := RoundOf(a.cfg, ParentOf(h));
    CertGrows(a, b, pr, ParentOf(h));
    if pr + 1 != r {
      TimedOutGrows(a, b, r - 1, pr);
    }
  }

  lemma DecidedGrows(a: Net, b: Net, p: Hash)
    requires Grows(a, b) && a.Decided(p)
    ensures b.Decided(p)
  {
    var c :| a.DecidedBy(p, c);
    CertGrows(a, b, RoundOf(a.cfg, p), p);
    CertGrows(a, b, RoundOf(a.cfg, p) + 1, c);
    assert b.DecidedBy(p, c);
  }

  /** A certificate holds an honest vote. */
  lemma HonestVoter(net: Net, r: nat, h: Hash) returns (v: nat)
    requires net.Assumed() && net.Certified(r, h)
    ensures net.Honest(v) && net.Ballot(v, r, h) in net.rel
  {
    v := HonestInBoth(net.cfg.validators, net.byz, net.Voters(r, h), net.Voters(r, h));
  }

  /** A certified block is justified, so its parent is certified too. */
  lemma CertifiedJustified(net: Net, r: nat, h: Hash)
    requires net.Assumed() && net.Disciplined() && net.Certified(r, h)
    ensures net.Justified(r, h) && net.CertAt(r, h)
  {
    var v := HonestVoter(net, r, h);
  }

  /** One block per round. */
  lemma OnePerRound(net: Net, r: nat, h: Hash, h': Hash)
    requires net.Assumed() && net.Disciplined() && net.Certified(r, h) && net.Certified(r, h')
    ensures h == h'
  {
    var v := HonestInBoth(net.cfg.validators, net.byz, net.Voters(r, h), net.Voters(r, h'));
    assert net.Honest(v) && net.Ballot(v, r, h) in net.rel && net.Ballot(v, r, h') in net.rel;
  }

  /** The timeout rule: if a quorum gave up on a round after `b` was certified, one of its honest
      members had voted for `b` and reported at least the round of `b`'s parent. */
  lemma TimeoutRemembers(net: Net, r: nat, b: Hash, t: nat, q: nat)
    requires net.Assumed() && net.Disciplined() && net.Certified(r, b) && net.TimedOut(t, q) && r <= t
    ensures RoundOf(net.cfg, ParentOf(b)) <= q
  {
    var v := HonestInBoth(net.cfg.validators, net.byz, net.Voters(r, b), net.Reporters(t, q));
    assert net.Reported(v, t, q);
    var q' :| 0 <= q' <= q && net.GaveUp(v, t, q') in net.rel;
    assert net.Ballot(v, r, b) in net.rel;
  }

  /** Locking: once P and a child of P are certified in consecutive rounds, every certificate of
      P's round or later is for P or a descendant of P. */
  lemma {:induction false} Locking(net: Net, p: Hash, b: Hash, x: Hash)
    requires net.Assumed() && net.Disciplined()
    requires net.DecidedBy(p, b)
    requires net.CertAt(RoundOf(net.cfg, x), x) && RoundOf(net.cfg, x) >= RoundOf(net.cfg, p)
    ensures Ancestor(p, x)
    decreases RoundOf(net.cfg, x)
  {
    var cfg := net.cfg;
    var r, t := RoundOf(cfg, p), RoundOf(cfg, x);
    CertifiedJustified(net, r + 1, b);
    if x == cfg.anchor.hash {
      if p != x {
        CertifiedJustified(net, r, p);
      }
    } else {
      CertifiedJustified(net, t, x);
      if t == r {
        OnePerRound(net, r, p, x);
      } else if t == r + 1 {
        OnePerRound(net, t, b, x);
      } else {
        var up := ParentOf(x);
        var ur := RoundOf(cfg, up);
        if ur + 1 != t {
          TimeoutRemembers(net, r + 1, b, t - 1, ur);
        }
        Locking(net, p, b, up);
      }
    }
  }

  /** Any two decided blocks lie on one chain. */
  lemma DecidedAgree(net: Net, p: Hash, q: Hash)
    requires net.Assumed() && net.Disciplined() && net.Decided(p) && net.Decided(q)
    ensures Ancestor(p, q) || Ancestor(q, p)
  {
    var b :| net.DecidedBy(p, b);
    var c :| net.DecidedBy(q, c);
    if RoundOf(net.cfg, p) <= RoundOf(net.cfg, q) {
      Locking(net, p, b, q);
    } else {
      Locking(net, q, c, p);
    }
  }

  /** Every certified block descends from the epoch's anchor through certified blocks. */
  lemma {:induction false} CertifiedChain(net: Net, x: Hash, a: Hash)
    requires net.Assumed() && net.Disciplined() && net.CertAt(RoundOf(net.cfg, x), x)
    ensures Ancestor(net.cfg.anchor.hash, x)
    ensures Ancestor(a, x) && Ancestor(net.cfg.anchor.hash, a) ==>
              net.CertAt(RoundOf(net.cfg, a), a) && HeightOf(net.cfg, a) + Depth(x) == HeightOf(net.cfg, x) + Depth(a)
    decreases RoundOf(net.cfg, x)
  {
    var anchor := net.cfg.anchor.hash;
    if x == anchor {
      if Ancestor(a, x) && Ancestor(anchor, a) {
        AncestorDepth(a, x);
        AncestorDepth(anchor, a);
      }
    } else {
      CertifiedJustified(net, RoundOf(net.cfg, x), x);
      CertifiedChain(net, ParentOf(x), a);
    }
  }

  lemma {:induction false} AncestorDepth(a: Hash, h: Hash)
    requires Ancestor(a, h)
    ensures Depth(a) <= Depth(h) && (Depth(a) == Depth(h) ==> a == h)
    decreases h
  {
    if a != h {
      AncestorDepth(a, ParentOf(h));
    }
  }

  /** A block that may be handed to the ledger: it descends from the anchor and is an ancestor of
      (or is) a decided block. */
  ghost predicate Final(net: Net, x: Hash) {
    exists p :: FinalBy(net, x, p)
  }

  ghost predicate FinalBy(net: Net, x: Hash, p: Hash) {
    net.Decided(p) && Ancestor(x, p) && Ancestor(net.cfg.anchor.hash, x)
  }

  /** Agreement: final blocks lie on one chain, so there is at most one of each height. */
  lemma FinalAgree(net: Net, x: Hash, y: Hash)
    requires net.Assumed() && net.Disciplined() && Final(net, x) && Final(net, y)
    ensures Ancestor(x, y) || Ancestor(y, x)
    ensures HeightOf(net.cfg, x) == HeightOf(net.cfg, y) ==> x == y
  {
    var p :| FinalBy(net, x, p);
    var q :| FinalBy(net, y, q);
    DecidedAgree(net, p, q);
    var top := if Ancestor(p, q) then q else p;
    if Ancestor(p, q) {
      AncestorTrans(x, p, q);
    } else {
      AncestorTrans(y, q, p);
    }
    AncestorsLinear(x, y, top);
    CertifiedChain(net, top, x);
    CertifiedChain(net, top, y);
    if Depth(x) == Depth(y) {
      if Ancestor(x, y) { AncestorDepth(x, y); } else { AncestorDepth(y, x); }
    }
  }
}
