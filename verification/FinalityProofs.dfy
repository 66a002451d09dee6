/** Finality proofs: what `CommitProof::verify` accepts never conflicts with an engine's commits, and
    it accepts what engines emit exactly when the two unsigned certificate heights are right. */
module FinalityProofs {
  import opened Options
  import opened Committee
  import opened Certificates
  import opened EngineSpec
  import opened Protocol
  import opened EngineSafety
  import opened Network
  import opened TrueHeights
  import Bitmap

  ghost predicate KnownProof(net: Net, proof: CommitProof) {
    KnownQc(net, proof.qc) && KnownQc(net, proof.childQc) && proof.qc.epoch == net.cfg.epoch
  }

  lemma {:induction false} NilChainAncestor(epoch: nat, start: Hash, rounds: seq<nat>)
    requires rounds != []
    ensures var (prev, last) := NilChain(epoch, start, rounds);
            last.Nil? && last.parent == prev && Ancestor(start, prev) && Ancestor(start, last)
  {
    var rest := rounds[..|rounds| - 1];
    if rest != [] {
      NilChainAncestor(epoch, start, rest);
    }
  }

  /** Between `start` and the end of a nil chain there are only nil blocks, so a real block that is
      an ancestor of the end is an ancestor of `start`. */
  lemma {:induction false} NilChainSkips(epoch: nat, start: Hash, rounds: seq<nat>, a: Hash)
    requires !a.Nil? && Ancestor(a, NilChain(epoch, start, rounds).1)
    ensures Ancestor(a, start)
  {
    if rounds != [] {
      NilChainSkips(epoch, start, rounds[..|rounds| - 1], a);
    }
  }

  /** An accepted proof's block is final. */
  lemma AcceptedFinal(net: Net, proof: CommitProof)
    requires net.Assumed() && net.Disciplined() && !net.cfg.anchor.hash.Nil?
    requires KnownProof(net, proof) && proof.Verify(net.cfg.Scope()).Some?
    ensures proof.Verify(net.cfg.Scope()) == Some(proof.committed) && Final(net, proof.committed)
  {
    hide Qc.Verify;
    var q, c := proof.qc.block, proof.childQc.block;
    VerifiedQc(net, proof.qc);
    VerifiedQc(net, proof.childQc);
    if proof.nilRounds != [] {
      NilChainAncestor(net.cfg.epoch, proof.committed, proof.nilRounds);
    }
    assert net.DecidedBy(q, c);
    CertifiedChain(net, q, q);
    if proof.nilRounds != [] {
      var rest := proof.nilRounds[..|proof.nilRounds| - 1];
      NilChainSkips(net.cfg.epoch, proof.committed, rest, net.cfg.anchor.hash);
    }
    assert FinalBy(net, proof.committed, q);
  }

  /** Soundness over runs: the block of an accepted proof and any block any engine commits lie on one
      chain, and are the same block if they have the same height. */
  lemma ProofAgrees(setup: Setup, run: seq<System>, proof: CommitProof, i: nat, x: BlockInfo)
    requires Run(setup, run) && !setup.cfg.anchor.hash.Nil?
    requires KnownProof(NetOf(setup, run[|run| - 1]), proof) && proof.Verify(setup.cfg.Scope()).Some?
    requires CommittedBy(run[|run| - 1], i, x)
    ensures Ancestor(x.hash, proof.committed) || Ancestor(proof.committed, x.hash)
    ensures x.height == HeightOf(setup.cfg, proof.committed) ==> x.hash == proof.committed
  {
    hide CommitProof.Verify, Qc.Verify;
    var a := run[|run| - 1];
    var net := NetOf(setup, a);
    RunInv(setup, run, |run| - 1);
    AssumedAlways(setup, a);
    InvDisciplined(setup, a);
    CommittedFinal(setup, a, i, x);
    AcceptedFinal(net, proof);
    FinalAgree(net, x.hash, proof.committed);
  }

  /** A nil-chain proof is accepted exactly when both certificate heights are true, and then for the
      committed block at its true height. */
  lemma NilProofAccepted(cfg: Config, proof: CommitProof)
    requires ProofLinks(cfg, proof) && proof.nilRounds != []
    ensures proof.Verify(cfg.Scope()) == Some(proof.committed) <==> HeightsTrue(cfg, proof)
    ensures proof.committedHeight == HeightOf(cfg, proof.committed)
  {
    hide Bitmap.Decode;
    assert cfg.Scope().(epoch := proof.qc.epoch) == cfg.Scope();
  }

  /** With its child's header attached, a real-child proof is accepted exactly when the child is a
      real block and both certificate heights are true. */
  lemma RealProofAccepted(cfg: Config, proof: CommitProof)
    requires ProofLinks(cfg, proof) && proof.nilRounds == []
    ensures var filled := proof.(childHeader := Some(proof.childQc.block));
            filled.Verify(cfg.Scope()) == Some(proof.committed) <==>
              proof.childQc.block.Header? && HeightsTrue(cfg, proof)
  {
    hide Bitmap.Decode;
    assert cfg.Scope().(epoch := proof.qc.epoch) == cfg.Scope();
  }

  /** Every finality proof that leaves an engine in any run has the links the two lemmas above start
      from. */
  lemma EmittedProofs(setup: Setup, run: seq<System>, i: nat, a: Action)
    requires Run(setup, run) && i < |run[|run| - 1].nodes| && a in run[|run| - 1].nodes[i].log
    ensures a.Commit? ==> ProofLinks(setup.cfg, a.proof)
    ensures a.EpochEnd? ==> ProofLinks(setup.cfg, a.proof) && Final(NetOf(setup, run[|run| - 1]), a.block.hash)
  {
    hide ProofLinks;
    var last := run[|run| - 1];
    RunInv(setup, run, |run| - 1);
    assert NodeOk(NetOf(setup, last), setup.ConfigOf(i), last.nodes[i]);
    assert FinalOutput(NetOf(setup, last), a);
  }

  // ---- runs that deliver true heights

  /** A step that delivers, if anything, only true heights. */
  ghost predicate TrueNext(setup: Setup, a: System, b: System) {
    exists i, l :: Step(setup, a, b, i, l) && (l.Deliver? ==> TrueEvent(setup.ConfigOf(i), l.ev))
  }

  /** Every certificate that verifies and every vote delivered in the run states a true height. */
  ghost predicate TrueRun(setup: Setup, run: seq<System>) {
    forall k :: 0 <= k < |run| - 1 ==> TrueNext(setup, run[k], run[k + 1])
  }

  ghost predicate NodeTrue(cfg: Config, n: Node) {
    n.s.cfg == cfg && TrueState(n.s) && TrueDisk(cfg, n.disk) && TrueOut(cfg, n.log)
  }

  ghost predicate AllTrue(setup: Setup, a: System) {
    |a.nodes| == |setup.me| && forall i :: 0 <= i < |a.nodes| ==> NodeTrue(setup.ConfigOf(i), a.nodes[i])
  }

  lemma DeliverTrue(cfg: Config, n: Node, ev: Event)
    requires NodeTrue(cfg, n) && TrueEvent(cfg, ev)
    ensures var r := Handle(n.s, ev); NodeTrue(cfg, Node(r.s, n.disk, n.outbox + Ballots(r.out), n.log + r.out))
  {
    hide Handle, TrueState, TrueEvent, TrueDisk, TrueAction;
    HandleTrue(n.s, ev);
  }

  lemma StepTrue(setup: Setup, a: System, b: System, i: nat, l: Label)
    requires AllTrue(setup, a) && Step(setup, a, b, i, l) && (l.Deliver? ==> TrueEvent(setup.ConfigOf(i), l.ev))
    ensures AllTrue(setup, b)
  {
    var n, cfg := a.nodes[i], setup.ConfigOf(i);
    assert NodeTrue(cfg, n);
    hide Handle, Admissible, Persist, Resume, TrueState, TrueDisk, TrueOut, TrueEvent, Ballots;
    match l
    case Deliver(ev) => DeliverTrue(cfg, n, ev);
    case Write => PersistTrue(n.s);
    case Send(sigs) =>
    case Crash =>
      ResumeTrue(cfg, n.disk);
      ResumeConfig(cfg, n.disk);
  }

  lemma InitTrue(setup: Setup, a: System)
    requires Init(setup, a)
    ensures AllTrue(setup, a)
  {
    hide NodeTrue;
    forall i | 0 <= i < |a.nodes| ensures NodeTrue(setup.ConfigOf(i), a.nodes[i]) {
      FreshTrue(setup.ConfigOf(i));
    }
  }

  lemma {:induction false} TrueRunInv(setup: Setup, run: seq<System>, k: nat)
    requires Run(setup, run) && TrueRun(setup, run) && k < |run|
    ensures AllTrue(setup, run[k])
  {
    hide AllTrue, Setup.Valid, Init, Next, Step, TrueEvent;
    if k == 0 {
      InitTrue(setup, run[0]);
    } else {
      TrueRunInv(setup, run, k - 1);
      assert TrueNext(setup, run[k - 1], run[k - 1 + 1]);
      TrueNextTrue(setup, run[k - 1], run[k]);
    }
  }

  lemma TrueNextTrue(setup: Setup, a: System, b: System)
    requires AllTrue(setup, a) && TrueNext(setup, a, b)
    ensures AllTrue(setup, b)
  {
    hide AllTrue, TrueEvent, Handle, Admissible, Persist, Resume;
    var i, l :| Step(setup, a, b, i, l) && (l.Deliver? ==> TrueEvent(setup.ConfigOf(i), l.ev));
    StepTrue(setup, a, b, i, l);
  }

  lemma FreshTrue(cfg: Config)
    ensures NodeTrue(cfg, Fresh(cfg))
  {
    NewTrue(cfg);
  }

  lemma {:induction false} HeightSame(cfg: Config, me: seq<nat>, h: Hash)
    ensures HeightOf(cfg.(me := me), h) == HeightOf(cfg, h)
  {
    if h != cfg.anchor.hash && h.Nil? {
      HeightSame(cfg, me, h.parent);
    }
  }

  /** Acceptance over runs: while only true heights are delivered, every nil-chain proof that leaves an
      engine is accepted for the committed block at its height, and every other proof is accepted once
      its child's header is attached, if the child is a real block. */
  lemma EmittedAccepted(setup: Setup, run: seq<System>, i: nat, a: Action)
    requires Run(setup, run) && TrueRun(setup, run)
    requires i < |run[|run| - 1].nodes| && a in run[|run| - 1].nodes[i].log && ProofOf(a).Some?
    ensures var proof := ProofOf(a).value;
            && proof.committedHeight == HeightOf(setup.cfg, proof.committed)
            && if proof.nilRounds != [] then proof.Verify(setup.cfg.Scope()) == Some(proof.committed)
               else proof.(childHeader := Some(proof.childQc.block)).Verify(setup.cfg.Scope()) == Some(proof.committed)
                    <==> proof.childQc.block.Header?
  {
    var proof := ProofOf(a).value;
    EmittedProofs(setup, run, i, a);
    TrueRunInv(setup, run, |run| - 1);
    assert NodeTrue(setup.ConfigOf(i), run[|run| - 1].nodes[i]);
    assert TrueAction(setup.ConfigOf(i), a);
    HeightSame(setup.cfg, setup.me[i], proof.qc.block);
    HeightSame(setup.cfg, setup.me[i], proof.childQc.block);
    hide CommitProof.Verify, Run, TrueRun, NodeTrue;
    if proof.nilRounds != [] {
      NilProofAccepted(setup.cfg, proof);
    } else {
      RealProofAccepted(setup.cfg, proof);
      ProofHeight(setup.cfg, proof);
    }
  }

  lemma ProofHeight(cfg: Config, proof: CommitProof)
    requires ProofLinks(cfg, proof)
    ensures proof.committedHeight == HeightOf(cfg, proof.committed)
  {
  }
}
