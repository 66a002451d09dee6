/** Runs of several engines: messages in any order, lost or repeated, Byzantine members, writes to
    disk, crashes and restarts. */
module Network {
  import opened Committee
  import opened Certificates
  import opened EngineSpec
  import opened Protocol
  import opened EngineSafety

  /** One epoch: its parameters, the committee members each engine signs for, and the Byzantine
      members. */
  datatype Setup = Setup(cfg: Config, me: seq<seq<nat>>, byz: set<nat>) {

    function ConfigOf(i: nat): Config
      requires i < |me|
    {
      cfg.(me := me[i])
    }

    /** Every honest member belongs to exactly one engine. */
    ghost predicate Valid() {
      && Net(cfg, byz, {}).Assumed()
      && (forall v :: 0 <= v < cfg.validators.Len() && v !in byz ==> exists i :: 0 <= i < |me| && v in me[i])
      && (forall i, j, v :: 0 <= i < j < |me| && v in me[i] ==> v !in me[j])
    }
  }

  /** An engine with its disk, the ballots it has signed but not sent, and every action its
      handlers ever returned. */
  datatype Node = Node(s: State, disk: Persisted, outbox: set<Sig>, log: seq<Action>)

  datatype System = System(nodes: seq<Node>, rel: set<Sig>)

  function NetOf(setup: Setup, a: System): Net {
    Net(setup.cfg, setup.byz, a.rel)
  }

  function Fresh(cfg: Config): Node {
    Node(New(cfg), Persist(New(cfg)), {}, [])
  }

  predicate Init(setup: Setup, a: System) {
    && |a.nodes| == |setup.me|
    && a.rel == {}
    && forall i :: 0 <= i < |a.nodes| ==> a.nodes[i] == Fresh(setup.ConfigOf(i))
  }

  datatype Label =
    | Deliver(ev: Event)
    | Write
    | Send(sigs: set<Sig>)
    | Crash

  /** One step of node `i`. A ballot leaves only while the disk holds the engine's current safety
      state; a crash loses everything but the disk. */
  ghost predicate Step(setup: Setup, a: System, b: System, i: nat, l: Label) {
    && |a.nodes| == |setup.me|
    && i < |a.nodes|
    && var n := a.nodes[i];
       match l
       case Deliver(ev) =>
         var r := Handle(n.s, ev);
         && Admissible(NetOf(setup, a), ev)
         && b == System(a.nodes[i := Node(r.s, n.disk, n.outbox + Ballots(r.out), n.log + r.out)], a.rel)
       case Write =>
         b == System(a.nodes[i := n.(disk := Persist(n.s))], a.rel)
       case Send(sigs) =>
         && n.disk == Persist(n.s)
         && sigs <= n.outbox
         && b == System(a.nodes[i := n.(outbox := n.outbox - sigs)], a.rel + sigs)
       case Crash =>
         b == System(a.nodes[i := n.(s := Resume(setup.ConfigOf(i), n.disk), outbox := {})], a.rel)
  }

  ghost predicate Next(setup: Setup, a: System, b: System) {
    exists i, l :: Step(setup, a, b, i, l)
  }

  ghost predicate Run(setup: Setup, run: seq<System>) {
    && setup.Valid()
    && |run| > 0
    && Init(setup, run[0])
    && forall k :: 0 <= k < |run| - 1 ==> Next(setup, run[k], run[k + 1])
  }

  // ---- invariant

  /** Released ballots of the members `me`. */
  function Own(rel: set<Sig>, me: seq<nat>): set<Sig> {
    set x | x in rel && x.Signed? && x.signer in me
  }

  ghost predicate NodeOk(net: Net, cfg: Config, n: Node) {
    && n.s.cfg == cfg
    && net.cfg == cfg.(me := net.cfg.me)
    && Sound(net, n.s)
    && SoundDisk(net, n.disk)
    && (forall x :: x in n.outbox ==> x.Signed? && x.signer in cfg.me)
    && Obeys(net, Own(net.rel, cfg.me) + n.outbox, n.s.lastVoted, n.s.highQc.round)
    && Obeys(net, Own(net.rel, cfg.me), n.disk.lastVoted, n.disk.highQc.round)
    && CommitsFinal(net, n.log)
  }

  ghost predicate Inv(setup: Setup, a: System) {
    && |a.nodes| == |setup.me|
    && forall i :: 0 <= i < |a.nodes| ==> NodeOk(NetOf(setup, a), setup.ConfigOf(i), a.nodes[i])
  }

  lemma AssumedAlways(setup: Setup, a: System)
    requires setup.Valid()
    ensures NetOf(setup, a).Assumed()
  {
  }

  /** The invariant makes every honest member disciplined. */
  lemma InvDisciplined(setup: Setup, a: System)
    requires setup.Valid() && Inv(setup, a)
    ensures NetOf(setup, a).Disciplined()
  {
    var net := NetOf(setup, a);
    forall v: nat, r: nat, h | net.Honest(v) && net.Ballot(v, r, h) in net.rel ensures net.Justified(r, h) {
      var i := OwnerOf(setup, a, v);
      assert net.Ballot(v, r, h) in Own(net.rel, setup.me[i]);
      OwnObeys(setup, a, i);
      assert IsVote(net, net.Ballot(v, r, h));
    }
    hide Net.Justified;
    forall v: nat, r: nat, h, h' | net.Honest(v) && net.Ballot(v, r, h) in net.rel && net.Ballot(v, r, h') in net.rel
      ensures h == h'
    {
      var i := OwnerOf(setup, a, v);
      var x, y := net.Ballot(v, r, h), net.Ballot(v, r, h');
      assert x in Own(net.rel, setup.me[i]) && y in Own(net.rel, setup.me[i]);
      OwnObeys(setup, a, i);
      assert IsVote(net, x) && IsVote(net, y);
    }
    forall v: nat, r: nat, q: nat, r': nat, h
      | net.Honest(v) && net.GaveUp(v, r, q) in net.rel && net.Ballot(v, r', h) in net.rel && r' <= r
      ensures RoundOf(net.cfg, ParentOf(h)) <= q
    {
      var i := OwnerOf(setup, a, v);
      var x, y := net.GaveUp(v, r, q), net.Ballot(v, r', h);
      assert x in Own(net.rel, setup.me[i]) && y in Own(net.rel, setup.me[i]);
      OwnObeys(setup, a, i);
      assert IsTimeout(net, x) && IsVote(net, y);
    }
  }

  lemma OwnerOf(setup: Setup, a: System, v: nat) returns (i: nat)
    requires setup.Valid() && NetOf(setup, a).Honest(v)
    ensures i < |setup.me| && v in setup.me[i]
  {
    i :| 0 <= i < |setup.me| && v in setup.me[i];
  }

  lemma OwnObeys(setup: Setup, a: System, i: nat)
    requires Inv(setup, a) && i < |a.nodes|
    ensures Obeys(NetOf(setup, a), Own(a.rel, setup.me[i]), a.nodes[i].disk.lastVoted, a.nodes[i].disk.highQc.round)
  {
  }

  lemma ObeysSubset(net: Net, own: set<Sig>, less: set<Sig>, lastVoted: nat, high: nat)
    requires Obeys(net, own, lastVoted, high) && less <= own
    ensures Obeys(net, less, lastVoted, high)
  {
    hide Net.Justified;
  }

  lemma InitInv(setup: Setup, a: System)
    requires setup.Valid() && Init(setup, a)
    ensures Inv(setup, a)
  {
    var net := NetOf(setup, a);
    forall i | 0 <= i < |a.nodes| ensures NodeOk(net, setup.ConfigOf(i), a.nodes[i]) {
      var cfg := setup.ConfigOf(i);
      NewSound(cfg, net);
      PersistSound(net, New(cfg));
      assert Own({}, cfg.me) == {};
    }
  }

  lemma DeliverInv(net: Net, cfg: Config, n: Node, ev: Event)
    requires net.Assumed() && net.Disciplined() && NodeOk(net, cfg, n) && Admissible(net, ev)
    ensures var r := Handle(n.s, ev);
            NodeOk(net, cfg, Node(r.s, n.disk, n.outbox + Ballots(r.out), n.log + r.out))
    ensures forall x :: x in Ballots(Handle(n.s, ev).out) && IsVote(net, x) ==> x.msg.round > n.s.lastVoted
  {
    hide Net.Disciplined, Net.Assumed, Sound, SoundDisk, Obeys, Committable, Handle, Admissible, Ballots;
    var own := Own(net.rel, cfg.me) + n.outbox;
    HandleKeeps(net, n.s, own, ev);
    var r := Handle(n.s, ev);
    assert Own(net.rel, cfg.me) + (n.outbox + Ballots(r.out)) == own + Ballots(r.out);
  }

  lemma WriteInv(net: Net, cfg: Config, n: Node)
    requires NodeOk(net, cfg, n)
    ensures NodeOk(net, cfg, n.(disk := Persist(n.s)))
  {
    hide Obeys, Sound;
    PersistSound(net, n.s);
    ObeysSubset(net, Own(net.rel, cfg.me) + n.outbox, Own(net.rel, cfg.me), n.s.lastVoted, n.s.highQc.round);
  }

  lemma CrashInv(net: Net, cfg: Config, n: Node)
    requires NodeOk(net, cfg, n) && cfg.anchor.round == 0
    ensures NodeOk(net, cfg, n.(s := Resume(cfg, n.disk), outbox := {}))
  {
    hide Obeys, Sound, CommitsFinal;
    ResumeSound(net, cfg, n.disk);
    ResumeConfig(cfg, n.disk);
    assert Own(net.rel, cfg.me) + {} == Own(net.rel, cfg.me);
  }

  lemma ResumeConfig(cfg: Config, p: Persisted)
    ensures Resume(cfg, p).cfg == cfg
  {
  }

  lemma FinalGrows(a: Net, b: Net, x: Hash)
    requires Grows(a, b) && Final(a, x)
    ensures Final(b, x)
  {
    var p :| FinalBy(a, x, p);
    DecidedGrows(a, b, p);
    assert FinalBy(b, x, p);
  }

  lemma CommitsGrow(a: Net, b: Net, log: seq<Action>)
    requires Grows(a, b) && CommitsFinal(a, log)
    ensures CommitsFinal(b, log)
  {
    hide Final, ProofLinks;
    forall x: Hash | Final(a, x) ensures Final(b, x) {
      FinalGrows(a, b, x);
    }
    forall x | x in log ensures FinalOutput(b, x) {
      assert FinalOutput(a, x);
    }
  }

  /** Releasing another engine's ballots. */
  lemma OtherGrows(a: Net, b: Net, cfg: Config, n: Node)
    requires Grows(a, b) && NodeOk(a, cfg, n) && Own(b.rel, cfg.me) == Own(a.rel, cfg.me)
    ensures NodeOk(b, cfg, n)
  {
    hide Obeys, Sound, SoundDisk, CommitsFinal;
    SoundGrows(a, b, n.s);
    SoundDiskGrows(a, b, n.disk);
    ObeysGrows(a, b, Own(a.rel, cfg.me) + n.outbox, n.s.lastVoted, n.s.highQc.round);
    ObeysGrows(a, b, Own(a.rel, cfg.me), n.disk.lastVoted, n.disk.highQc.round);
    CommitsGrow(a, b, n.log);
  }

  lemma SendInv(a: Net, b: Net, cfg: Config, n: Node, sigs: set<Sig>)
    requires NodeOk(a, cfg, n) && n.disk == Persist(n.s) && sigs <= n.outbox && b == a.(rel := a.rel + sigs)
    ensures NodeOk(b, cfg, n.(outbox := n.outbox - sigs))
  {
    hide Obeys, Sound, SoundDisk, CommitsFinal;
    SoundGrows(a, b, n.s);
    SoundDiskGrows(a, b, n.disk);
    CommitsGrow(a, b, n.log);
    var own := Own(a.rel, cfg.me) + n.outbox;
    assert Own(b.rel, cfg.me) == Own(a.rel, cfg.me) + sigs;
    assert Own(b.rel, cfg.me) + (n.outbox - sigs) == own;
    ObeysGrows(a, b, own, n.s.lastVoted, n.s.highQc.round);
    ObeysSubset(b, own, Own(b.rel, cfg.me), n.s.lastVoted, n.s.highQc.round);
  }

  lemma StepInv(setup: Setup, a: System, b: System, i: nat, l: Label)
    requires setup.Valid() && Inv(setup, a) && Step(setup, a, b, i, l)
    ensures Inv(setup, b)
  {
    var net, net' := NetOf(setup, a), NetOf(setup, b);
    var n, cfg := a.nodes[i], setup.ConfigOf(i);
    AssumedAlways(setup, a);
    InvDisciplined(setup, a);
    hide NodeOk, Net.Disciplined, Net.Assumed, Handle, Admissible, Persist, Resume;
    match l
    case Deliver(ev) => DeliverInv(net, cfg, n, ev);
    case Write => WriteInv(net, cfg, n);
    case Crash => CrashInv(net, cfg, n);
    case Send(sigs) =>
      SendInv(net, net', cfg, n, sigs);
      forall j | 0 <= j < |a.nodes| && j != i ensures NodeOk(net', setup.ConfigOf(j), b.nodes[j]) {
        SentByOther(setup, a, i, j, sigs);
        OtherGrows(net, net', setup.ConfigOf(j), a.nodes[j]);
      }
  }

  lemma SentByOther(setup: Setup, a: System, i: nat, j: nat, sigs: set<Sig>)
    requires setup.Valid() && Inv(setup, a) && i < |a.nodes| && j < |a.nodes| && i != j && sigs <= a.nodes[i].outbox
    ensures Own(a.rel + sigs, setup.me[j]) == Own(a.rel, setup.me[j])
  {
    hide Sound, SoundDisk, Obeys, CommitsFinal;
    assert NodeOk(NetOf(setup, a), setup.ConfigOf(i), a.nodes[i]);
    forall x | x in sigs ensures x.Signed? && x.signer !in setup.me[j] {
      assert x.signer in setup.me[i];
    }
  }

  /** Every state of every run satisfies the invariant. */
  lemma {:induction false} RunInv(setup: Setup, run: seq<System>, k: nat)
    requires Run(setup, run) && k < |run|
    ensures Inv(setup, run[k])
  {
    if k == 0 {
      InitInv(setup, run[0]);
    } else {
      RunInv(setup, run, k - 1);
      assert Next(setup, run[k - 1], run[k - 1 + 1]);
      var i, l :| Step(setup, run[k - 1], run[k], i, l);
      StepInv(setup, run[k - 1], run[k], i, l);
    }
  }

  // ---- theorems

  /** Block `x` was in a `Commit` of engine `i` at some point of the run up to `a`. */
  ghost predicate CommittedBy(a: System, i: nat, x: BlockInfo) {
    i < |a.nodes| && exists c :: c in a.nodes[i].log && c.Commit? && x in c.blocks
  }

  /** Agreement: whatever the message order, the Byzantine members and the restarts, all blocks that
      any engines commit lie on one chain, at most one of each height. */
  lemma Agreement(setup: Setup, run: seq<System>, i: nat, j: nat, x: BlockInfo, y: BlockInfo)
    requires Run(setup, run)
    requires CommittedBy(run[|run| - 1], i, x) && CommittedBy(run[|run| - 1], j, y)
    ensures Ancestor(x.hash, y.hash) || Ancestor(y.hash, x.hash)
    ensures x.height == y.height ==> x == y
  {
    var a := run[|run| - 1];
    var net := NetOf(setup, a);
    RunInv(setup, run, |run| - 1);
    AssumedAlways(setup, a);
    InvDisciplined(setup, a);
    CommittedFinal(setup, a, i, x);
    CommittedFinal(setup, a, j, y);
    FinalAgree(net, x.hash, y.hash);
  }

  lemma CommittedFinal(setup: Setup, a: System, i: nat, x: BlockInfo)
    requires Inv(setup, a) && CommittedBy(a, i, x)
    ensures Committable(NetOf(setup, a), x)
  {
    hide Committable;
    var c :| c in a.nodes[i].log && c.Commit? && x in c.blocks;
    var k :| 0 <= k < |c.blocks| && c.blocks[k] == x;
    assert NodeOk(NetOf(setup, a), setup.ConfigOf(i), a.nodes[i]);
  }

  /** Locking over runs: once P and a child of P are certified in consecutive rounds, every certified
      block of P's round or later is P or a descendant of P. */
  lemma LockingAlways(setup: Setup, run: seq<System>, k: nat, p: Hash, b: Hash, x: Hash)
    requires Run(setup, run) && k < |run|
    requires NetOf(setup, run[k]).DecidedBy(p, b)
    requires NetOf(setup, run[k]).CertAt(RoundOf(setup.cfg, x), x) && RoundOf(setup.cfg, x) >= RoundOf(setup.cfg, p)
    ensures Ancestor(p, x)
  {
    RunInv(setup, run, k);
    AssumedAlways(setup, run[k]);
    InvDisciplined(setup, run[k]);
    Locking(NetOf(setup, run[k]), p, b, x);
  }

  /** Voter discipline: in every state of every run, each honest member's released votes are for one
      block per round, each follows the vote rule, and each timeout reports at least the parent
      round of every block voted for up to its round. */
  lemma VoterDiscipline(setup: Setup, run: seq<System>, k: nat)
    requires Run(setup, run) && k < |run|
    ensures NetOf(setup, run[k]).Disciplined()
  {
    RunInv(setup, run, k);
    InvDisciplined(setup, run[k]);
  }

  /** The ballots engine `i` has signed and not lost. */
  function SignedBy(setup: Setup, a: System, i: nat): set<Sig>
    requires i < |setup.me| && i < |a.nodes|
  {
    Own(a.rel, setup.me[i]) + a.nodes[i].outbox
  }

  lemma StepSigns(setup: Setup, a: System, b: System, j: nat, l: Label, i: nat, before: Sig, x: Sig)
    requires setup.Valid() && Inv(setup, a) && Step(setup, a, b, j, l) && i < |a.nodes|
    requires before in Own(a.rel, setup.me[i]) && x in SignedBy(setup, b, i) && x !in SignedBy(setup, a, i)
    requires IsVote(NetOf(setup, a), x)
    ensures before.msg.round < x.msg.round
  {
    var net := NetOf(setup, a);
    AssumedAlways(setup, a);
    InvDisciplined(setup, a);
    assert NodeOk(net, setup.ConfigOf(i), a.nodes[i]);
    assert before.msg.round <= a.nodes[i].s.lastVoted;
    hide NodeOk, Net.Disciplined, Net.Assumed, Handle, Admissible, Persist, Resume, Obeys;
    match l
    case Deliver(ev) => DeliverInv(net, setup.ConfigOf(i), a.nodes[i], ev);
    case Write =>
    case Crash =>
    case Send(sigs) => if i != j { SentByOther(setup, a, j, i, sigs); }
  }

  lemma {:induction false} ReleasedStays(setup: Setup, run: seq<System>, k: nat, m: nat)
    requires Run(setup, run) && k <= m < |run|
    ensures run[k].rel <= run[m].rel
    ensures |run[m].nodes| == |setup.me|
  {
    hide NodeOk, Handle, Admissible, Persist, Resume, Setup.Valid;
    RunInv(setup, run, m);
    if k < m {
      ReleasedStays(setup, run, k, m - 1);
      assert Next(setup, run[m - 1], run[m - 1 + 1]);
    }
  }

  /** Once a vote or timeout of round `t` was released, every vote its engine signs later, across
      crashes and restarts, is for a round above `t`. */
  lemma {:induction false} VotesMoveOn(setup: Setup, run: seq<System>, k: nat, m: nat, i: nat, before: Sig, x: Sig)
    requires Run(setup, run) && k <= m < |run| && i < |setup.me|
    requires |run[k].nodes| == |run[m].nodes| == |setup.me|
    requires before in Own(run[k].rel, setup.me[i])
    requires x in SignedBy(setup, run[m], i) && x !in SignedBy(setup, run[k], i) && IsVote(NetOf(setup, run[k]), x)
    ensures before.msg.round < x.msg.round
    decreases m
  {
    hide Inv, Step, SignedBy, Setup.Valid;
    RunInv(setup, run, m - 1);
    ReleasedStays(setup, run, k, m - 1);
    assert Next(setup, run[m - 1], run[m - 1 + 1]);
    var j, l :| Step(setup, run[m - 1], run[m], j, l);
    if x in SignedBy(setup, run[m - 1], i) {
      VotesMoveOn(setup, run, k, m - 1, i, before, x);
    } else {
      StepSigns(setup, run[m - 1], run[m], j, l, i, before, x);
    }
  }
}
