/** The end of an epoch over runs with restarts: which calls end it, which panic, and what a restarted engine
    does again. */
module EpochLives {
  import opened Options
  import opened Committee
  import opened Certificates
  import opened EngineSpec
  import opened Protocol
  import opened EngineSafety
  import opened EpochEnd
  import opened Network
  import FinalityProofs

  // ---- one restart

  function Base(s: State): BlockInfo {
    if s.committed.height > s.cfg.anchor.height then s.committed else s.cfg.anchor
  }

  /** Where a restart begins: the last committed block and the blocks above it. */
  lemma RestartParts(s: State)
    ensures var r := Resume(s.cfg, Persist(s));
            && r.cfg == s.cfg && !r.finished && r.blockedCommit.None? && r.committed == Base(s)
            && r.blocks == map[Base(s).hash := Base(s)] + Above(Above(s.blocks, s.committed.height), Base(s).height)
            && s.highQc.block in r.qcs
  {
  }

  lemma AboveIn(blocks: map<Hash, BlockInfo>, a: nat, b: nat, h: Hash)
    ensures var m := Above(Above(blocks, a), b);
            && (h in m <==> h in blocks && blocks[h].height > a && blocks[h].height > b)
            && (h in m ==> m[h] == blocks[h])
  {
  }

  lemma BaseTidy(cfg: Config, base: BlockInfo, m: map<Hash, BlockInfo>, r: State)
    requires Genuine(cfg, base) && base.height >= cfg.anchor.height && cfg.anchor.round == 0 && cfg.anchor.height <= cfg.endHeight
    requires forall h :: h in m ==> m[h].hash == h && Genuine(cfg, m[h]) && m[h].height > base.height
    requires r.cfg == cfg && r.committed == base && r.blocks == map[base.hash := base] + m
    requires base.hash in m ==> m[base.hash] == base
    ensures Tidy(r)
  {
    hide Genuine;
  }

  lemma SameHash(cfg: Config, a: BlockInfo, b: BlockInfo)
    requires Genuine(cfg, a) && Genuine(cfg, b) && a.hash == b.hash
    ensures a == b
  {
  }

  /** A restart from disk starts a tidy life at the block committed last. */
  lemma RestartTidy(s: State)
    requires Tidy(s)
    ensures var r := Resume(s.cfg, Persist(s));
            && Tidy(r) && !r.finished && r.cfg == s.cfg
            && r.committed.height == s.committed.height
  {
    var m := Above(Above(s.blocks, s.committed.height), Base(s).height);
    assert Genuine(s.cfg, s.cfg.anchor);
    RestartParts(s);
    hide Genuine, Above, Resume, Persist;
    forall h | h in m ensures m[h].hash == h && Genuine(s.cfg, m[h]) && m[h].height > Base(s).height {
      AboveIn(s.blocks, s.committed.height, Base(s).height, h);
    }
    if Base(s).hash in m {
      SameHash(s.cfg, m[Base(s).hash], Base(s));
    }
    BaseTidy(s.cfg, Base(s), m, Resume(s.cfg, Persist(s)));
  }

  /** The ledger of a restarted engine goes on where the disk stood. */
  lemma RestartLedger(s: State, events: seq<Event>)
    requires Tidy(s) && forall i :: 0 <= i < |events| ==> GenuineEvent(s.cfg, events[i])
    ensures var t := Resume(s.cfg, Persist(s)); LifeLedger(s.cfg.endHeight, t.committed, Live(t, events))
  {
    RestartTidy(s);
    hide Tidy, Live, LifeLedger, Resume, Persist, GenuineEvent;
    LifeExact(Resume(s.cfg, Persist(s)), events);
  }

  // ---- actions that end an epoch

  ghost predicate Ended(log: seq<Action>) {
    exists a :: a in log && a.EpochEnd?
  }

  lemma {:induction false} EndsListed(out: seq<Action>)
    ensures Ended(out) <==> Ends(out) != []
    ensures forall a :: a in out && a.EpochEnd? ==> a.block in Ends(out)
  {
    if out != [] {
      var less, l := out[..|out| - 1], out[|out| - 1];
      assert out == less + [l];
      EndsListed(less);
      LastAction(less, l);
      hide Ends;
      if l.EpochEnd? {
        assert l in out;
      }
      if Ended(less) {
        var a :| a in less && a.EpochEnd?;
        assert a in out;
      }
    }
  }

  /** A call that ends the epoch says so or panics: it panics exactly when the engine started past the
      epoch's last block. */
  ghost predicate EndsWell(s: State, r: Result) {
    var end := s.cfg.endHeight;
    && (Abort in r.out <==> !s.finished && r.s.finished && s.committed.height > end)
    && (Ended(r.out) <==> !s.finished && r.s.finished && s.committed.height <= end)
    && (forall a :: a in r.out && a.EpochEnd? ==> a.block.height == end)
    && (!r.s.finished && r.s.committed.height > end ==> s.committed.height > end)
    && (s.finished ==> r.s.finished)
  }

  lemma CallEnds(s: State, ev: Event)
    requires Tidy(s) && GenuineEvent(s.cfg, ev)
    ensures EndsWell(s, Handle(s, ev)) && Tidy(Handle(s, ev).s) && Handle(s, ev).s.cfg == s.cfg
  {
    hide Handle, Tidy, GenuineEvent;
    HandleAdvances(s, ev);
    var r := Handle(s, ev);
    EndsListed(r.out);
    hide Ended, Ends, Batch, Chained;
  }

  // ---- every run

  ghost predicate NodeLives(cfg: Config, n: Node) {
    var t := Resume(cfg, n.disk);
    && n.s.cfg == cfg && Tidy(n.s) && Tidy(t) && !t.finished && t.cfg == cfg
    && (n.s.finished || n.s.committed.height > cfg.endHeight || t.committed.height > cfg.endHeight ==> Ended(n.log))
    && (forall a :: a in n.log && a.EpochEnd? ==> a.block.height == cfg.endHeight)
  }

  ghost predicate AllLive(setup: Setup, a: System) {
    |a.nodes| == |setup.me| && forall i :: 0 <= i < |a.nodes| ==> NodeLives(setup.ConfigOf(i), a.nodes[i])
  }

  lemma GenuineSame(cfg: Config, me: seq<nat>, b: BlockInfo)
    requires Genuine(cfg, b)
    ensures Genuine(cfg.(me := me), b)
  {
    FinalityProofs.HeightSame(cfg, me, b.hash);
    FinalityProofs.HeightSame(cfg, me, b.parent);
  }

  lemma AdmissibleGenuine(net: Net, me: seq<nat>, ev: Event)
    requires Admissible(net, ev)
    ensures GenuineEvent(net.cfg.(me := me), ev)
  {
    match ev
    case EvMessage(m) =>
      if m.ProposalM? {
        GenuineSame(net.cfg, me, m.p.block);
      }
    case EvBlock(b) => GenuineSame(net.cfg, me, b);
    case _ =>
  }

  lemma EndedGrows(log: seq<Action>, out: seq<Action>)
    ensures Ended(log + out) <==> Ended(log) || Ended(out)
  {
    if Ended(log) {
      var a :| a in log && a.EpochEnd?;
      assert a in log + out;
    }
    if Ended(out) {
      var a :| a in out && a.EpochEnd?;
      assert a in log + out;
    }
  }

  lemma DeliverLives(cfg: Config, n: Node, ev: Event)
    requires NodeLives(cfg, n) && GenuineEvent(cfg, ev)
    ensures var r := Handle(n.s, ev); NodeLives(cfg, Node(r.s, n.disk, n.outbox + Ballots(r.out), n.log + r.out))
  {
    hide Handle, Tidy, Resume, Ended, GenuineEvent, Ballots;
    CallEnds(n.s, ev);
    EndedGrows(n.log, Handle(n.s, ev).out);
  }

  lemma WriteLives(cfg: Config, n: Node)
    requires NodeLives(cfg, n)
    ensures NodeLives(cfg, n.(disk := Persist(n.s)))
  {
    hide Tidy, Resume, Persist, Ended;
    RestartTidy(n.s);
  }

  lemma StepLives(setup: Setup, a: System, b: System, i: nat, l: Label)
    requires AllLive(setup, a) && Step(setup, a, b, i, l)
    ensures AllLive(setup, b)
  {
    var n, cfg := a.nodes[i], setup.ConfigOf(i);
    assert NodeLives(cfg, n);
    hide Handle, Admissible, Persist, Resume, Tidy, Ended, Ballots, GenuineEvent;
    match l
    case Deliver(ev) =>
      AdmissibleGenuine(NetOf(setup, a), setup.me[i], ev);
      DeliverLives(cfg, n, ev);
    case Write => WriteLives(cfg, n);
    case Send(sigs) =>
    case Crash =>
  }

  lemma FreshLives(cfg: Config)
    requires cfg.anchor.round == 0 && cfg.anchor.height <= cfg.endHeight
    ensures NodeLives(cfg, Fresh(cfg))
  {
    var s := New(cfg);
    assert Tidy(s);
    hide Tidy, Genuine;
    RestartTidy(s);
  }

  lemma {:induction false} RunLives(setup: Setup, run: seq<System>, k: nat)
    requires Run(setup, run) && k < |run|
    ensures AllLive(setup, run[k])
  {
    hide AllLive, Next, Step;
    if k == 0 {
      InitLives(setup, run[0]);
    } else {
      RunLives(setup, run, k - 1);
      assert Next(setup, run[k - 1], run[k - 1 + 1]);
      NextLives(setup, run[k - 1], run[k]);
    }
  }

  lemma InitLives(setup: Setup, a: System)
    requires setup.Valid() && Init(setup, a)
    ensures AllLive(setup, a)
  {
    hide NodeLives, Fresh;
    forall i | 0 <= i < |a.nodes| ensures NodeLives(setup.ConfigOf(i), a.nodes[i]) {
      FreshLives(setup.ConfigOf(i));
    }
  }

  lemma NextLives(setup: Setup, a: System, b: System)
    requires AllLive(setup, a) && Next(setup, a, b)
    ensures AllLive(setup, b)
  {
    hide AllLive, Handle, Admissible, Persist, Resume;
    var i, l :| Step(setup, a, b, i, l);
    StepLives(setup, a, b, i, l);
  }

  // ---- theorems

  /** In every state of every run, for every input: the panic happens exactly when a call ends the epoch of an
      engine whose last committed block is a nil block, and then an earlier life of that engine had already
      announced the end. In all other calls that end an epoch the end is announced. */
  lemma PanicExactly(setup: Setup, run: seq<System>, i: nat, ev: Event)
    requires Run(setup, run) && i < |setup.me| && |run[|run| - 1].nodes| == |setup.me|
    requires Admissible(NetOf(setup, run[|run| - 1]), ev)
    ensures var n := run[|run| - 1].nodes[i];
            var r := Handle(n.s, ev);
            && (Abort in r.out <==> !n.s.finished && r.s.finished && n.s.committed.height > setup.cfg.endHeight)
            && (Ended(r.out) <==> !n.s.finished && r.s.finished && n.s.committed.height <= setup.cfg.endHeight)
            && (Abort in r.out ==> Ended(n.log))
  {
    var a := run[|run| - 1];
    RunLives(setup, run, |run| - 1);
    assert NodeLives(setup.ConfigOf(i), a.nodes[i]);
    AdmissibleGenuine(NetOf(setup, a), setup.me[i], ev);
    hide Run, Handle, Tidy, Resume, GenuineEvent, Admissible, Ended;
    CallEnds(a.nodes[i].s, ev);
  }

  /** However often engines announce the end of the epoch, they all name the same block, of the last height. */
  lemma OneEnd(setup: Setup, run: seq<System>, i: nat, j: nat, x: Action, y: Action)
    requires Run(setup, run) && i < |setup.me| && j < |setup.me| && |run[|run| - 1].nodes| == |setup.me|
    requires x in run[|run| - 1].nodes[i].log && y in run[|run| - 1].nodes[j].log && x.EpochEnd? && y.EpochEnd?
    ensures x.block == y.block && x.block.height == setup.cfg.endHeight
  {
    var a := run[|run| - 1];
    var net := NetOf(setup, a);
    RunLives(setup, run, |run| - 1);
    assert NodeLives(setup.ConfigOf(i), a.nodes[i]) && NodeLives(setup.ConfigOf(j), a.nodes[j]);
    RunInv(setup, run, |run| - 1);
    EndFinal(setup, a, i, x);
    EndFinal(setup, a, j, y);
    AssumedAlways(setup, a);
    InvDisciplined(setup, a);
    hide Final, Run, Inv, NodeLives, Net.Disciplined;
    FinalAgree(net, x.block.hash, y.block.hash);
  }

  lemma EndFinal(setup: Setup, a: System, i: nat, x: Action)
    requires Inv(setup, a) && i < |a.nodes| && x in a.nodes[i].log && x.EpochEnd?
    ensures Genuine(setup.cfg, x.block) && Final(NetOf(setup, a), x.block.hash)
  {
    assert NodeOk(NetOf(setup, a), setup.ConfigOf(i), a.nodes[i]);
    assert FinalOutput(NetOf(setup, a), x);
  }

  // ---- what a restarted engine does again

  /** A child of `s.committed` is certified by the high QC of `s`; `d` is a child of it in the next round. */
  predicate NextInLine(s: State, c: BlockInfo, d: BlockInfo) {
    && s.committed.height > s.cfg.anchor.height
    && s.highQc.block == c.hash && c.hash in s.blocks && s.blocks[c.hash] == c
    && c.parent == s.committed.hash && c.height == s.committed.height + 1
    && d.parent == c.hash && d.round == c.round + 1 && d.height == c.height + 1
  }

  /** The restarted engine that has fetched `d`. */
  function Fetched(s: State, d: BlockInfo): State {
    Handle(Resume(s.cfg, Persist(s)), EvBlock(d)).s
  }

  lemma FetchedParts(s: State, c: BlockInfo, d: BlockInfo)
    requires Tidy(s) && NextInLine(s, c, d) && Genuine(s.cfg, d) && d.hash != c.hash
    ensures var u := Fetched(s, d);
            && Tidy(u) && u.cfg == s.cfg && !u.finished && u.committed == s.committed
            && c.hash in u.blocks && u.blocks[c.hash] == c && d.hash in u.blocks && u.blocks[d.hash] == d && c.hash in u.qcs
  {
    hide Genuine, Resume, Persist, Tidy;
    RestartTidy(s);
    RestartHas(s, c);
    var t := Resume(s.cfg, Persist(s));
    OnBlockAdvances(t, d);
    BlockAdded(t, d);
  }

  lemma BlockAdded(t: State, d: BlockInfo)
    requires t.blockedCommit.None? && d.height > t.committed.height
    ensures OnBlock(t, d).s == t.(requested := t.requested - {d.hash}, blocks := t.blocks[d.hash := d])
  {
  }

  lemma RestartHas(s: State, c: BlockInfo)
    requires s.committed.height > s.cfg.anchor.height && s.highQc.block == c.hash && c.hash in s.blocks && s.blocks[c.hash] == c
    requires c.height == s.committed.height + 1
    ensures var t := Resume(s.cfg, Persist(s));
            t.blockedCommit.None? && t.committed == s.committed && c.hash in t.blocks && t.blocks[c.hash] == c && c.hash in t.qcs
  {
    RestartParts(s);
    hide Above, Resume, Persist;
    AboveIn(s.blocks, s.committed.height, s.committed.height, c.hash);
  }

  lemma CommitsNext(u: State, c: BlockInfo, d: BlockInfo, qc: Qc)
    requires !u.finished && qc.block == d.hash && d.hash in u.blocks && u.blocks[d.hash] == d
    requires c.hash in u.blocks && u.blocks[c.hash] == c && c.hash in u.qcs && d.parent == c.hash && d.round == c.round + 1
    requires c.parent == u.committed.hash && c.height == u.committed.height + 1 && c.height >= u.cfg.endHeight
    ensures TryCommit(u, qc).s.finished
  {
    assert WalkBack(u.blocks, u.committed, c) == Path([c]);
    hide NilWalk, RealBlocks;
  }

  lemma ProcessEnds(u: State, c: BlockInfo, d: BlockInfo, qc: Qc)
    requires Tidy(u) && !u.finished && qc.block == d.hash && d.hash in u.blocks && u.blocks[d.hash] == d
    requires c.hash in u.blocks && u.blocks[c.hash] == c && c.hash in u.qcs && d.parent == c.hash && d.round == c.round + 1
    requires c.parent == u.committed.hash && c.height == u.committed.height + 1 && c.height >= u.cfg.endHeight
    ensures ProcessQc(u, qc).s.finished
  {
    var t := AddQc(u, qc);
    CommitsNext(t, c, d, qc);
    TryCommitAdvances(t, qc);
    hide TryCommit, EnterRound, Tidy;
    var r := TryCommit(t, qc);
    EnterRoundAdvances(r.s, qc.round + 1, None);
  }

  lemma TimeoutEnds(u: State, t: Timeout)
    requires Tidy(u) && !u.finished && t.epoch == u.cfg.epoch && t.lastTc.None? && AcceptsTimeout(u, t)
    requires ProcessQc(u, t.highQc).s.finished
    ensures Handle(u, EvMessage(TimeoutM(t))).s.finished
  {
    hide Tidy, ProcessQc, CountTimeout, AcceptsTimeout;
    ProcessQcAdvances(u, t.highQc);
    CountTimeoutAdvances(ProcessQc(u, t.highQc).s, t);
  }

  /** An engine that ended its epoch and restarts ends it again as soon as it learns the next block of the nil
      chain and its certificate: with `EpochEnd` of the same block if that block was the last one committed,
      with the panic if a nil block was. */
  lemma RestartEndsAgain(s: State, c: BlockInfo, d: BlockInfo, t: Timeout)
    requires Tidy(s) && s.committed.height >= s.cfg.endHeight && NextInLine(s, c, d) && Genuine(s.cfg, d) && d.hash != c.hash
    requires t.epoch == s.cfg.epoch && t.lastTc.None? && t.highQc.block == d.hash && AcceptsTimeout(Fetched(s, d), t)
    ensures var out := Handle(Fetched(s, d), EvMessage(TimeoutM(t))).out;
            && (Abort in out <==> s.committed.height > s.cfg.endHeight)
            && (Ended(out) <==> s.committed.height == s.cfg.endHeight)
  {
    var u := Fetched(s, d);
    FetchedParts(s, c, d);
    hide Fetched, Tidy, Ended, Genuine, AcceptsTimeout, Handle;
    ProcessEnds(u, c, d, t.highQc);
    TimeoutEnds(u, t);
    CallEnds(u, EvMessage(TimeoutM(t)));
  }

  /** Nothing on disk says that the epoch is over: a restarted engine signs when its timer runs out. */
  lemma RestartSigns(s: State)
    requires s.cfg.me != []
    ensures var t := Resume(s.cfg, Persist(s)); Ballots(Handle(t, EvTimeout(t.round)).out) != {}
  {
    var t := Resume(s.cfg, Persist(s));
    var out := Handle(t, EvTimeout(t.round)).out;
    hide Persist, Resume;
    assert !t.finished && t.cfg == s.cfg by { RestartOpen(s); }
    var u := LocalTimeout(t).s;
    assert out[1] == SignTimeouts(u)[0] && out[1] in out;
    assert out[1].m.t.sig in Ballots(out);
  }

  lemma RestartOpen(s: State)
    ensures !Resume(s.cfg, Persist(s)).finished && Resume(s.cfg, Persist(s)).cfg == s.cfg
  {
  }
}
