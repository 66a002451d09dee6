/** What a caller of the engine can rely on, handler by handler: everything the other modules prove about
    the handlers, in one predicate, and what survives a restart. */
module EngineBehaviour {
  import opened Options
  import opened Committee
  import opened Certificates
  import opened EngineSpec
  import opened Protocol
  import opened EngineSafety
  import opened EpochEnd
  import opened EpochSilence
  import opened TrueHeights

  /** A sound engine all of whose signatures so far, `own`, obey the rules. */
  ghost predicate Safe(net: Net, own: set<Sig>, s: State) {
    net.Assumed() && net.Disciplined() && Sound(net, s) && Obeys(net, own, s.lastVoted, s.highQc.round)
  }

  /** The engine answered input `ev` well: it stays safe, signs by the rules and commits only final blocks;
      it extends the ledger without a gap; heights stay true; once finished it is silent. */
  ghost predicate Behaves(net: Net, own: set<Sig>, s: State, ev: Event, r: Result) {
    && (Safe(net, own, s) && Admissible(net, ev) ==> Keeps(net, s, own, r))
    && (Tidy(s) && GenuineEvent(s.cfg, ev) ==> Advances(s, r))
    && (TrueState(s) && TrueEvent(s.cfg, ev) ==> StaysTrue(s, r))
    && (s.finished ==> r.out == [] && r.s.finished)
  }

  lemma SafeKeeps(net: Net, own: set<Sig>, s: State, ev: Event)
    requires Safe(net, own, s) && Admissible(net, ev)
    ensures Keeps(net, s, own, Handle(s, ev))
  {
    hide Sound, Obeys, Net.Assumed, Net.Disciplined, Admissible, Keeps, Handle;
    HandleKeeps(net, s, own, ev);
  }

  lemma HandleBehaves(net: Net, own: set<Sig>, s: State, ev: Event)
    ensures Behaves(net, own, s, ev, Handle(s, ev))
  {
    hide Handle, Safe, Admissible, Keeps, Tidy, GenuineEvent, Advances, TrueState, TrueEvent, StaysTrue;
    if s.finished {
      FinishedSilent(s, ev);
    }
    if Safe(net, own, s) && Admissible(net, ev) {
      SafeKeeps(net, own, s, ev);
    }
    if Tidy(s) && GenuineEvent(s.cfg, ev) {
      HandleAdvances(s, ev);
    }
    if TrueState(s) && TrueEvent(s.cfg, ev) {
      HandleTrue(s, ev);
    }
  }

  /** What a restart from disk keeps of a state: the last round signed in, the high QC, the last committed
      block (unless it is the anchor's height) and every block above it. Nothing else. */
  predicate Survives(s: State, r: State) {
    && r.cfg == s.cfg
    && r.lastVoted == s.lastVoted
    && r.highQc == s.highQc
    && r.round == Max(s.highQc.round, s.lastVoted)
    && r.committed == (if s.committed.height > s.cfg.anchor.height then s.committed else s.cfg.anchor)
    && (forall h :: h in s.blocks && s.blocks[h].height > s.committed.height && s.blocks[h].height > s.cfg.anchor.height ==>
          h in r.blocks && r.blocks[h] == s.blocks[h])
    && (forall h :: h in r.blocks ==> (h in s.blocks && r.blocks[h] == s.blocks[h]) || r.blocks[h] == r.committed)
    && r.votes == map[] && r.timeouts == map[] && r.pending == map[] && !r.finished
  }

  lemma RestartSurvives(s: State)
    ensures Survives(s, Resume(s.cfg, Persist(s)))
  {
  }

  /** A restart is as safe as the engine it replaces: it owns the same signatures. */
  lemma RestartSafe(net: Net, own: set<Sig>, s: State)
    requires Safe(net, own, s)
    ensures Safe(net, own, Resume(s.cfg, Persist(s)))
  {
    SoundMarks(net, s, 0, {});
    hide Sound, SoundDisk, Obeys, Resume, Persist, Net.Disciplined;
    PersistSound(net, s);
    ResumeSound(net, s.cfg, Persist(s));
    PersistKeeps(s);
  }

  lemma PersistKeeps(s: State)
    ensures Persist(s).lastVoted == s.lastVoted && Persist(s).highQc == s.highQc
  {
  }

  /** What the node must supply for its own proposal to be acceptable: a child of a verified certificate,
      nil exactly past the epoch's last height. */
  predicate Proposable(cfg: Config, b: BlockInfo, qc: Qc, tc: Option<Tc>, payload: seq<nat>) {
    && b.round > qc.round
    && b.parent == qc.block
    && b.height == qc.height + 1
    && (b.height > cfg.endHeight ==> b.hash == Nil(cfg.epoch, b.parent, b.round) && payload == [])
    && qc.Verify(cfg.Scope())
    && (tc.Some? ==> tc.value.round + 1 == b.round && tc.value.Verify(cfg.Scope()))
  }

  /** Every member of the committee accepts an own proposal exactly when it is proposable: leader, epoch and
      signature are always right. */
  lemma OwnProposalAccepted(cfg: Config, other: Config, b: BlockInfo, qc: Qc, tc: Option<Tc>, payload: seq<nat>)
    requires other == cfg.(me := other.me)
    ensures var a := OwnProposal(cfg, b, qc, tc, payload);
            a.Broadcast? && a.m.ProposalM? && (WellFormed(other, a.m.p) <==> Proposable(cfg, b, qc, tc, payload))
  {
    hide Qc.Verify, Tc.Verify;
    assert other.Scope() == cfg.Scope();
  }
}
