/** The consensus engine itself (crates/consensus/src/engine.rs): an object whose handlers update its
    fields. The loops and walks are proved to compute the functions of `EngineSpec`, so every entry point
    behaves: it stays safe, extends the ledger without a gap and falls silent when the epoch has ended. */
module ConsensusEngine {
  import opened Options
  import opened Committee
  import opened Certificates
  import opened Spec = EngineSpec
  import opened Sequences
  import opened Protocol
  import opened EngineSafety
  import opened EngineBehaviour
  import Bitmap

  function Extend(w: Walk, tail: seq<BlockInfo>): Walk {
    match w
    case Path(chain) => Path(chain + tail)
    case other => other
  }

  function ExtendRounds(w: Option<(seq<nat>, BlockInfo)>, tail: seq<nat>): Option<(seq<nat>, BlockInfo)> {
    match w
    case Some(r) => Some((r.0 + tail, r.1))
    case None => None
  }

  lemma VerifiedStep(sigs: map<nat, Sig>, pending: map<nat, Sig>, todo: set<nat>, i: nat, msg: Msg)
    requires i in todo && todo <= pending.Keys
    ensures sigs + VerifiedVotes(pending - (todo - {i}), msg) ==
            var now := sigs + VerifiedVotes(pending - todo, msg);
            if VerifySig(i, msg, pending[i]) then now[i := pending[i]] else now
  {
    var before, after := pending - todo, pending - (todo - {i});
    assert after == before[i := pending[i]];
    assert VerifiedVotes(after, msg) ==
           if VerifySig(i, msg, pending[i]) then VerifiedVotes(before, msg)[i := pending[i]] else VerifiedVotes(before, msg);
  }

  class Engine {
    const cfg: Config
    var round: nat
    var lastVoted: nat
    var highQc: Qc
    var entryTc: Option<Tc>
    var blocks: map<Hash, BlockInfo>
    var qcs: map<Hash, Qc>
    var committed: BlockInfo
    var votes: map<(nat, Hash), VoteSet>
    var timeouts: map<nat, TimeoutSet>
    var pending: map<Hash, Proposal>
    var timedOut: set<nat>
    var proposed: set<nat>
    var blockedCommit: Option<Qc>
    var requested: set<Hash>
    var finished: bool

    /** The engine's fields as one value. */
    function View(): State
      reads this
    {
      State(cfg, round, lastVoted, highQc, entryTc, blocks, qcs, committed, votes, timeouts, pending,
            timedOut, proposed, blockedCommit, requested, finished)
    }

    constructor (cfg: Config)
      ensures View() == Spec.New(cfg)
    {
      var g := cfg.AnchorCert();
      this.cfg := cfg;
      round, lastVoted, highQc, entryTc := 0, 0, g, None;
      blocks, qcs, committed := map[cfg.anchor.hash := cfg.anchor], map[cfg.anchor.hash := g], cfg.anchor;
      votes, timeouts, pending, timedOut, proposed := map[], map[], map[], {}, {};
      blockedCommit, requested, finished := None, {}, false;
    }

    constructor Resume(cfg: Config, p: Persisted)
      ensures View() == Spec.Resume(cfg, p)
    {
      hide Spec.Reload;
      var g := cfg.AnchorCert();
      this.cfg := cfg;
      round, lastVoted, highQc, entryTc := 0, 0, g, None;
      blocks, qcs, committed := map[cfg.anchor.hash := cfg.anchor], map[cfg.anchor.hash := g], cfg.anchor;
      votes, timeouts, pending, timedOut, proposed := map[], map[], map[], {}, {};
      blockedCommit, requested, finished := None, {}, false;
      new;
      Load(p);
    }

    method LoadCommitted(p: Persisted)
      modifies this`blocks, this`qcs, this`committed
      ensures View() == Spec.LoadCommitted(old(View()), p)
    {
      if p.committed.height > cfg.anchor.height {
        blocks := map[p.committed.hash := p.committed];
        qcs := map[p.committed.hash := p.committedQc];
        committed := p.committed;
      }
    }

    method LoadVotes(p: Persisted)
      modifies this`blocks, this`qcs, this`highQc, this`lastVoted, this`round
      ensures View() == Spec.LoadVotes(old(View()), p)
    {
      hide Above;
      blocks := blocks + Above(p.blocks, committed.height);
      qcs := qcs[p.highQc.block := p.highQc];
      highQc := p.highQc;
      lastVoted := p.lastVoted;
      round := Max(highQc.round, lastVoted);
    }

    method Load(p: Persisted)
      modifies this
      ensures View() == Spec.Reload(old(View()), p)
    {
      hide Spec.LoadVotes, Spec.LoadCommitted;
      if p.epoch == cfg.epoch {
        LoadCommitted(p);
        LoadVotes(p);
      }
    }

    /** The state to write to disk. A restart from it keeps what safety needs and is as safe as this
        engine, whatever was signed so far. */
    method Save(ghost net: Net, ghost own: set<Sig>) returns (p: Persisted)
      ensures Survives(View(), Spec.Resume(cfg, p))
      ensures Safe(net, own, View()) ==> Safe(net, own, Spec.Resume(cfg, p))
      ensures p == Spec.Persist(View())
    {
      var qc := cfg.AnchorCert();
      if committed.hash in qcs {
        qc := qcs[committed.hash];
      }
      p := Persisted(cfg.epoch, committed, qc, highQc, lastVoted, Above(blocks, committed.height));
      hide Survives, Safe, Spec.Resume;
      RestartSurvives(View());
      if Safe(net, own, View()) {
        RestartSafe(net, own, View());
      }
    }

    // ---- commit

    method BlockOn(qc: Qc, missing: Hash) returns (out: seq<Action>)
      modifies this
      ensures Result(View(), out) == Spec.BlockOn(old(View()), qc, missing)
    {
      if blockedCommit.None? || blockedCommit.value.round < qc.round {
        blockedCommit := Some(qc);
      }
      out := [];
      if missing !in requested {
        requested := requested + {missing};
        out := [FetchBlock(missing)];
      }
    }

    /** Collects `p` and its ancestors above the last committed block, newest first, then reverses
        them. */
    method CollectChain(p: BlockInfo) returns (w: Walk)
      ensures w == WalkBack(blocks, committed, p)
    {
      var chain, cur := [p], p;
      ghost var tail := [];
      assert Reversed(chain) == [p] by { ReversedPush([], p); }
      assert Extend(WalkBack(blocks, committed, p), []) == WalkBack(blocks, committed, p) by {
        match WalkBack(blocks, committed, p)
        case Path(c) => assert c + [] == c;
        case _ =>
      }
      while cur.parent != committed.hash
        invariant Extend(WalkBack(blocks, committed, cur), tail) == WalkBack(blocks, committed, p)
        invariant Reversed(chain) == [cur] + tail
        decreases Depth(cur.hash)
      {
        if cur.parent !in blocks {
          return Missing(cur.parent);
        }
        var up := blocks[cur.parent];
        if up.height <= committed.height || Depth(up.hash) >= Depth(cur.hash) {
          return Fork;
        }
        ghost var above := WalkBack(blocks, committed, up);
        if above.Path? {
          assert (above.chain + [cur]) + tail == above.chain + ([cur] + tail);
        }
        ReversedPush(chain, up);
        tail := [cur] + tail;
        cur := up;
        chain := chain + [cur];
      }
      w := Path(Reversed(chain));
    }

    method ProofFor(p: BlockInfo, b: BlockInfo, pqc: Qc, bqc: Qc) returns (proof: Option<CommitProof>)
      ensures proof == Spec.ProofFor(View(), p, b, pqc, bqc)
    {
      var end := cfg.endHeight;
      if b.height <= end {
        return Some(CommitProof(pqc, bqc, None, [], p.hash, p.height));
      }
      var rounds, cur := [b.round], p;
      ghost var tail := [];
      assert Reversed(rounds) == [b.round] by { ReversedPush([], b.round); }
      assert ExtendRounds(NilWalk(blocks, end, p), []) == NilWalk(blocks, end, p) by {
        match NilWalk(blocks, end, p)
        case Some(r) => assert r.0 + [] == r.0;
        case None =>
      }
      while cur.height > end
        invariant ExtendRounds(NilWalk(blocks, end, cur), tail) == NilWalk(blocks, end, p)
        invariant Reversed(rounds) == tail + [b.round]
        decreases Depth(cur.hash)
      {
        if cur.parent !in blocks || Depth(blocks[cur.parent].hash) >= Depth(cur.hash) {
          return None;
        }
        ghost var above := NilWalk(blocks, end, blocks[cur.parent]);
        if above.Some? {
          assert (above.value.0 + [cur.round]) + tail == above.value.0 + ([cur.round] + tail);
        }
        ReversedPush(rounds, cur.round);
        tail := [cur.round] + tail;
        rounds := rounds + [cur.round];
        cur := blocks[cur.parent];
      }
      assert [] + tail == tail;
      proof := Some(CommitProof(pqc, bqc, None, Reversed(rounds), cur.hash, cur.height));
    }

    /** The real blocks of a chain, in order. */
    method KeepReal(chain: seq<BlockInfo>) returns (ledger: seq<BlockInfo>)
      ensures ledger == RealBlocks(chain, cfg.endHeight)
    {
      ledger := [];
      for i := 0 to |chain|
        invariant ledger == RealBlocks(chain[..i], cfg.endHeight)
      {
        assert chain[..i + 1][..i] == chain[..i];
        if chain[i].height <= cfg.endHeight {
          ledger := ledger + [chain[i]];
        }
      }
      assert chain[..|chain|] == chain;
    }

    method TryCommit(qc: Qc) returns (out: seq<Action>)
      modifies this
      ensures Result(View(), out) == Spec.TryCommit(old(View()), qc)
    {
      if finished {
        return [];
      }
      if qc.block !in blocks {
        out := BlockOn(qc, qc.block);
        return;
      }
      var b := blocks[qc.block];
      if b.parent !in blocks {
        out := [];
        if b.height > committed.height + 1 {
          out := BlockOn(qc, b.parent);
        }
        return;
      }
      var p := blocks[b.parent];
      if p.round + 1 != b.round || p.height <= committed.height || p.hash !in qcs {
        return [];
      }
      var pqc := qcs[p.hash];
      var w := CollectChain(p);
      match w
      case Missing(h) => out := BlockOn(qc, h);
      case Fork => out := [];
      case Path(chain) => out := CommitChain(qc, b, p, pqc, chain);
    }

    method CommitChain(qc: Qc, b: BlockInfo, p: BlockInfo, pqc: Qc, chain: seq<BlockInfo>) returns (out: seq<Action>)
      modifies this
      ensures Result(View(), out) == Spec.CommitChain(old(View()), qc, b, p, pqc, chain)
    {
      committed := p;
      if blockedCommit.Some? && blockedCommit.value.round <= qc.round {
        blockedCommit := None;
      }
      var ledger := KeepReal(chain);
      var made := ProofFor(p, b, pqc, qc);
      if made.None? {
        finished := true;
        return [Abort];
      }
      var proof := made.value;
      out := [];
      if ledger != [] {
        out := [Commit(ledger, proof)];
      }
      if p.height >= cfg.endHeight {
        finished := true;
        var last := p;
        if proof.committed in blocks {
          last := blocks[proof.committed];
        }
        out := out + [EpochEnd(last, proof)];
      }
    }

    // ---- rounds

    method PruneRounds()
      modifies this
      ensures View() == Spec.PruneRounds(old(View()))
    {
      hide VotesFrom, TimeoutsFrom, RoundsFrom;
      var from := if round >= 2 then round - 2 else 0;
      votes := VotesFrom(votes, from);
      timeouts := TimeoutsFrom(timeouts, from);
      timedOut := RoundsFrom(timedOut, from);
      proposed := RoundsFrom(proposed, from);
    }

    method PruneBlocks()
      modifies this
      ensures View() == Spec.PruneBlocks(old(View()))
    {
      hide ProposalsAbove, BlocksFrom, QcsOf;
      pending := ProposalsAbove(pending, committed.height);
      blocks := BlocksFrom(blocks, committed.height);
      qcs := QcsOf(qcs, blocks);
    }

    method Prune()
      modifies this
      ensures View() == Spec.Prune(old(View()))
    {
      PruneRounds();
      PruneBlocks();
    }

    method OpenRound() returns (out: seq<Action>)
      modifies this
      ensures Result(View(), out) == Spec.OpenRound(old(View()))
    {
      out := [ScheduleTimeout(round)];
      Prune();
      if cfg.Leads(round) && round !in proposed {
        out := out + Lead(View());
        proposed := proposed + {round};
      }
    }

    method EnterRound(next: nat, tc: Option<Tc>) returns (out: seq<Action>)
      modifies this
      ensures Result(View(), out) == Spec.EnterRound(old(View()), next, tc)
    {
      hide Spec.TryCommit, Spec.OpenRound;
      if next <= round {
        return [];
      }
      round, entryTc, requested := next, tc, {};
      out := [];
      if blockedCommit.Some? {
        out := TryCommit(blockedCommit.value);
      }
      if finished {
        return;
      }
      var more := OpenRound();
      out := out + more;
    }

    method ProcessQc(qc: Qc) returns (out: seq<Action>)
      modifies this
      ensures Result(View(), out) == Spec.ProcessQc(old(View()), qc)
    {
      hide Spec.TryCommit, Spec.EnterRound;
      if qc.block !in qcs {
        qcs := qcs[qc.block := qc];
      }
      if qc.round > highQc.round {
        highQc := qc;
      }
      out := TryCommit(qc);
      if qc.round >= round {
        var more := EnterRound(qc.round + 1, None);
        out := out + more;
      }
    }

    method ProcessTc(tc: Tc) returns (out: seq<Action>)
      modifies this
      ensures Result(View(), out) == Spec.ProcessTc(old(View()), tc)
    {
      hide Spec.ProcessQc, Spec.EnterRound;
      out := ProcessQc(tc.highQc);
      if tc.round >= round {
        var more := EnterRound(tc.round + 1, Some(tc));
        out := out + more;
      }
    }

    // ---- proposals and votes

    method Decide(block: Hash, valid: bool) returns (out: seq<Action>)
      modifies this
      ensures Result(View(), out) == Spec.OnValidated(old(View()), block, valid)
    {
      out := [];
      if block !in pending {
        return;
      }
      var p := pending[block];
      pending := pending - {block};
      var r := p.block.round;
      if !valid || r != round || r <= lastVoted || !SafeToVote(p) || finished || cfg.me == [] {
        return;
      }
      ghost var before := View();
      lastVoted := r;
      var msg := VoteMsg(cfg.chain, cfg.epoch, r, p.block.hash);
      for i := 0 to |cfg.me|
        invariant View() == before.(lastVoted := r)
        invariant out == CastVotes(before, p)[..i]
      {
        out := out + [SendTo(cfg.validators.Leader(r + 1),
                             VoteM(Vote(cfg.epoch, r, p.block.hash, p.block.height, cfg.me[i], Signed(cfg.me[i], msg))))];
      }
    }

    method Absorb(p: Proposal) returns (out: seq<Action>)
      modifies this
      ensures Result(View(), out) == Spec.Absorb(old(View()), p)
    {
      hide Spec.ProcessQc, Spec.ProcessTc;
      var b := p.block;
      if b.hash !in blocks && b.height > committed.height {
        blocks := blocks[b.hash := b];
      }
      out := ProcessQc(p.qc);
      if p.tc.Some? {
        var more := ProcessTc(p.tc.value);
        out := out + more;
      }
    }

    method OnProposal(p: Proposal) returns (out: seq<Action>)
      modifies this
      ensures Result(View(), out) == Spec.OnProposal(old(View()), p)
    {
      hide Spec.Absorb, Spec.OnValidated;
      if !WellFormed(cfg, p) {
        return [];
      }
      out := Absorb(p);
      var b := p.block;
      if b.round != round || b.round <= lastVoted || cfg.me == [] || finished || !SafeToVote(p) || b.hash in pending {
        return;
      }
      pending := pending[b.hash := p];
      if b.height > cfg.endHeight {
        var more := Decide(b.hash, true);
        out := out + more;
      } else {
        out := out + [Validate(p)];
      }
    }

    /** Checks the votes not checked yet one by one, keeping the valid ones. */
    method CheckEach(vs: VoteSet, msg: Msg) returns (sigs: map<nat, Sig>)
      ensures sigs == vs.sigs + VerifiedVotes(vs.pending, msg)
    {
      sigs := vs.sigs;
      var todo := vs.pending.Keys;
      while todo != {}
        invariant todo <= vs.pending.Keys
        invariant sigs == vs.sigs + VerifiedVotes(vs.pending - todo, msg)
      {
        var i :| i in todo;
        VerifiedStep(vs.sigs, vs.pending, todo, i, msg);
        todo := todo - {i};
        if VerifySig(i, msg, vs.pending[i]) {
          sigs := sigs[i := vs.pending[i]];
        }
      }
      assert vs.pending - {} == vs.pending;
    }

    method Settle(vs: VoteSet, msg: Msg) returns (t: Tally)
      ensures t == Spec.Settle(cfg.validators, msg, vs)
    {
      var v := cfg.validators;
      var signers := Sorted(vs.sigs.Keys + vs.pending.Keys, v.Len());
      if !v.IsQuorum(v.WeightOf(signers)) {
        return Tally(vs, None);
      }
      var agg := SigsOf(vs, signers);
      if vs.pending == map[] || VerifyAggregate(signers, msg, agg) {
        return Tally(vs.(done := true), Some(Formed(signers, agg)));
      }
      var sigs := CheckEach(vs, msg);
      var checked := vs.(sigs := sigs, pending := map[]);
      signers := Sorted(sigs.Keys, v.Len());
      if !v.IsQuorum(v.WeightOf(signers)) {
        return Tally(checked, None);
      }
      t := Tally(checked.(done := true), Some(Formed(signers, SigsOf(checked, signers))));
    }

    method AddVote(vs: VoteSet, msg: Msg, v: Vote) returns (t: Tally)
      ensures t == Spec.AddVote(cfg.validators, msg, vs, v.height, v.signer, v.sig)
    {
      if vs.done || vs.height != v.height || v.signer in vs.sigs {
        return Tally(vs, None);
      }
      var next := vs;
      if v.signer !in vs.pending {
        next := vs.(pending := vs.pending[v.signer := v.sig]);
      } else {
        var first := vs.pending[v.signer];
        if first == v.sig {
          return Tally(vs, None);
        }
        next := vs.(pending := vs.pending - {v.signer});
        if VerifySig(v.signer, msg, first) {
          next := next.(sigs := next.sigs[v.signer := first]);
        } else if VerifySig(v.signer, msg, v.sig) {
          next := next.(sigs := next.sigs[v.signer := v.sig]);
        }
      }
      t := Settle(next, msg);
    }

    method OnVote(v: Vote) returns (out: seq<Action>)
      modifies this
      ensures Result(View(), out) == Spec.OnVote(old(View()), v)
    {
      if !cfg.Leads(v.round + 1) || v.epoch != cfg.epoch || v.signer >= cfg.validators.Len() || v.round + 2 < round {
        return [];
      }
      var key := (v.round, v.block);
      var vs := VoteSet(v.height, map[], map[], false);
      if key in votes {
        vs := votes[key];
      }
      var tally := AddVote(vs, VoteMsg(cfg.chain, cfg.epoch, v.round, v.block), v);
      votes := votes[key := tally.votes];
      if tally.formed.None? {
        return [];
      }
      var f := tally.formed.value;
      var bits := Bitmap.EncodeLoop(f.signers, cfg.validators.Len());
      out := ProcessQc(Qc(cfg.epoch, v.round, v.block, tally.votes.height, bits, Some(f.agg)));
    }

    // ---- timeouts

    method LocalTimeout() returns (out: seq<Action>)
      modifies this
      ensures Result(View(), out) == Spec.LocalTimeout(old(View()))
    {
      lastVoted := Max(lastVoted, round);
      out := [ScheduleTimeout(round)];
      if cfg.me == [] {
        return;
      }
      timedOut := timedOut + {round};
      ghost var after := View();
      var msg := TimeoutMsg(cfg.chain, cfg.epoch, round, highQc.round);
      for i := 0 to |cfg.me|
        invariant View() == after
        invariant out == [ScheduleTimeout(round)] + SignTimeouts(after)[..i]
      {
        out := out + [Broadcast(TimeoutM(Timeout(cfg.epoch, round, highQc, cfg.me[i], Signed(cfg.me[i], msg), entryTc)))];
      }
    }

    method ListEntries(reports: map<nat, Report>, signers: seq<nat>) returns (entries: seq<TcEntry>)
      ensures entries == Entries(reports, signers)
    {
      entries := [];
      for k := 0 to |signers|
        invariant entries == Entries(reports, signers[..k])
      {
        assert signers[..k + 1][..k] == signers[..k];
        var i := signers[k];
        if i in reports {
          entries := entries + [TcEntry(i, reports[i].qcRound, reports[i].sig)];
        }
      }
      assert signers[..|signers|] == signers;
    }

    method CountTimeout(t: Timeout) returns (out: seq<Action>)
      modifies this
      ensures Result(View(), out) == Spec.CountTimeout(old(View()), t)
    {
      hide Spec.ProcessTc, Spec.LocalTimeout;
      var ts := TimeoutSet(map[], t.highQc, false);
      if t.round in timeouts {
        ts := timeouts[t.round];
      }
      if ts.done {
        return [];
      }
      if t.highQc.round > ts.highQc.round {
        ts := ts.(highQc := t.highQc);
      }
      ts := ts.(entries := ts.entries[t.signer := Report(t.highQc.round, t.sig)]);
      var signers := Sorted(ts.entries.Keys, cfg.validators.Len());
      var weight := cfg.validators.WeightOf(signers);
      var quorum := cfg.validators.IsQuorum(weight);
      ts := ts.(done := quorum);
      timeouts := timeouts[t.round := ts];
      out := [];
      if quorum {
        var entries := ListEntries(ts.entries, signers);
        out := ProcessTc(Tc(cfg.epoch, t.round, ts.highQc, entries));
      } else if cfg.validators.IsOneThird(weight) && t.round == round && t.round !in timedOut {
        out := LocalTimeout();
      }
    }

    method OnTimeoutMsg(t: Timeout) returns (out: seq<Action>)
      modifies this
      ensures Result(View(), out) == Spec.OnTimeoutMsg(old(View()), t)
    {
      hide Spec.ProcessTc, Spec.ProcessQc, Spec.CountTimeout;
      if !AcceptsTimeout(View(), t) {
        return [];
      }
      out := [];
      if t.lastTc.Some? && t.lastTc.value.round + 1 == t.round && t.lastTc.value.round >= round
         && t.lastTc.value.Verify(cfg.Scope()) {
        out := ProcessTc(t.lastTc.value);
      }
      var more := ProcessQc(t.highQc);
      var last := CountTimeout(t);
      out := out + more + last;
    }

    // ---- entry points
    //
    // `net` and `own` stand for what the committee has released and what this engine has signed.

    method Start(ghost net: Net, ghost own: set<Sig>) returns (out: seq<Action>)
      modifies this
      ensures Behaves(net, own, old(View()), EvStart, Result(View(), out))
      ensures Result(View(), out) == Handle(old(View()), EvStart)
    {
      hide Spec.EnterRound, Behaves;
      out := EnterRound(round + 1, None);
      HandleBehaves(net, own, old(View()), EvStart);
    }

    method OnBlock(block: BlockInfo, ghost net: Net, ghost own: set<Sig>) returns (out: seq<Action>)
      modifies this
      ensures Behaves(net, own, old(View()), EvBlock(block), Result(View(), out))
      ensures Result(View(), out) == Handle(old(View()), EvBlock(block))
    {
      hide Behaves, Spec.TryCommit;
      requested := requested - {block.hash};
      if block.height > committed.height {
        blocks := blocks[block.hash := block];
      }
      out := [];
      if blockedCommit.Some? {
        out := TryCommit(blockedCommit.value);
      }
      HandleBehaves(net, own, old(View()), EvBlock(block));
    }

    method OnMessage(m: Message, ghost net: Net, ghost own: set<Sig>) returns (out: seq<Action>)
      modifies this
      ensures Behaves(net, own, old(View()), EvMessage(m), Result(View(), out))
      ensures Result(View(), out) == Handle(old(View()), EvMessage(m))
    {
      hide Spec.OnProposal, Spec.OnVote, Spec.OnTimeoutMsg, Behaves;
      HandleBehaves(net, own, View(), EvMessage(m));
      if m.Epoch() != cfg.epoch || finished {
        return [];
      }
      match m
      case ProposalM(p) => out := OnProposal(p);
      case VoteM(v) => out := OnVote(v);
      case TimeoutM(t) => out := OnTimeoutMsg(t);
    }

    method OnValidated(block: Hash, valid: bool, ghost net: Net, ghost own: set<Sig>) returns (out: seq<Action>)
      modifies this
      ensures Behaves(net, own, old(View()), EvValidated(block, valid), Result(View(), out))
      ensures Result(View(), out) == Handle(old(View()), EvValidated(block, valid))
    {
      hide Spec.OnValidated, Behaves;
      out := Decide(block, valid);
      HandleBehaves(net, own, old(View()), EvValidated(block, valid));
    }

    method OnTimeout(expired: nat, ghost net: Net, ghost own: set<Sig>) returns (out: seq<Action>)
      modifies this
      ensures Behaves(net, own, old(View()), EvTimeout(expired), Result(View(), out))
      ensures Result(View(), out) == Handle(old(View()), EvTimeout(expired))
    {
      hide Spec.LocalTimeout, Behaves;
      HandleBehaves(net, own, View(), EvTimeout(expired));
      if expired != round || finished {
        return [];
      }
      out := LocalTimeout();
    }

    /** Broadcasts the node's own block if it is this engine's turn. The engine does not change, signs no
        vote or timeout, and every member accepts the proposal if the node supplied a proposable block. */
    method OnProposed(block: BlockInfo, qc: Qc, tc: Option<Tc>, payload: seq<nat>, ghost net: Net, ghost own: set<Sig>)
      returns (out: seq<Action>)
      ensures Behaves(net, own, View(), EvProposed(block, qc, tc, payload), Result(View(), out))
      ensures Ballots(out) == {} && |out| <= 1
      ensures forall a, other: Config :: a in out && other == cfg.(me := other.me) ==>
                a.Broadcast? && a.m.ProposalM? && (WellFormed(other, a.m.p) <==> Proposable(cfg, block, qc, tc, payload))
    {
      hide Behaves, WellFormed, Proposable, OwnProposal;
      HandleBehaves(net, own, View(), EvProposed(block, qc, tc, payload));
      if block.round != round || !cfg.Leads(block.round) || finished {
        return [];
      }
      out := [OwnProposal(cfg, block, qc, tc, payload)];
      forall other: Config | other == cfg.(me := other.me)
        ensures var a := out[0];
                a.Broadcast? && a.m.ProposalM? && (WellFormed(other, a.m.p) <==> Proposable(cfg, block, qc, tc, payload))
      {
        OwnProposalAccepted(cfg, other, block, qc, tc, payload);
      }
      OwnProposalAccepted(cfg, cfg, block, qc, tc, payload);
    }
  }
}
