/** The consensus engine as functions on values (crates/consensus/src/engine.rs): what each handler
    makes of a state and which actions it returns. `Engine.dfy` holds the imperative engine, proved
    to compute these functions.

    A node's own votes, timeouts and proposals leave as actions and come back as messages; the
    source feeds them to itself inside the handler. Timer lengths are left out. */
module EngineSpec {
  import opened Options
  import opened Committee
  import opened Certificates
  import Bitmap

  datatype Config = Config(
    chain: nat,
    epoch: nat,
    validators: ValidatorSet,
    me: seq<nat>,
    anchor: BlockInfo,
    endHeight: nat)
  {
    function Scope(): Scope {
      Certificates.Scope(chain, epoch, validators, anchor.hash)
    }

    predicate Leads(round: nat) {
      validators.Leader(round) in me
    }

    function AnchorCert(): Qc {
      AnchorQc(epoch, anchor.hash, anchor.height)
    }
  }

  datatype VoteSet = VoteSet(height: nat, sigs: map<nat, Sig>, pending: map<nat, Sig>, done: bool)

  datatype Report = Report(qcRound: nat, sig: Sig)

  datatype TimeoutSet = TimeoutSet(entries: map<nat, Report>, highQc: Qc, done: bool)

  datatype Action =
    | Broadcast(m: Message)
    | SendTo(to: nat, m: Message)
    | Validate(p: Proposal)
    | Propose(round: nat, qc: Qc, tc: Option<Tc>)
    | Commit(blocks: seq<BlockInfo>, proof: CommitProof)
    | FetchBlock(h: Hash)
    | EpochEnd(block: BlockInfo, proof: CommitProof)
    | ScheduleTimeout(round: nat)
    | Abort  // the source panics: a nil ancestor is not in the block tree

  datatype State = State(
    cfg: Config,
    round: nat,
    lastVoted: nat,
    highQc: Qc,
    entryTc: Option<Tc>,
    blocks: map<Hash, BlockInfo>,
    qcs: map<Hash, Qc>,
    committed: BlockInfo,
    votes: map<(nat, Hash), VoteSet>,
    timeouts: map<nat, TimeoutSet>,
    pending: map<Hash, Proposal>,
    timedOut: set<nat>,
    proposed: set<nat>,
    blockedCommit: Option<Qc>,
    requested: set<Hash>,
    finished: bool)

  /** A handler's new state and the actions it returns. */
  datatype Result = Result(s: State, out: seq<Action>) {
    function After(before: seq<Action>): Result {
      Result(s, before + out)
    }
  }

  /** The safety state kept on disk: enough that a restart never signs against an earlier signature. */
  datatype Persisted = Persisted(
    epoch: nat,
    committed: BlockInfo,
    committedQc: Qc,
    highQc: Qc,
    lastVoted: nat,
    blocks: map<Hash, BlockInfo>)

  function Max(a: nat, b: nat): nat {
    if a > b then a else b
  }

  // ---- start, persist, resume

  function New(cfg: Config): State {
    var g := cfg.AnchorCert();
    State(cfg, 0, 0, g, None, map[cfg.anchor.hash := cfg.anchor], map[cfg.anchor.hash := g], cfg.anchor,
          map[], map[], map[], {}, {}, None, {}, false)
  }

  function Above(blocks: map<Hash, BlockInfo>, height: nat): map<Hash, BlockInfo> {
    map h | h in blocks && blocks[h].height > height :: blocks[h]
  }

  function Persist(s: State): Persisted {
    Persisted(
      s.cfg.epoch,
      s.committed,
      if s.committed.hash in s.qcs then s.qcs[s.committed.hash] else s.cfg.AnchorCert(),
      s.highQc,
      s.lastVoted,
      Above(s.blocks, s.committed.height))
  }

  function Resume(cfg: Config, p: Persisted): State {
    Reload(New(cfg), p)
  }

  /** What a fresh engine takes from disk. */
  function Reload(s: State, p: Persisted): State {
    if p.epoch != s.cfg.epoch then s else LoadVotes(LoadCommitted(s, p), p)
  }

  function LoadCommitted(s: State, p: Persisted): State {
    if p.committed.height > s.cfg.anchor.height then
      s.(blocks := map[p.committed.hash := p.committed],
         qcs := map[p.committed.hash := p.committedQc],
         committed := p.committed)
    else s
  }

  function LoadVotes(s: State, p: Persisted): State {
    s.(blocks := s.blocks + Above(p.blocks, s.committed.height),
       qcs := s.qcs[p.highQc.block := p.highQc],
       highQc := p.highQc,
       lastVoted := p.lastVoted,
       round := Max(p.highQc.round, p.lastVoted))
  }

  // ---- commit

  datatype Walk = Path(chain: seq<BlockInfo>) | Missing(h: Hash) | Fork

  /** The blocks from just above `base` to `cur`, oldest first, following parent links. The source
      would walk a cycle of parent links forever; here it is a fork (hashes rule cycles out). */
  function WalkBack(blocks: map<Hash, BlockInfo>, base: BlockInfo, cur: BlockInfo): Walk
    decreases Depth(cur.hash)
  {
    if cur.parent == base.hash then Path([cur])
    else if cur.parent !in blocks then Missing(cur.parent)
    else
      var up := blocks[cur.parent];
      if up.height <= base.height || Depth(up.hash) >= Depth(cur.hash) then Fork
      else
        match WalkBack(blocks, base, up)
        case Path(chain) => Path(chain + [cur])
        case other => other
  }

  /** Nil rounds from just above the last real block to `cur`, and that block. `None` where the
      source panics because an ancestor is not in the block tree. */
  function NilWalk(blocks: map<Hash, BlockInfo>, end: nat, cur: BlockInfo): Option<(seq<nat>, BlockInfo)>
    decreases Depth(cur.hash)
  {
    if cur.height <= end then Some(([], cur))
    else if cur.parent !in blocks || Depth(blocks[cur.parent].hash) >= Depth(cur.hash) then None
    else
      match NilWalk(blocks, end, blocks[cur.parent])
      case Some(r) => Some((r.0 + [cur.round], r.1))
      case None => None
  }

  /** Puts the certificates of `p` and `b`, child of `p`, together. When `b` is nil the proof is about the
      block the nil chain hangs off. */
  function ProofFor(s: State, p: BlockInfo, b: BlockInfo, pqc: Qc, bqc: Qc): Option<CommitProof> {
    if b.height <= s.cfg.endHeight then
      Some(CommitProof(pqc, bqc, None, [], p.hash, p.height))
    else
      match NilWalk(s.blocks, s.cfg.endHeight, p)
      case Some(r) => Some(CommitProof(pqc, bqc, None, r.0 + [b.round], r.1.hash, r.1.height))
      case None => None
  }

  function BlockOn(s: State, qc: Qc, missing: Hash): Result {
    var t := if s.blockedCommit.None? || s.blockedCommit.value.round < qc.round
             then s.(blockedCommit := Some(qc)) else s;
    if missing in t.requested then Result(t, [])
    else Result(t.(requested := t.requested + {missing}), [FetchBlock(missing)])
  }

  function RealBlocks(chain: seq<BlockInfo>, end: nat): seq<BlockInfo> {
    if chain == [] then []
    else
      var rest := RealBlocks(chain[..|chain| - 1], end);
      if chain[|chain| - 1].height <= end then rest + [chain[|chain| - 1]] else rest
  }

  function CommitChain(s: State, qc: Qc, b: BlockInfo, p: BlockInfo, pqc: Qc, chain: seq<BlockInfo>): Result {
    var t := s.(committed := p,
                blockedCommit := if s.blockedCommit.Some? && s.blockedCommit.value.round <= qc.round
                                 then None else s.blockedCommit);
    match ProofFor(t, p, b, pqc, qc)
    case None => Result(t.(finished := true), [Abort])
    case Some(proof) =>
      var ledger := RealBlocks(chain, s.cfg.endHeight);
      var out := if ledger != [] then [Commit(ledger, proof)] else [];
      if p.height >= s.cfg.endHeight then
        var last := if proof.committed in t.blocks then t.blocks[proof.committed] else p;
        Result(t.(finished := true), out + [EpochEnd(last, proof)])
      else Result(t, out)
  }

  /** Commits the parent of the certified block when their rounds are consecutive and every block in
      between is known; asks for the first one that is not. */
  function TryCommit(s: State, qc: Qc): Result {
    if s.finished then Result(s, [])
    else if qc.block !in s.blocks then BlockOn(s, qc, qc.block)
    else
      var b := s.blocks[qc.block];
      if b.parent !in s.blocks then
        if b.height > s.committed.height + 1 then BlockOn(s, qc, b.parent) else Result(s, [])
      else
        var p := s.blocks[b.parent];
        if p.round + 1 != b.round || p.height <= s.committed.height || p.hash !in s.qcs then Result(s, [])
        else
          match WalkBack(s.blocks, s.committed, p)
          case Path(chain) => CommitChain(s, qc, b, p, s.qcs[p.hash], chain)
          case Missing(h) => BlockOn(s, qc, h)
          case Fork => Result(s, [])
  }

  // ---- rounds

  function VotesFrom(votes: map<(nat, Hash), VoteSet>, from: nat): map<(nat, Hash), VoteSet> {
    map k | k in votes && k.0 + 1 >= from :: votes[k]
  }

  function TimeoutsFrom(timeouts: map<nat, TimeoutSet>, from: nat): map<nat, TimeoutSet> {
    map r | r in timeouts && r + 1 >= from :: timeouts[r]
  }

  function RoundsFrom(rounds: set<nat>, from: nat): set<nat> {
    set r | r in rounds && r + 1 >= from
  }

  function ProposalsAbove(pending: map<Hash, Proposal>, height: nat): map<Hash, Proposal> {
    map h | h in pending && pending[h].block.height > height :: pending[h]
  }

  function BlocksFrom(blocks: map<Hash, BlockInfo>, height: nat): map<Hash, BlockInfo> {
    map h | h in blocks && blocks[h].height >= height :: blocks[h]
  }

  function QcsOf(qcs: map<Hash, Qc>, blocks: map<Hash, BlockInfo>): map<Hash, Qc> {
    map h | h in qcs && h in blocks :: qcs[h]
  }

  function PruneRounds(s: State): State {
    var from := if s.round >= 2 then s.round - 2 else 0;
    s.(votes := VotesFrom(s.votes, from),
       timeouts := TimeoutsFrom(s.timeouts, from),
       timedOut := RoundsFrom(s.timedOut, from),
       proposed := RoundsFrom(s.proposed, from))
  }

  function PruneBlocks(s: State): State {
    var blocks := BlocksFrom(s.blocks, s.committed.height);
    s.(pending := ProposalsAbove(s.pending, s.committed.height),
       blocks := blocks,
       qcs := QcsOf(s.qcs, blocks))
  }

  function Prune(s: State): State {
    PruneBlocks(PruneRounds(s))
  }

  /** A proposal signed by the leader of its round. */
  function OwnProposal(cfg: Config, block: BlockInfo, qc: Qc, tc: Option<Tc>, payload: seq<nat>): Action {
    var me := cfg.validators.Leader(block.round);
    Broadcast(ProposalM(Proposal(cfg.epoch, block, qc, tc, me, payload,
                                 Signed(me, ProposalMsg(cfg.chain, cfg.epoch, block.round, block.hash, payload)))))
  }

  /** What the leader of the round just entered does: propose a nil block itself past the epoch's
      last height, otherwise ask the node for a block. */
  function Lead(s: State): seq<Action> {
    var qc := s.highQc;
    if qc.height + 1 > s.cfg.endHeight then
      [OwnProposal(s.cfg, BlockInfo(Nil(s.cfg.epoch, qc.block, s.round), qc.block, s.round, qc.height + 1),
                   qc, s.entryTc, [])]
    else [Propose(s.round, qc, s.entryTc)]
  }

  /** Forgets old rounds, sets the timer and leads the round if it is this node's turn. */
  function OpenRound(s: State): Result {
    var u := Prune(s);
    if u.cfg.Leads(u.round) && u.round !in u.proposed
    then Result(u.(proposed := u.proposed + {u.round}), [ScheduleTimeout(u.round)] + Lead(u))
    else Result(u, [ScheduleTimeout(u.round)])
  }

  function EnterRound(s: State, round: nat, tc: Option<Tc>): Result {
    if round <= s.round then Result(s, [])
    else
      var t := s.(round := round, entryTc := tc, requested := {});
      var r := if t.blockedCommit.Some? then TryCommit(t, t.blockedCommit.value) else Result(t, []);
      if r.s.finished then r else OpenRound(r.s).After(r.out)
  }

  function AddQc(s: State, qc: Qc): State {
    s.(qcs := if qc.block in s.qcs then s.qcs else s.qcs[qc.block := qc],
       highQc := if qc.round > s.highQc.round then qc else s.highQc)
  }

  /** The first certificate seen for a block is the one kept. */
  function ProcessQc(s: State, qc: Qc): Result {
    var r := TryCommit(AddQc(s, qc), qc);
    if qc.round >= r.s.round then EnterRound(r.s, qc.round + 1, None).After(r.out) else r
  }

  function ProcessTc(s: State, tc: Tc): Result {
    var r := ProcessQc(s, tc.highQc);
    if tc.round >= r.s.round then EnterRound(r.s, tc.round + 1, Some(tc)).After(r.out) else r
  }

  // ---- proposals and votes

  predicate SafeToVote(p: Proposal) {
    || p.qc.round + 1 == p.block.round
    || (p.tc.Some? && p.tc.value.round + 1 == p.block.round && p.qc.round >= p.tc.value.MaxReported())
  }

  /** The checks on a proposal that do not depend on the engine's progress. */
  predicate WellFormed(cfg: Config, p: Proposal) {
    var b := p.block;
    && p.epoch == cfg.epoch
    && p.proposer == cfg.validators.Leader(b.round)
    && b.round != 0
    && b.parent == p.qc.block
    && b.height == p.qc.height + 1
    && b.round > p.qc.round
    && (b.height > cfg.endHeight ==> b.hash == Nil(cfg.epoch, b.parent, b.round) && p.payload == [])
    && VerifySig(p.proposer, ProposalMsg(cfg.chain, cfg.epoch, b.round, b.hash, p.payload), p.sig)
    && p.qc.Verify(cfg.Scope())
    && (p.tc.Some? ==> p.tc.value.round + 1 == b.round && p.tc.value.Verify(cfg.Scope()))
  }

  function CastVotes(s: State, p: Proposal): seq<Action> {
    var r := p.block.round;
    var msg := VoteMsg(s.cfg.chain, s.cfg.epoch, r, p.block.hash);
    seq(|s.cfg.me|, i requires 0 <= i < |s.cfg.me| =>
      SendTo(s.cfg.validators.Leader(r + 1),
             VoteM(Vote(s.cfg.epoch, r, p.block.hash, p.block.height, s.cfg.me[i], Signed(s.cfg.me[i], msg)))))
  }

  /** The node's verdict on a proposed block: vote if the proposal is still current and safe. */
  function OnValidated(s: State, block: Hash, valid: bool): Result {
    if block !in s.pending then Result(s, [])
    else
      var p := s.pending[block];
      var t := s.(pending := s.pending - {block});
      if !valid || p.block.round != t.round || p.block.round <= t.lastVoted || !SafeToVote(p) || t.finished
         || t.cfg.me == []
      then Result(t, [])
      else Result(t.(lastVoted := p.block.round), CastVotes(t, p))
  }

  function Absorb(s: State, p: Proposal): Result {
    var b := p.block;
    var t := if b.hash !in s.blocks && b.height > s.committed.height
             then s.(blocks := s.blocks[b.hash := b]) else s;
    var r := ProcessQc(t, p.qc);
    if p.tc.Some? then ProcessTc(r.s, p.tc.value).After(r.out) else r
  }

  function OnProposal(s: State, p: Proposal): Result {
    if !WellFormed(s.cfg, p) then Result(s, [])
    else
      var r := Absorb(s, p);
      var b := p.block;
      if b.round != r.s.round || b.round <= r.s.lastVoted || r.s.cfg.me == [] || r.s.finished
         || !SafeToVote(p) || b.hash in r.s.pending
      then r
      else
        var t := r.s.(pending := r.s.pending[b.hash := p]);
        if b.height > s.cfg.endHeight then OnValidated(t, b.hash, true).After(r.out)
        else Result(t, r.out + [Validate(p)])
  }

  function OnProposed(s: State, block: BlockInfo, qc: Qc, tc: Option<Tc>, payload: seq<nat>): Result {
    if block.round != s.round || !s.cfg.Leads(block.round) || s.finished then Result(s, [])
    else Result(s, [OwnProposal(s.cfg, block, qc, tc, payload)])
  }

  /** Signers and aggregate of a completed vote set. */
  datatype Formed = Formed(signers: seq<nat>, agg: seq<Sig>)

  datatype Tally = Tally(votes: VoteSet, formed: Option<Formed>)

  function SigOf(vs: VoteSet, i: nat): Sig {
    if i in vs.sigs then vs.sigs[i] else if i in vs.pending then vs.pending[i] else Junk(0)
  }

  function SigsOf(vs: VoteSet, signers: seq<nat>): seq<Sig> {
    seq(|signers|, i requires 0 <= i < |signers| => SigOf(vs, signers[i]))
  }

  /** The unchecked votes that verify. */
  function VerifiedVotes(pending: map<nat, Sig>, msg: Msg): map<nat, Sig> {
    map i | i in pending && VerifySig(i, msg, pending[i]) :: pending[i]
  }

  /** Nothing is checked below a quorum. At a quorum one aggregate check decides; only its failure makes
      each vote pay for itself. */
  function Settle(v: ValidatorSet, msg: Msg, vs: VoteSet): Tally {
    var all := Sorted(vs.sigs.Keys + vs.pending.Keys, v.Len());
    if !v.IsQuorum(v.WeightOf(all)) then Tally(vs, None)
    else if vs.pending == map[] || VerifyAggregate(all, msg, SigsOf(vs, all)) then
      Tally(vs.(done := true), Some(Formed(all, SigsOf(vs, all))))
    else
      var checked := vs.(sigs := vs.sigs + VerifiedVotes(vs.pending, msg), pending := map[]);
      var signers := Sorted(checked.sigs.Keys, v.Len());
      if !v.IsQuorum(v.WeightOf(signers)) then Tally(checked, None)
      else Tally(checked.(done := true), Some(Formed(signers, SigsOf(checked, signers))))
  }

  /** Adds one vote to its set. Two different signatures of one signer are both checked at once. */
  function AddVote(v: ValidatorSet, msg: Msg, vs: VoteSet, height: nat, signer: nat, sig: Sig): Tally {
    if vs.done || vs.height != height || signer in vs.sigs then Tally(vs, None)
    else if signer !in vs.pending then Settle(v, msg, vs.(pending := vs.pending[signer := sig]))
    else if vs.pending[signer] == sig then Tally(vs, None)
    else
      var rest := vs.(pending := vs.pending - {signer});
      var first := vs.pending[signer];
      Settle(v, msg, if VerifySig(signer, msg, first) then rest.(sigs := rest.sigs[signer := first])
                     else if VerifySig(signer, msg, sig) then rest.(sigs := rest.sigs[signer := sig])
                     else rest)
  }

  function OnVote(s: State, v: Vote): Result {
    if !s.cfg.Leads(v.round + 1) || v.epoch != s.cfg.epoch || v.signer >= s.cfg.validators.Len()
       || v.round + 2 < s.round
    then Result(s, [])
    else
      var key := (v.round, v.block);
      var vs := if key in s.votes then s.votes[key] else VoteSet(v.height, map[], map[], false);
      var tally := AddVote(s.cfg.validators, VoteMsg(s.cfg.chain, s.cfg.epoch, v.round, v.block),
                           vs, v.height, v.signer, v.sig);
      var t := s.(votes := s.votes[key := tally.votes]);
      match tally.formed
      case None => Result(t, [])
      case Some(f) =>
        ProcessQc(t, Qc(s.cfg.epoch, v.round, v.block, tally.votes.height,
                        Bitmap.Encode(f.signers, s.cfg.validators.Len()), Some(f.agg)))
  }

  // ---- timeouts

  function SignTimeouts(s: State): seq<Action> {
    var msg := TimeoutMsg(s.cfg.chain, s.cfg.epoch, s.round, s.highQc.round);
    seq(|s.cfg.me|, i requires 0 <= i < |s.cfg.me| =>
      Broadcast(TimeoutM(Timeout(s.cfg.epoch, s.round, s.highQc, s.cfg.me[i], Signed(s.cfg.me[i], msg), s.entryTc))))
  }

  function LocalTimeout(s: State): Result {
    var t := s.(lastVoted := Max(s.lastVoted, s.round));
    if s.cfg.me == [] then Result(t, [ScheduleTimeout(s.round)])
    else
      var u := t.(timedOut := t.timedOut + {s.round});
      Result(u, [ScheduleTimeout(s.round)] + SignTimeouts(u))
  }

  function OnTimeout(s: State, round: nat): Result {
    if round != s.round || s.finished then Result(s, []) else LocalTimeout(s)
  }

  function Entries(reports: map<nat, Report>, signers: seq<nat>): seq<TcEntry> {
    if signers == [] then []
    else
      var i := signers[|signers| - 1];
      Entries(reports, signers[..|signers| - 1]) +
      (if i in reports then [TcEntry(i, reports[i].qcRound, reports[i].sig)] else [])
  }

  predicate AcceptsTimeout(s: State, t: Timeout) {
    && t.epoch == s.cfg.epoch
    && t.signer < s.cfg.validators.Len()
    && t.round + 2 >= s.round
    && t.highQc.round < t.round
    && VerifySig(t.signer, TimeoutMsg(s.cfg.chain, s.cfg.epoch, t.round, t.highQc.round), t.sig)
    && t.highQc.Verify(s.cfg.Scope())
  }

  /** Counts a timeout whose certificates have been processed. */
  function CountTimeout(s: State, t: Timeout): Result {
    var ts := if t.round in s.timeouts then s.timeouts[t.round] else TimeoutSet(map[], t.highQc, false);
    if ts.done then Result(s, [])
    else
      var high := if t.highQc.round > ts.highQc.round then t.highQc else ts.highQc;
      var entries := ts.entries[t.signer := Report(t.highQc.round, t.sig)];
      var signers := Sorted(entries.Keys, s.cfg.validators.Len());
      var weight := s.cfg.validators.WeightOf(signers);
      var quorum := s.cfg.validators.IsQuorum(weight);
      var u := s.(timeouts := s.timeouts[t.round := TimeoutSet(entries, high, quorum)]);
      if quorum then ProcessTc(u, Tc(s.cfg.epoch, t.round, high, Entries(entries, signers)))
      else if s.cfg.validators.IsOneThird(weight) && t.round == s.round && t.round !in s.timedOut then LocalTimeout(u)
      else Result(u, [])
  }

  function OnTimeoutMsg(s: State, t: Timeout): Result {
    if !AcceptsTimeout(s, t) then Result(s, [])
    else
      var useTc := && t.lastTc.Some?
                   && t.lastTc.value.round + 1 == t.round
                   && t.lastTc.value.round >= s.round
                   && t.lastTc.value.Verify(s.cfg.Scope());
      var r := if useTc then ProcessTc(s, t.lastTc.value) else Result(s, []);
      var q := ProcessQc(r.s, t.highQc);
      CountTimeout(q.s, t).After(r.out + q.out)
  }

  // ---- entry points

  function Start(s: State): Result {
    EnterRound(s, s.round + 1, None)
  }

  function OnBlock(s: State, block: BlockInfo): Result {
    var t := s.(requested := s.requested - {block.hash},
                blocks := if block.height > s.committed.height then s.blocks[block.hash := block] else s.blocks);
    if t.blockedCommit.Some? then TryCommit(t, t.blockedCommit.value) else Result(t, [])
  }

  function OnMessage(s: State, m: Message): Result {
    if m.Epoch() != s.cfg.epoch || s.finished then Result(s, [])
    else
      match m
      case ProposalM(p) => OnProposal(s, p)
      case VoteM(v) => OnVote(s, v)
      case TimeoutM(t) => OnTimeoutMsg(s, t)
  }

  /** An input to the engine. */
  datatype Event =
    | EvStart
    | EvMessage(m: Message)
    | EvValidated(block: Hash, valid: bool)
    | EvProposed(b: BlockInfo, qc: Qc, tc: Option<Tc>, payload: seq<nat>)
    | EvTimeout(round: nat)
    | EvBlock(b: BlockInfo)

  function Handle(s: State, ev: Event): Result {
    match ev
    case EvStart => Start(s)
    case EvMessage(m) => OnMessage(s, m)
    case EvValidated(h, valid) => OnValidated(s, h, valid)
    case EvProposed(b, qc, tc, payload) => OnProposed(s, b, qc, tc, payload)
    case EvTimeout(round) => OnTimeout(s, round)
    case EvBlock(b) => OnBlock(s, b)
  }
}
