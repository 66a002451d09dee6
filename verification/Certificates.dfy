/** Consensus messages and certificates (crates/consensus/src/types.rs).

    Cryptography is symbolic. A signature is the term `Signed(signer, message)`, so verification is
    equality, as in the source's `MockScheme`; an aggregate is the list of its components and
    verifies exactly when each does. A block hash is the term it commits to, so hashing is
    injective; `Bare` stands for any hash whose preimage nobody has shown. */
module Certificates {
  import opened Options
  import opened Committee
  import Bitmap


  /** Hash of an unknown preimage, of a real block's header, or of a nil block. A real header
      commits to its parent, its number and the round in its extra data. */
  datatype Hash =
    | Bare(id: nat)
    | Header(parent: Hash, number: nat, round: nat, body: nat)
    | Nil(epoch: nat, parent: Hash, round: nat)

  /** Number of known ancestors. */
  function Depth(h: Hash): nat {
    match h
    case Bare(_) => 0
    case Header(p, _, _, _) => Depth(p) + 1
    case Nil(_, p, _) => Depth(p) + 1
  }

  /** The signed byte strings, which carry a tag, the chain and the epoch. */
  datatype Msg =
    | VoteMsg(chain: nat, epoch: nat, round: nat, block: Hash)
    | TimeoutMsg(chain: nat, epoch: nat, round: nat, highQcRound: nat)
    | ProposalMsg(chain: nat, epoch: nat, round: nat, block: Hash, payload: seq<nat>)

  datatype Sig = Signed(signer: nat, msg: Msg) | Junk(id: nat)

  predicate VerifySig(signer: nat, msg: Msg, sig: Sig) {
    sig == Signed(signer, msg)
  }

  predicate VerifyAggregate(signers: seq<nat>, msg: Msg, agg: seq<Sig>) {
    |signers| == |agg| && forall i :: 0 <= i < |agg| ==> VerifySig(signers[i], msg, agg[i])
  }

  /** What certificates are checked against: one epoch's committee and starting block. */
  datatype Scope = Scope(chain: nat, epoch: nat, validators: ValidatorSet, anchor: Hash)

  /** The four facts about a block that voting depends on. */
  datatype BlockInfo = BlockInfo(hash: Hash, parent: Hash, round: nat, height: nat)

  /** Quorum certificate. The height is not signed. */
  datatype Qc = Qc(epoch: nat, round: nat, block: Hash, height: nat, signers: seq<bv8>, sig: Option<seq<Sig>>) {

    predicate IsAnchor() {
      round == 0 && sig.None?
    }

    predicate Verify(c: Scope) {
      epoch == c.epoch &&
      if IsAnchor() then block == c.anchor
      else
        var voters := Bitmap.Decode(signers);
        && sig.Some?
        && round > 0
        && c.validators.IsQuorum(c.validators.WeightOf(voters))
        && (forall i :: 0 <= i < |voters| ==> voters[i] < c.validators.Len())
        && VerifyAggregate(voters, VoteMsg(c.chain, epoch, round, block), sig.value)
    }
  }

  function AnchorQc(epoch: nat, block: Hash, height: nat): Qc {
    Qc(epoch, 0, block, height, [], None)
  }

  datatype TcEntry = TcEntry(signer: nat, qcRound: nat, sig: Sig)

  function EntrySigners(entries: seq<TcEntry>): seq<nat> {
    seq(|entries|, i requires 0 <= i < |entries| => entries[i].signer)
  }

  function MaxQcRound(entries: seq<TcEntry>): (m: nat)
    ensures forall i :: 0 <= i < |entries| ==> entries[i].qcRound <= m
    ensures entries != [] ==> exists i :: 0 <= i < |entries| && entries[i].qcRound == m
  {
    if entries == [] then 0
    else
      var last := entries[|entries| - 1].qcRound;
      var m := MaxQcRound(entries[..|entries| - 1]);
      if last > m then last else m
  }

  /** Timeout certificate. */
  datatype Tc = Tc(epoch: nat, round: nat, highQc: Qc, entries: seq<TcEntry>) {

    function MaxReported(): nat {
      MaxQcRound(entries)
    }

    /** `Sorted` of the signers is the source's sort and dedup. */
    predicate Verify(c: Scope) {
      var signers := Sorted(Elems(EntrySigners(entries)), Bitmap.INDEX_RANGE);
      && epoch == c.epoch
      && |signers| == |entries|
      && c.validators.IsQuorum(c.validators.WeightOf(signers))
      && (forall i :: 0 <= i < |signers| ==> signers[i] < c.validators.Len())
      && (forall i :: 0 <= i < |entries| ==>
            && entries[i].qcRound < round
            && VerifySig(entries[i].signer, TimeoutMsg(c.chain, c.epoch, round, entries[i].qcRound), entries[i].sig))
      && highQc.round == MaxReported()
      && highQc.Verify(c)
    }
  }

  datatype Proposal = Proposal(epoch: nat, block: BlockInfo, qc: Qc, tc: Option<Tc>, proposer: nat, payload: seq<nat>, sig: Sig)

  datatype Vote = Vote(epoch: nat, round: nat, block: Hash, height: nat, signer: nat, sig: Sig)

  datatype Timeout = Timeout(epoch: nat, round: nat, highQc: Qc, signer: nat, sig: Sig, lastTc: Option<Tc>)

  datatype Message = ProposalM(p: Proposal) | VoteM(v: Vote) | TimeoutM(t: Timeout) {
    function Epoch(): nat {
      match this
      case ProposalM(p) => p.epoch
      case VoteM(v) => v.epoch
      case TimeoutM(t) => t.epoch
    }
  }

  /** The last two blocks of the nil chain that starts at `start` and has these rounds. */
  function NilChain(epoch: nat, start: Hash, rounds: seq<nat>): (Hash, Hash)
  {
    if rounds == [] then (start, start)
    else
      var last := NilChain(epoch, start, rounds[..|rounds| - 1]).1;
      (last, Nil(epoch, last, rounds[|rounds| - 1]))
  }

  /** Two certificates and the links that tie them to a final block. `childHeader` is the decoded header
      of a child with transactions, `None` if there are no such bytes. */
  datatype CommitProof = CommitProof(
    qc: Qc,
    childQc: Qc,
    childHeader: Option<Hash>,
    nilRounds: seq<nat>,
    committed: Hash,
    committedHeight: nat)
  {
    predicate CertsVerify(c: Scope) {
      && childQc.round == qc.round + 1
      && childQc.height == qc.height + 1
      && childQc.epoch == qc.epoch
      && !qc.IsAnchor()
      && qc.Verify(c.(epoch := qc.epoch))
      && childQc.Verify(c.(epoch := qc.epoch))
    }

    /** The proven block, if the proof is accepted under the committee of epoch `qc.epoch`. */
    function Verify(c: Scope): Option<Hash> {
      if !CertsVerify(c) then None
      else if nilRounds == [] then
        if && childHeader.Some?
           && childHeader.value.Header?
           && childHeader.value == childQc.block
           && childHeader.value.parent == qc.block
           && childHeader.value.number == qc.height + 1
           && committed == qc.block
           && committedHeight == qc.height
        then Some(committed) else None
      else
        var (prev, last) := NilChain(qc.epoch, committed, nilRounds);
        if && last == childQc.block
           && prev == qc.block
           && childQc.round == nilRounds[|nilRounds| - 1]
           && childQc.height == committedHeight + |nilRounds|
        then Some(committed) else None
    }

    /** The source's verification, rebuilding the nil chain in a loop. */
    method Check(c: Scope) returns (proven: Option<Hash>)
      ensures proven == Verify(c)
    {
      if !CertsVerify(c) {
        return None;
      }
      if nilRounds == [] {
        match childHeader {
          case Some(Header(parent, number, _, _)) =>
            if childHeader.value == childQc.block && parent == qc.block && number == qc.height + 1
               && committed == qc.block && committedHeight == qc.height {
              return Some(committed);
            }
          case _ =>
        }
        return None;
      }
      var prev, cur := committed, committed;
      for k := 0 to |nilRounds|
        invariant (prev, cur) == NilChain(qc.epoch, committed, nilRounds[..k])
      {
        assert nilRounds[..k + 1][..k] == nilRounds[..k];
        prev, cur := cur, Nil(qc.epoch, cur, nilRounds[k]);
      }
      assert nilRounds[..|nilRounds|] == nilRounds;
      if cur == childQc.block && prev == qc.block && childQc.round == nilRounds[|nilRounds| - 1]
         && childQc.height == committedHeight + |nilRounds| {
        proven := Some(committed);
      } else {
        proven := None;
      }
    }
  }
}
