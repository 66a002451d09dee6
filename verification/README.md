# Boltchain: a verified model

A Dafny model of the parts of Boltchain that decide what is final and what is kept: the BFT engine of
the PoS committee, the fork choice among mined blocks, the state of pending blocks, the certificates
of audit panels, TPM evidence, state snapshots and the bookkeeping of uploads.

`dafny verify dfyconfig.toml` checks the whole project.

## How the project is organised

Code that updates fields in place is a class whose methods are proved to compute a function on values;
the theorems are about those functions, over whole runs where the source promises something for every
run.

| file | contents |
|---|---|
| `Committee.dfy`, `Bitmap.dfy`, `Certificates.dfy` | weights and quorums, signer bitmaps, QCs, TCs and finality proofs |
| `EngineSpec.dfy`, `Engine.dfy`, `EngineBehaviour.dfy` | the engine as functions on its state, as an object that refines them, and what each entry point of that object guarantees |
| `Protocol.dfy`, `EngineSafety.dfy`, `Network.dfy` | locking and agreement from voter discipline; every handler keeps that discipline; runs of engines with disks, crashes and Byzantine members |
| `FinalityProofs.dfy`, `TrueHeights.dfy`, `ForgedHeight.dfy` | finality proofs, which runs emit only acceptable ones, and a run that emits a rejected one |
| `CommitProgress.dfy`, `RoundProgress.dfy`, `Retention.dfy` | exactly what a certificate commits or asks for; rounds only move forward and their leaders propose; what is not forgotten |
| `OwnProposals.dfy`, `VoteProgress.dfy`, `TimeoutProgress.dfy` | whose proposals an engine sends; from a proposal to the votes of all members and the next certificate; from timeouts to a timeout certificate, and exactly when that verifies |
| `EpochEnd.dfy`, `EpochLives.dfy` | the ledger of one life of an engine; the end of the epoch over runs with restarts |
| `EpochSilence.dfy`, `EndingTimeout.dfy`, `LazyVotes.dfy` | what is signed at the epoch's end, a run in which something is, lazy against eager vote checking |
| `ForkSpec.dfy`, `ForkChoice.dfy`, `ForkProofs.dfy`, `ForkOrder.dfy`, `ForkExact.dfy`, `ForkValid.dfy`, `ForkRace.dfy` | fork choice as functions and as an object, its invariant, permanence of finality, exactly when a branch takes over, order independence of accepted and of valid blocks, a race |
| `OverlayState.dfy` | pending state over the committed store, against the flat tables |
| `Panels.dfy`, `CertificateChecks.dfy`, `CertificateCompleteness.dfy` | overlap of certificates; producer and verifier of panel certificates; exactly which results they give |
| `ByteCodec.dfy`, `MeasuredBoot.dfy`, `EventLogs.dfy`, `Registers.dfy`, `Quotes.dfy`, `Appraisal.dfy` | byte encodings, event logs and quotes; exactly which logs are accepted and what they say, exactly which bytes are a quote, exactly which quotes pass |
| `Credential.dfy`, `CredentialShape.dfy` | credential challenges, and what they look like block by block |
| `SnapshotChunks.dfy`, `SnapshotStore.dfy`, `Archives.dfy` | snapshot chunks and their collection, CAR archives and traversal |
| `Uploads.dfy`, `UploadSafety.dfy`, `UploadRaces.dfy` | the bookkeeping of uploads and deal indexes, when it is safe under every interleaving and crash, and runs in which it is not |
| `Options.dfy`, `Sequences.dfy` | the option type, reversal |

## Premises

- **Signatures** mean what the source's mock scheme says: an aggregate verifies exactly when every
  component does. An honest member's signature exists only after its engine released it; a Byzantine
  member signs anything as itself. Proposal signatures are not constrained at all.
- **Block identity**: a hash determines parent, round and height, and every block description an engine
  meets agrees with its hash. A real header binds the round, a nil hash binds epoch, parent and round.
  Mined blocks under the checkpoint committee do not bind the round and are outside this premise.
- **Byzantine weight** is at most one third, the committee has at most 65536 members, the anchor has
  round 0 and is not above the epoch's last height.
- **Delivered certificates** have signer bitmaps no two set positions of which denote the same signer.
  `Panels.TrustworthyExactly` shows that other bitmaps cannot be trusted unless they name every index.
- **Disk**: a vote or timeout leaves an engine, or is counted by that same engine, only while the disk
  holds its current safety state; a crash loses everything else. The source counts an own vote inside the
  handler (crates/consensus/src/engine.rs:661-662), so there the premise reaches further: a proposal that
  carries a QC with such a vote must wait for the write too.
- **Execution** of a block and the kind-specific header checks are deterministic predicates of the chain
  below it. A hash determines its block. A block runs with difficulty zero exactly at a height that the
  state below it gives to the PoS committee, and later blocks do not change a height's phase.
- **Content addressing**: a CID determines its block; an index root determines the blocks of its deal; the
  chunks a snapshot lists are no snapshot roots. Other parts of the node may store and delete any block.
- **Cryptography and codecs** of other crates (SHA-256, HMAC, AES, dag-cbor, varints, CIDs) are function
  parameters with their sizes or round-trip laws as hypotheses.

## Where the code and a plausible claim differ

- The doc comment of `import_mined` says that ties keep the current head. The code prefers the lower hash;
  the model and `ForkOrder.OrderIndependent` follow the code.
- Votes do not sign heights. While only true heights are delivered, every finality proof an engine emits is
  accepted (`FinalityProofs.EmittedAccepted`). One verified certificate with an altered height is enough
  for an emitted proof to be rejected (`ForgedHeight.ForgedHeightRejected`).
- An accepted certificate carries a quorum, whatever the committee, if and only if no two set positions of
  its bitmap denote the same signer or every index is named (`Panels.TrustworthyExactly`).
- A timeout certificate that an engine forms verifies if and only if one of its signers still reports the
  high QC it carries; a signer that replaces its report by an older one can prevent that
  (`TimeoutProgress.FormedTcExactly`, `TimeoutProgress.TopStays`).
- A finished engine signs nothing, but the very call that ends the epoch can still sign timeouts
  (`EpochSilence.EndingSigns` says exactly when, `EndingTimeout.EndingCallSigns` is such a call).
- That an epoch is over is not on disk. A restarted engine signs again (`EpochLives.RestartSigns`) and ends
  the epoch again: it names the same block (`EpochLives.OneEnd`), or panics if the block committed last was
  nil (`EpochLives.PanicExactly`, `EpochLives.RestartEndsAgain`).
- An account whose storage a changeset writes but which neither exists nor is listed becomes an empty
  account in the flat tables and no account in the overlay (`OverlayState.UncoveredAccount`,
  `OverlayExact`).
- A credential opens to its secret exactly up to 65499 bytes (`Credential.CredentialExact`).
- Replaying a log agrees with the TPM exactly when nothing was measured as `EV_NO_ACTION`
  (`MeasuredBoot.BootExact`).
- The upload bookkeeping is exact in every state of a run if and only if every step is harmless
  (`UploadSafety.AlwaysExact`). There are three kinds of harmful steps. A deal index is committed after one
  of its blocks was deleted (`UploadRaces.LateIndex`). Another part of the node, such as history pruning,
  deletes a block that is tracked, listed or paid for (`UploadRaces.PrunedIndex`). The node restarts from
  a state file that the store has outrun (`UploadRaces.StaleRestart`).
- Replaying an event log panics, rather than fails, exactly when a SHA-256 digest is cut off by the log's end
  (`EventLogs.PanicExactly`).

## Model

| member | source | states |
|---|---|---|
| Committee.QuorumIntersection | crates/consensus/src/types.rs:72-84 | two sets of more than two thirds of the weight share more than a third |
| Committee.HonestInBoth | crates/consensus/src/types.rs:77-84 | with at most a third Byzantine, any two quorums share an honest member |
| Committee.ListWeight | crates/consensus/src/types.rs:72-74 | the summed weight of an ascending signer list is the weight of its set |
| Committee.LeadersTurn | crates/consensus/src/types.rs:86-93 | in every stretch of as many rounds as there are seats, wherever it starts, each seat leads exactly once, so each member as often as it has weight |
| Bitmap.EncodeLoop | crates/consensus/src/types.rs:101-109 | the encoded bitmap has exactly the bits of the in-range signers |
| Bitmap.DecodeLoop | crates/consensus/src/types.rs:112-122 | decoding lists exactly the set positions, ascending, for at most 8192 bytes; beyond that positions wrap to 16 bits |
| Bitmap.RoundTrip | crates/consensus/src/types.rs:101-122 | decode after encode is the sorted list of distinct in-range signers |
| Bitmap.EncodeDecoded | crates/consensus/src/types.rs:101-122 | encode after decode is the identity on bitmaps of at most 8192 bytes |
| Bitmap.DistinctExactly | crates/consensus/src/types.rs:112-122 | a signer is never listed twice if and only if no two set positions alias; at most 8192 bytes never alias |
| Bitmap.AliasedBitmap | crates/consensus/src/types.rs:112-122 | a bitmap of 8193 bytes that counts one signer twice |
| Panels.QcOverlap | crates/consensus/src/types.rs:222-246 | any two accepted certificates without aliasing positions share more than a third of the weight |
| Panels.QcQuorum | crates/consensus/src/types.rs:236-245 | the signers of an accepted certificate without aliasing positions are a quorum |
| Panels.ProofQuorums | crates/consensus/src/types.rs:420-460 | an accepted finality proof is two certificates of consecutive rounds, each signed by a quorum; the anchor proves nothing |
| Panels.SkewedCertificate | crates/consensus/src/types.rs:48-54 | every bitmap that names one index twice and another never has an accepted certificate without a quorum, under a committee that `from_seats` builds |
| Panels.TrustworthyExactly | crates/consensus/src/types.rs:222-246 | for every bitmap: all certificates with it, accepted under any committee of at most 65536 members, carry a quorum if and only if no two set positions denote the same signer or every index is named |
| Certificates.CommitProof.Check | crates/consensus/src/types.rs:420-460 | the loop over nil rounds computes the proof's verdict, both for a real child and for a nil chain |
| ConsensusEngine.Engine.constructor | crates/consensus/src/engine.rs:190-217 | a fresh engine is in the initial state |
| ConsensusEngine.Engine.Resume | crates/consensus/src/engine.rs:220-242 | a restarted engine takes exactly the persisted safety state |
| ConsensusEngine.Engine.Save | crates/consensus/src/engine.rs:256-278 | a restart from what is saved keeps the last round signed in, the high QC, the committed block and every block above it, and is as safe as the engine was, whatever it had signed |
| ConsensusEngine.Engine.EnterRound | crates/consensus/src/engine.rs:354-385 | entering a round refines the specification, pruning and proposing included |
| ConsensusEngine.Engine.ProcessQc | crates/consensus/src/engine.rs:402-412 | processing a certificate refines the specification |
| ConsensusEngine.Engine.ProcessTc | crates/consensus/src/engine.rs:525-530 | processing a timeout certificate refines the specification |
| ConsensusEngine.Engine.TryCommit | crates/consensus/src/engine.rs:415-469 | the two-chain commit loop refines the specification, which commits exactly what `CommitProgress.CommitsChain` and `CommitsOnly` say |
| ConsensusEngine.Engine.ProofFor | crates/consensus/src/engine.rs:472-501 | the walk over nil blocks builds the specified proof |
| ConsensusEngine.Engine.Start | crates/consensus/src/engine.rs:347-352 | what `OnBlock` promises, for starting the first round |
| ConsensusEngine.Engine.OnBlock | crates/consensus/src/engine.rs:513-523 | after a fetched block the engine stays safe, signs by the rules, commits only final blocks, extends its ledger without a gap and keeps heights true; if finished it does nothing |
| ConsensusEngine.Engine.OnProposal | crates/consensus/src/engine.rs:566-623 | handling a proposal refines the specification; who then votes is `VoteProgress.TcRoundVoted` and `QcRoundVoted` |
| ConsensusEngine.Engine.OnValidated | crates/consensus/src/engine.rs:637-670 | what `OnBlock` promises, for voting after validation; `VoteProgress.VotesExactly` says exactly when it votes and to whom |
| ConsensusEngine.Engine.OnProposed | crates/consensus/src/engine.rs:673-701 | the engine does not change and signs no vote or timeout; at most one proposal goes out, and every member accepts it if and only if the node supplied a child of a verified certificate, nil exactly past the epoch's end |
| ConsensusEngine.Engine.Settle | crates/consensus/src/engine.rs:743-769 | settling a vote set keeps exactly the votes that verify and forms a certificate only with enough of them |
| ConsensusEngine.Engine.OnVote | crates/consensus/src/engine.rs:703-781 | counting a vote refines the specification |
| ConsensusEngine.Engine.OnTimeout | crates/consensus/src/engine.rs:784-819 | what `OnBlock` promises, for giving up on a round |
| ConsensusEngine.Engine.OnTimeoutMsg | crates/consensus/src/engine.rs:821-873 | counting timeouts refines the specification; what is counted and formed is `TimeoutProgress.QuorumFormsTc` |
| ConsensusEngine.Engine.OnMessage | crates/consensus/src/engine.rs:533-544 | what `OnBlock` promises, for every message |
| EngineSafety.HandleKeeps | crates/consensus/src/engine.rs:533-873 | every handler keeps the engine sound and signs only what the vote and timeout rules allow; everything it commits is final |
| EngineBehaviour.HandleBehaves | crates/consensus/src/engine.rs:533-873 | what every handler guarantees together: safety, the ledger, true heights, silence after the end |
| EngineSafety.FormedVerifies | crates/consensus/src/engine.rs:743-780 | a certificate an engine forms passes verification and is backed by released votes |
| EngineSafety.ProofForLinks | crates/consensus/src/engine.rs:472-501 | every proof an engine builds has the right links and proves a final block |
| EngineSafety.VerifiedQc | crates/consensus/src/types.rs:222-246 | a verified certificate is backed by votes of a quorum |
| EngineSafety.VerifiedTc | crates/consensus/src/types.rs:271-292 | a verified timeout certificate is backed by timeouts of a quorum that report at most its maximum |
| EngineSafety.ResumeSound | crates/consensus/src/engine.rs:220-242 | a restart is sound and remembers the last round signed in and the high QC |
| EngineBehaviour.RestartSurvives | crates/consensus/src/engine.rs:220-278 | exactly what a restart from disk keeps of an engine, and that nothing else is kept |
| EngineBehaviour.RestartSafe | crates/consensus/src/engine.rs:220-278 | save then restart is as safe as the engine it replaces |
| EngineBehaviour.OwnProposalAccepted | crates/consensus/src/engine.rs:566-701 | every member accepts an own proposal if and only if its block, certificate and entry certificate fit together |
| OwnProposals.ProposesAsMember | crates/consensus/src/engine.rs:354-701 | every proposal an engine sends, in whatever call, is for a round one of its members leads and signed by that member |
| CommitProgress.CommitsChain | crates/consensus/src/engine.rs:415-469 | a certificate in the round after a known chain's last block, whose own certificate is stored, commits exactly the chain's real blocks, whatever the chain's length, moves the engine to that block and ends the epoch exactly past its last height |
| CommitProgress.CommitsOnly | crates/consensus/src/engine.rs:415-469 | conversely, whatever moves the committed block is such a certificate |
| CommitProgress.AsksForMissing | crates/consensus/src/engine.rs:432-511 | if the chain hangs off a missing block, exactly that hash is asked for, once, and the certificate waits |
| CommitProgress.AsksForBlock | crates/consensus/src/engine.rs:415-511 | the same when the certified block or its parent is missing |
| CommitProgress.FetchedCommits | crates/consensus/src/engine.rs:513-523 | the fetched block that completes the chain of the waiting certificate commits it |
| RoundProgress.EnterGrows | crates/consensus/src/engine.rs:354-385 | entering a round sets the timer, and its leader proposes on the high QC with the certificate it entered by |
| RoundProgress.QcGrows | crates/consensus/src/engine.rs:402-412 | a certificate moves the engine exactly past its round, if it was not, and becomes the high QC exactly if it is newer |
| RoundProgress.TcGrows | crates/consensus/src/engine.rs:525-530 | so does a timeout certificate, and the next round is entered with it in hand |
| RoundProgress.HandleGrows | crates/consensus/src/engine.rs:347-873 | no handler takes back the round, the high QC, the last round signed in or the end of the epoch |
| RoundProgress.QcCommits | crates/consensus/src/engine.rs:402-469 | processing a certificate that decides a chain commits that chain before anything else |
| Retention.TcRetains | crates/consensus/src/engine.rs:387-399 | blocks at or above the committed height, their certificates and the sets of recent rounds survive every certificate processed |
| Retention.AbsorbStores | crates/consensus/src/engine.rs:593-604 | the block of a proposal joins the tree and its certificate is stored with the parent, unless they are already below what is committed |
| VoteProgress.MayVoteExactly | crates/consensus/src/engine.rs:625-634 | the vote rule in terms of who reported what: the parent was certified in the round before, or nobody behind the timeout certificate of that round reported a newer one |
| VoteProgress.VotesExactly | crates/consensus/src/engine.rs:637-670 | an engine votes if and only if it waits for the block, is in its round, has not signed in it, is not finished and the rule allows it; then with every member it has, to the leader of the next round |
| VoteProgress.TcRoundVoted | crates/consensus/src/engine.rs:525-670 | across engines: the leader that enters a round by a verified timeout certificate opens it, and any fitting block it proposes gets the votes of every member in the round that has not signed in it |
| VoteProgress.QcRoundVoted | crates/consensus/src/engine.rs:402-670 | the same for a round entered by a certificate |
| VoteProgress.AddExactly | crates/consensus/src/engine.rs:743-769 | a genuine vote forms the certificate if and only if the genuine votes are then a quorum; otherwise the set holds it |
| VoteProgress.VotesStayKept | crates/consensus/src/engine.rs:533-873 | every handler keeps the vote sets such that this is true of them |
| VoteProgress.VoteHeard | crates/consensus/src/engine.rs:703-781 | the leader of the next round then holds the vote, or has a certificate of the round and has left it |
| VoteProgress.QuorumMovesOn | crates/consensus/src/engine.rs:703-781 | once the votes of a quorum have reached it, in any order, that leader has the certificate and has left the round |
| TimeoutProgress.TimeoutHeard | crates/consensus/src/engine.rs:784-845 | a timer that runs out makes every member of the engine send a timeout, accepted by every engine at most two rounds ahead if and only if its high QC is older than the round |
| TimeoutProgress.EntersEntitled | crates/consensus/src/engine.rs:354-385 | an engine that enters a round by a verified certificate can show that certificate |
| TimeoutProgress.LaggardCatchesUp | crates/consensus/src/engine.rs:793-850 | whoever handles a timeout of such an engine is then at least in its round, or finished |
| TimeoutProgress.FormedTcExactly | crates/consensus/src/engine.rs:846-864 | a certificate formed from a quorum of good reports verifies if and only if one of them still reports its high QC's round |
| TimeoutProgress.TopStays | crates/consensus/src/engine.rs:846-857 | that holds as long as no signer replaces its report by an older one |
| TimeoutProgress.QuorumFormsTc | crates/consensus/src/engine.rs:846-864 | the timeout that completes a quorum moves the engine to the next round with a certificate of exactly the reports counted and the newest high QC; it opens the round if it leads it |
| TimeoutProgress.TimeoutsStayOk | crates/consensus/src/engine.rs:533-873 | every handler keeps the timeout sets good: signed reports, none newer than the set's verified high QC |
| TimeoutProgress.QuorumLeaves | crates/consensus/src/engine.rs:821-873 | once timeouts of a quorum have reached it, in any order and with any certificates attached, an engine has left the round or the epoch |
| Protocol.OnePerRound | crates/consensus/src/engine.rs:637-670 | at most one block of a round is ever certified |
| Protocol.TimeoutRemembers | crates/consensus/src/engine.rs:625-634 | a timeout certificate of a later round reports at least the parent round of any block certified before |
| Protocol.Locking | crates/consensus/src/engine.rs:625-634 | once P and its child are certified in consecutive rounds, every certified block of that round or later descends from P, through both vote rules |
| Protocol.FinalAgree | crates/consensus/src/engine.rs:415-469 | final blocks lie on one chain, at most one of each height |
| Network.RunInv | crates/consensus/src/engine.rs:188-873 | in every state of every run all engines and disks are sound and all signatures obey the rules |
| Network.LockingAlways | crates/consensus/src/engine.rs:625-634 | locking in every state of every run |
| Network.Agreement | crates/consensus/src/engine.rs:415-469 | in every run with at most a third Byzantine weight, any message order and any restarts, all committed blocks of all engines lie on one chain |
| Network.VoterDiscipline | crates/consensus/src/engine.rs:637-670 | in every state of every run each honest member votes for one block per round, follows the vote rule, and its timeouts report at least the parent round of every block it voted for |
| Network.VotesMoveOn | crates/consensus/src/engine.rs:793-819 | after a released vote or timeout, every later vote of that engine is for a higher round, across restarts |
| FinalityProofs.AcceptedFinal | crates/consensus/src/types.rs:420-460 | the block of an accepted proof is final |
| FinalityProofs.ProofAgrees | crates/consensus/src/types.rs:420-460 | an accepted proof conflicts with no engine's commit in any run |
| FinalityProofs.EmittedProofs | crates/consensus/src/engine.rs:472-501 | every proof emitted in any run has correct links, and an epoch's end names a final block |
| FinalityProofs.NilProofAccepted | crates/consensus/src/types.rs:420-460 | a well-linked nil-chain proof is accepted for its block if and only if both certificates state true heights |
| FinalityProofs.RealProofAccepted | crates/consensus/src/types.rs:420-460 | a well-linked proof with its child's header is accepted if and only if the child is a real block and the heights are true |
| FinalityProofs.EmittedAccepted | crates/consensus/src/types.rs:420-460 | in every run that delivers only true heights, every emitted nil-chain proof verifies to the committed block at its height, and every other proof verifies with its child's header if and only if the child is a real block |
| TrueHeights.HandleTrue | crates/consensus/src/engine.rs:533-873 | if an input states only true heights, every certificate an engine keeps or sends still does, those it forms included |
| ForgedHeight.EventsAdmissible | crates/consensus/src/engine.rs:821-845 | the inputs of the failing run are what a network with one faulty member of four can deliver |
| ForgedHeight.HonestDisciplined | crates/consensus/src/engine.rs:637-670 | in the failing run the honest members voted by the rules |
| ForgedHeight.ForgedHeightRejected | crates/consensus/src/engine.rs:402-501 | the failing run: a verified certificate with another height is stored first, and the nil-chain proof the engine emits for its final block is rejected; with the true height it would be accepted |
| EpochEnd.FreshLedger | crates/consensus/src/engine.rs:434-469 | from a fresh start the commits concatenate to one gap-free parent-linked chain from the anchor without nil blocks, the epoch's end is announced at most once and for exactly its last block, and the panic never happens |
| EpochEnd.LifeExact | crates/consensus/src/engine.rs:415-501 | every life of an engine, fresh or restarted: its commits continue the block it starts from without a gap and without nil blocks, the end is announced at most once and for the block of the last height, and the panic happens exactly when a life that starts at a nil block commits |
| EpochLives.RestartLedger | crates/consensus/src/engine.rs:220-278 | what a restarted engine commits continues what is on disk, in the same sense |
| EpochLives.PanicExactly | crates/consensus/src/engine.rs:472-501 | in every state of every run, for every input: the call panics if and only if it ends the epoch of an engine whose last committed block is nil, and then that engine had announced the end in an earlier life; every other call that ends the epoch announces it |
| EpochLives.OneEnd | crates/consensus/src/engine.rs:460-468 | in every run all announcements of the epoch's end, by any engines and in any lives, name the same block, of the last height |
| EpochLives.RestartEndsAgain | crates/consensus/src/engine.rs:220-278 | an engine that ended the epoch and restarts ends it again once it learns the next nil block and its certificate: the same announcement if the last real block was committed last, the panic if a nil block was |
| EpochLives.RestartSigns | crates/consensus/src/engine.rs:220-278 | every restarted engine signs when its timer runs out, also after the epoch's end |
| EpochSilence.FinishedSilent | crates/consensus/src/engine.rs:533-537 | after the epoch's end no input makes the engine do anything |
| EpochSilence.EndingSigns | crates/consensus/src/engine.rs:821-873 | the call that ends the epoch signs if and only if it handles a timeout message that still tips the engine into giving up after its certificates ended the epoch; then it signs timeouts, no votes |
| EndingTimeout.InputsAdmissible | crates/consensus/src/engine.rs:821-845 | the inputs of that run are what a network with one faulty member of four can deliver |
| EndingTimeout.InputsDisciplined | crates/consensus/src/engine.rs:637-670 | in that run the honest members followed the rules |
| EndingTimeout.EndingCallSigns | crates/consensus/src/engine.rs:866-872 | a run from a fresh start whose last call ends the epoch and signs a timeout |
| LazyVotes.SettleExact | crates/consensus/src/engine.rs:743-769 | settling a vote set keeps exactly the valid votes |
| LazyVotes.LazyRefinesEager | crates/consensus/src/engine.rs:703-781 | whatever forgeries and duplicates arrive, the certificate forms at the same arrival with the same signers as when each vote is checked on arrival |
| ForkChoice.Node.constructor | crates/chain/src/pow.rs:50-62 | a node starts with the genesis block alone |
| ForkChoice.Node.ImportFinal | crates/chain/src/lib.rs:1022-1112 | extending the head adds the block with its total difficulty and drops side blocks too old to win |
| ForkChoice.Node.UnwindTo | crates/chain/src/pow.rs:273-310 | undoing returns the undone blocks oldest first and leaves the prefix |
| ForkChoice.Node.CollectBranch | crates/chain/src/pow.rs:196-213 | the side branch from its fork point, oldest first |
| ForkChoice.Node.HoldsPos | crates/chain/src/pow.rs:227-237 | whether a block above the fork point came from the PoS committee |
| ForkChoice.Node.ReorgTo | crates/chain/src/pow.rs:196-270 | the reorganisation with its rollback refines the specification |
| ForkChoice.Node.ImportMined | crates/chain/src/pow.rs:132-193 | importing a mined block refines the specification |
| ForkChoice.Node.Finalize | crates/chain/src/pow.rs:321-344 | recording a checkpoint refines the specification, which succeeds exactly when `ForkExact.CheckpointExactly` says |
| ForkProofs.ReorgOk | crates/chain/src/pow.rs:196-270 | a refused or failed reorganisation leaves canonical chain, head and finalized block as they were; a done one replaces at most 128 blocks, none final or from the PoS committee |
| ForkProofs.RestoreExact | crates/chain/src/pow.rs:240-261 | importing the undone blocks again always succeeds and gives the old chain back |
| ForkProofs.ImportOk | crates/chain/src/pow.rs:132-193 | an import keeps the chain valid and every stored total difficulty the sum of its branch's difficulties; a rejected one changes no canonical block |
| ForkProofs.PhasesAgree | crates/chain/src/history.rs:29-37 | in a valid chain every height of the PoS committee holds a PoS block, derived from what execution guarantees |
| ForkProofs.ImportKeepsFinal | crates/chain/src/history.rs:29-37 | no import replaces a block for which `is_final` held just before |
| ForkProofs.FinalizeKeepsFinal | crates/chain/src/pow.rs:321-344 | no checkpoint replaces a final block, the finalized block is canonical, and a failed checkpoint changes no canonical block |
| ForkExact.ReorgExactly | crates/chain/src/pow.rs:196-270 | a reorganisation happens if and only if the branch is known down to the chain, replaces no finalized and no PoS block and at most 128, and executes; the chain then ends with exactly that branch |
| ForkExact.ReplaceableExactly | crates/chain/src/history.rs:29-37 | a branch that forks just below a block and executes may replace it if and only if `is_final` does not hold of it and no later block is of the PoS committee |
| ForkExact.CheckpointExactly | crates/chain/src/pow.rs:321-344 | a checkpoint above the finalized block, for a known block of its height, is recorded if and only if the block is canonical or its branch may replace what is above its fork, whatever the work; the chain is then exactly that branch |
| ForkExact.ImportRefuses | crates/chain/src/pow.rs:132-166 | a known block, one too early, an orphan or a fork below the checkpoint changes nothing |
| ForkExact.ImportExactly | crates/chain/src/pow.rs:132-193 | every other block extends the head, waits on the side or takes over, each under its exact condition and with its exact result |
| ForkExact.SideKept | crates/chain/src/lib.rs:1053-1054 | extending the chain keeps exactly the side blocks less than 128 below the new head, and a checkpoint exactly those above it |
| ForkOrder.ReachableOk | crates/chain/src/pow.rs:214-238 | in every reachable state the chain is valid and the finalized block canonical |
| ForkOrder.FinalizedForever | crates/chain/src/pow.rs:321-344 | the chain up to a finalized block never changes again |
| ForkOrder.FinalNeverReplaced | crates/chain/src/history.rs:29-37 | in every run no import and no checkpoint replaces a block for which `is_final` held just before |
| ForkOrder.PosForever | crates/chain/src/pow.rs:227-237 | a canonical PoS block is never undone |
| ForkOrder.ImportBest | crates/chain/src/pow.rs:176-192 | after an accepted import the head has the most work of all known blocks, the lowest hash among equals |
| ForkOrder.OrderIndependent | crates/chain/src/pow.rs:176-192 | two nodes that accept the same mined blocks in any orders, none pruned, end with the same chain: greatest total difficulty, then lowest hash |
| ForkValid.AllHeld | crates/chain/src/pow.rs:132-193 | valid mined blocks of any heights, any two on one branch or forking at most 128 below each other, parents first and none from the future, are all accepted and all kept, whatever reorganisations happen |
| ForkValid.ForkClose | crates/chain/src/pow.rs:214-226 | among such blocks no reorganisation is deeper than 128 |
| ForkValid.ValidOrderIndependent | crates/chain/src/pow.rs:132-193 | hence two nodes that receive the same such blocks in any two orders end with the same chain, the heaviest, then the lowest hash |
| ForkRace.RaceMeetsOrder | crates/chain/src/pow.rs:176-192 | two blocks of equal work in both orders: accepted, one order reorganises, both end at the lower hash |
| OverlayState.Changes.constructor | crates/chain/src/overlay.rs:9-16 | no changes at first |
| OverlayState.Changes.Push | crates/chain/src/overlay.rs:20-47 | the loops refine the specified push |
| OverlayState.PushExact | crates/chain/src/overlay.rs:20-47 | a push keeps every read equal to the flat tables if and only if the changeset covers the accounts it writes storage of |
| OverlayState.OverlayExact | crates/chain/src/overlay.rs:20-91 | after any pending blocks all account, code, storage and block-hash reads equal those after applying the blocks in order, under exactly that condition |
| OverlayState.OverlayAgrees | crates/chain/src/overlay.rs:62-91 | storage, code and block-hash reads agree unconditionally: wipes, destruction and re-creation included |
| OverlayState.UncoveredAccount | crates/store/src/state.rs:123-138 | the failing case: a storage-only change of an account that does not exist |
| Panels.AggregateVerifies | crates/consensus/src/audit.rs:93-118 | what is aggregated from valid votes of a panel verifies, with exactly those signers |
| Panels.AggregateExactly | crates/consensus/src/audit.rs:93-118 | votes aggregate if and only if there are some, all about one claim, of distinct members, more than two thirds of the panel |
| Panels.OppositeCerts | crates/consensus/src/audit.rs:128-142 | two accepted panel certificates need more than a third of the panel to have signed both |
| CertificateChecks.SiftLoop | crates/chain/src/lib.rs:388-475 | the first loop, with its panel caches, computes the specified attestations, verdicts and remaining certificates, which `CertificateCompleteness.ResultsComplete` describes |
| CertificateChecks.CheckLoop | crates/chain/src/lib.rs:355-523 | the whole check computes the specified result: for a verifier exactly `CertificateCompleteness.StrictExactly` |
| CertificateChecks.ProducerVerifierAgree | crates/chain/src/lib.rs:355-523 | the certificates a producer keeps pass the strict verifier on the same state with identical results in the same order |
| CertificateChecks.StrictIsProducer | crates/chain/src/lib.rs:355-523 | a list the verifier accepts is kept in full, and a producer gives the same result |
| CertificateChecks.ResultsCertified | crates/chain/src/lib.rs:355-523 | at most one result per task, job and request, each certified by the right panel and about something still open |
| CertificateCompleteness.FirstExactly | crates/chain/src/lib.rs:388-475 | what the first good certificate for a subject is |
| CertificateCompleteness.ResultsComplete | crates/chain/src/lib.rs:355-523 | whoever checks, the results are exactly the answers of the first good certificate in the list for each job, request and task |
| CertificateCompleteness.MachinesNamed | crates/chain/src/lib.rs:388-475 | every attested machine is named by 32 bytes |
| CertificateCompleteness.ProducerSucceeds | crates/chain/src/lib.rs:355-523 | a producer gets a result from every list, if the state answers its queries |
| CertificateCompleteness.StrictExactly | crates/chain/src/lib.rs:355-523 | a verifier accepts a list if and only if each of its certificates is good and the first good one for its subject |
| MeasuredBoot.EncodeLoop | crates/attest/src/tpm.rs:402-426 | the encoder writes the specified log |
| MeasuredBoot.ReplayLoop | crates/attest/src/tpm.rs:336-399 | the parser's loops compute the specified replay |
| MeasuredBoot.LogRoundTrip | crates/attest/src/tpm.rs:336-426 | replaying an encoded log gives its reference reading; it is refused if and only if an event names a register that does not exist |
| EventLogs.AcceptedExactly | crates/attest/src/tpm.rs:336-399 | a log is accepted if and only if its header is well formed and its events are a sequence of entries that fit its digest sizes, name existing registers and carry a SHA-256 digest where they measure; they are read in order |
| EventLogs.PanicExactly | crates/attest/src/tpm.rs:369-379 | the parser panics if and only if, after a well-formed header and such entries, the end of the log cuts off a SHA-256 digest |
| EventLogs.CutLogPanics | crates/attest/src/tpm.rs:374-376 | such logs exist: the TPM's own header and one event with a digest cut anywhere |
| Registers.HeaderExactly | crates/attest/src/tpm.rs:347-361 | a header is accepted if and only if it is a header event with the signature that lists SHA-256 with 32 bytes; the sizes are those listed last |
| Registers.RegisterExactly | crates/attest/src/tpm.rs:365-399 | after an accepted log each register holds the fold, in order, of the digests measured into it |
| Registers.LocalityExactly | crates/attest/src/tpm.rs:384-390 | the last entry that states the startup locality starts register 0 again, from zeros and that byte |
| Registers.EventsExactly | crates/attest/src/tpm.rs:391-399 | the events reported are the entries that measure, in order |
| MeasuredBoot.BootExact | crates/attest/src/tpm_sim.rs:182-190 | replaying the TPM's log gives the events and registers it holds if and only if nothing was measured as `EV_NO_ACTION` |
| MeasuredBoot.QuoteRoundTrip | crates/attest/src/tpm.rs:204-270 | a quote parses to what was encoded, up to mask bits above 24 |
| Quotes.ParsedExactly | crates/attest/src/tpm.rs:204-251 | bytes parse as a quote if and only if they are one, with any number of selections, nothing selected outside the SHA-256 bank and nothing after it; and then to its fields |
| Quotes.MaskExactly | crates/attest/src/tpm.rs:222-237 | a register is quoted if and only if some SHA-256 selection has its bit |
| MeasuredBoot.EvidenceAppraises | crates/attest/src/tpm.rs:571-575 | for every sequence of extends the quote's digest matches the replayed log |
| Appraisal.SelectedExactly | crates/attest/src/tpm.rs:571-575 | what is hashed for a selection is equal for two banks if and only if they agree in every selected register |
| Appraisal.AppraisesExactly | crates/attest/src/tpm.rs:571-575 | a quote passes against a log if and only if the log replays and gives every selected register the value it has in the TPM, unless the hash collides on the two selections |
| MeasuredBoot.SoftTpm.constructor | crates/attest/src/tpm_sim.rs:163-163 | registers start at zero |
| MeasuredBoot.SoftTpm.Extend | crates/attest/src/tpm_sim.rs:182-190 | measuring extends the register and logs the event |
| MeasuredBoot.SoftTpm.Evidence | crates/attest/src/tpm_sim.rs:205-236 | the quote and log a TPM hands out pass appraisal |
| ByteCodec.Reader.Take | crates/attest/src/tpm.rs:78-82 | the cursor returns the next bytes or fails without moving |
| ByteCodec.Reader.Framed | crates/attest/src/tpm.rs:95-98 | reading a length-prefixed structure |
| ByteCodec.FrameFront | crates/attest/src/tpm.rs:95-107 | a framed structure reads back, cut to its length modulo 65536 |
| Credential.KdfLoop | crates/attest/src/tpm.rs:595-612 | key derivation has the requested length |
| Credential.CfbLoop | crates/attest/src/tpm.rs:616-629 | the chunk loop computes cipher feedback |
| Credential.CfbInverse | crates/attest/src/tpm.rs:616-629 | decryption undoes encryption for every length, a partial last block included |
| Credential.MakeCredential | crates/attest/src/tpm.rs:642-669 | sealing builds the specified blob |
| Credential.OpenCredential | crates/attest/src/tpm.rs:673-687 | opening checks the integrity and decrypts as specified |
| Credential.CredentialExact | crates/attest/src/tpm.rs:642-687 | opening with the same seed and name recovers the secret if and only if it has at most 65499 bytes |
| CredentialShape.CfbBlock | crates/attest/src/tpm.rs:616-629 | each ciphertext block is its plaintext block xored with the cipher of the ciphertext block before it |
| CredentialShape.KeysAre | crates/attest/src/tpm.rs:595-669 | which bytes the two keys are derived from: the cipher key is bound to the name, the tag key is not |
| CredentialShape.OtherNameFails | crates/attest/src/tpm.rs:673-687 | opened with another seed or for another name a blob gives nothing unless the two tags agree |
| SnapshotChunks.Builder.constructor | crates/ipld/src/history.rs:146-155 | nothing is pending at first |
| SnapshotChunks.Builder.Add | crates/ipld/src/history.rs:162-195 | the slot loop with its flushes refines the specification |
| SnapshotChunks.Builder.AddOneCode | crates/ipld/src/history.rs:198-206 | adding a code refines the specification |
| SnapshotChunks.Builder.Finish | crates/ipld/src/history.rs:208-232 | the last chunks are handed out |
| SnapshotChunks.ChunksExact | crates/ipld/src/history.rs:160-232 | concatenating chunks and merging continuations gives back every account and slot once and in order; each chunk's estimated size is at most the target plus one account overhead, and only the last chunk has room for another slot |
| SnapshotChunks.CodesExact | crates/ipld/src/history.rs:198-226 | code chunks hold every code once and in order, within the target unless a single code is larger, and none is cut while the next code still fits |
| SnapshotStore.TakeSnapshot | crates/chain/src/history.rs:66-148 | the whole operation, its guards included, refines the specification |
| SnapshotStore.EndsEpochExactly | crates/chain/src/history.rs:69-71 | a head passes the guard if and only if it is the last block of some epoch |
| SnapshotStore.KeptChunk | crates/chain/src/history.rs:124-148 | a chunk a kept snapshot lists survives if and only if it is not itself a dropped root |
| SnapshotStore.TakeOk | crates/chain/src/history.rs:66-148 | every kept snapshot stays complete and of an epoch's last block, and nothing is deleted but dropped roots and chunks they list |
| SnapshotStore.TakeExactly | crates/chain/src/history.rs:66-148 | the new snapshot is the newest of at most two, taken exactly at an epoch's last block that has none; a block is gone if and only if it is a dropped root, or a dropped snapshot lists it and no kept one does |
| SnapshotStore.DeleteExact | crates/store/src/snapshot.rs:209-217 | deleting a stored block keeps all kept snapshots complete if and only if none of them is it or lists it |
| SnapshotStore.AlwaysComplete | crates/chain/src/history.rs:66-148 | over any run, whatever other parts store and delete, every kept snapshot is complete and of an epoch's last block in every state if and only if no other part deletes a block that a kept snapshot needs |
| Uploads.Node.constructor | crates/node/src/certificates.rs:66-71 | nothing is tracked at first |
| Uploads.Node.Parse | crates/node/src/certificates.rs:210-223 | the loop over length-prefixed blocks computes the specified parse |
| UploadSafety.BodyExact | crates/node/src/certificates.rs:210-223 | a body is read as a list of blocks if and only if it is that list framed and every block has a legal length |
| Uploads.Node.Upload | crates/node/src/certificates.rs:208-248 | a bad body, an empty one or one over the byte quota changes nothing; otherwise exactly the blocks the store lacks are stored and tracked |
| UploadSafety.UploadWithinQuota | crates/node/src/certificates.rs:225-248 | an accepted upload leaves the tracked bytes within the quota |
| UploadSafety.UploadExactly | crates/node/src/certificates.rs:208-248 | an upload succeeds if and only if its body is framed blocks, at least one, within the quota with what is tracked; then every block is stored, and tracked exactly if it was not |
| Uploads.Node.ListBlocks | crates/node/src/certificates.rs:264-277 | the requested blocks without repetition, or an error if one is missing |
| UploadSafety.ListingHeld | crates/node/src/certificates.rs:264-277 | a listing has no repetition, holds exactly the requested blocks, and all of them are stored |
| UploadSafety.CheckExactly | crates/node/src/certificates.rs:258-286 | an index request passes if and only if it names between one and 4096 blocks, all stored, its entry among them, of at most 256 MiB together |
| Uploads.Node.Check | crates/node/src/certificates.rs:258-286 | the first half of an index request: the blocks looked up, or a refusal |
| Uploads.Node.Commit | crates/node/src/certificates.rs:287-313 | the second half: the index's own blocks are stored and tracked, all tracked blocks of the deal are marked, the root is pending |
| Uploads.Node.Scan | crates/node/src/certificates.rs:420-447 | the pending roots that are paid, and the unpaid ones that are overdue |
| Uploads.Node.Collect | crates/node/src/certificates.rs:448-482 | the sweep refines the specification and deletes exactly the reported blocks |
| UploadSafety.SweepExact | crates/node/src/certificates.rs:448-482 | a block is deleted if and only if it is tracked and old, and neither a paid nor a remaining index lists it |
| UploadSafety.CollectExact | crates/node/src/certificates.rs:420-482 | the same in terms of the contract's answers: every index listing the block is unpaid and overdue |
| UploadSafety.StepExact | crates/node/src/certificates.rs:208-482 | one step keeps that bookkeeping if and only if it is harmless: no commit of a block deleted meanwhile, no deletion of a needed block by another part, no restart from an outrun state file |
| UploadSafety.DeleteExact | crates/store/src/snapshot.rs:209-217 | a deletion by another part keeps the bookkeeping if and only if the block is not tracked, not listed by a pending index and not paid for |
| UploadSafety.RestartExact | crates/node/src/certificates.rs:83-110 | a restart keeps it if and only if all the state file tracks and lists is still stored and nothing it tracks was paid meanwhile |
| UploadSafety.UninterruptedIndex | crates/node/src/certificates.rs:264-310 | a commit right after its check finds its blocks |
| UploadSafety.AlwaysExact | crates/node/src/certificates.rs:208-482 | over every interleaving of uploads, the two halves of index requests, collections, crashes and restarts, and other parts that store and delete: each tracked block's root set is the set of pending roots listing it and every pending deal is stored in full, in every state, if and only if every step is harmless |
| UploadSafety.CollectSafe | crates/node/src/certificates.rs:448-482 | in such runs a collection deletes only blocks first got by upload or index building, that no pending index lists and no index observed as paid ever listed |
| UploadSafety.IndexExact | crates/node/src/certificates.rs:288-310 | committing an index keeps the bookkeeping exact if and only if its blocks are still stored |
| UploadRaces.UploadedAgain | crates/node/src/certificates.rs:208-248 | in any state where a pending index lists a block that is neither stored nor tracked: uploading the block does not tie it to the index, and the collection after the grace period deletes it |
| UploadRaces.LateIndex | crates/node/src/certificates.rs:264-482 | a failing run, for every index builder: upload, check, collection, commit, upload again; the next collection deletes the block although a pending index lists it and nothing is paid or overdue |
| UploadRaces.PrunedIndex | crates/store/src/snapshot.rs:209-217 | a failing run, for every index builder: a block that other parts stored is listed in an index and pruned; uploaded again, it is deleted while the index is pending |
| UploadRaces.StaleRestart | crates/node/src/certificates.rs:462-483 | a failing run: a collection deletes a block, the node crashes before the state file is written, another part stores the block, and the next collection deletes it |
| Archives.WriteLoop | crates/ipld/src/car.rs:32-46 | the writer's loop produces the specified archive |
| Archives.ReadLoop | crates/ipld/src/car.rs:51-73 | the reader's loop computes the specified reading |
| Archives.ArchiveExact | crates/ipld/src/car.rs:32-73 | reading a written archive gives its roots and blocks back in order if and only if every block matches its CID |
| Archives.ReadSound | crates/ipld/src/car.rs:51-73 | whatever the bytes, an archive that is read has version 1 and every block in it matches its CID |
| Archives.LoopIsDfs | crates/ipld/src/car.rs:103-122 | the explicit stack visits blocks in the order of a recursive depth-first search |
| Archives.Traverse | crates/ipld/src/car.rs:103-122 | the loop computes that search |
| Archives.TraverseExact | crates/ipld/src/car.rs:103-122 | every reachable block is listed exactly once; the traversal fails if and only if a reachable block is missing, and names one |

## Left out

- Networking, gossip, gateways, explorer, command line, metrics and wallet code: input and output only.
- The EVM, tries, the database and the system contracts: execution is a predicate, the store is maps.
- Cryptographic primitives, X.509 and vendor collateral: parameters, or external parsers.
- Liveness of a whole network and timer lengths: they depend on when messages arrive. What each message does once it arrives is in `VoteProgress` and `TimeoutProgress`.
- Self-delivery of an engine's own votes, timeouts and nil proposals is a message of the run, not a nested call; an own vote is therefore counted only once it is on disk (see Premises).
- `on_external_commit` and `reanchored` of the engine: they trust their caller that a block is final.
- Rounds of the checkpoint committee over mined blocks: the block's hash does not bind the round.
- Overflow of 64-bit rounds and heights and of 256-bit total difficulties: numbers are unbounded.
- ConsensusEngine.Engine.ProofFor: the source panics when a nil block is missing; the model returns an abort action; `EpochLives.PanicExactly` says when.
- Committee.QuorumIntersection: the division by zero of `leader` on an empty committee is not modelled; that committee has leader 0.
- ForkChoice.Node.ImportFinal: pending blocks, envelopes and receipts of an imported block are not modelled, nor a chain that starts at an imported checkpoint instead of genesis.
- ForkOrder.OrderIndependent: assumes that no import is refused and no block pruned; `ForkValid.ValidOrderIndependent` derives both from the blocks.
- ForkValid.ValidOrderIndependent: forks deeper than 128 below another block, which the node refuses or prunes depending on the order, and headers that pass under one head of the family and fail under another are not covered.
- OverlayState.OverlayExact: state roots and the trie tables are not modelled.
- MeasuredBoot.EvidenceAppraises: the quote's signature and the certificate chain of the endorsement key are not modelled.
- Credential.CredentialExact: the RSA transport of the seed is not modelled.
- Uploads.Node.Check: JSON and CID parsing are not modelled.
- UploadSafety.AlwaysExact: a database error in the middle of a request is not modelled.
- Archives.TraverseExact: which links of a dag-cbor block are followed is a parameter.
- Gas-limit stepping, GeoIP, the node census, connection pruning, certificate codes and log-probability comparison: easy members or floating-point thresholds.
