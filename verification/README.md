# Vote path of a DAVINCI sequencer node

A Dafny model of how the node takes a vote from its queues to the published
tally, and proofs about it. Three layers share one claim: the stored encrypted
result is exactly the sum of the latest ballot of every voter, and anyone who
replays the published blobs reaches the same state.

`dafny verify dfyconfig.toml` checks the whole project.

## How the model is organised

- **State engine.** `Tree` is the Merkle tree seen from outside: a map from keys
  to leaf values, with a collision-free root (`Root`), a node store, proofs and
  transitions. `Votes`, `Bytes` and `Blobs` hold the leaf layout and the blob
  codec. `Staging` says what a batch means; the classes `BatchState.State` and
  `BatchState.Batch` follow the Go objects step by step and are proved against
  it. `Replay` is the independent path from blobs to state. `TallyInvariant`,
  `CircuitChecks`, `Runs` and `Voters` hold the theorems.
- **Circuit.** `CircuitChecks` says what the state transition circuit demands and
  how prepared batches meet it. `TransitionCircuit` puts its constraints on an
  arbitrary witness, whose transitions, overwritten ballots and results are the
  prover's to choose, and proves what they guarantee.
- **Arithmetic.** `Algebra` (commutative groups and sums over maps), `Ballots`
  (vectors of ciphertexts over an abstract curve), `Elgamal` (decryption,
  re-encryption, baby-step giant-step), `Finalizer`, `Packing`, `Counters`.
- **Storage.** `Store` says what every operation under the global lock does to
  the queues, reservations, locks, statuses and counters, as functions on a
  record. The class `StorageObject.Storage` carries the operations out with the
  loops of the original, each proved equal to its function. `Effects` says what
  the operations mean vote by vote and column by column. `Protocol` is the
  node as a state machine: storage plus what its goroutines hold in memory, every
  storage call one atomic step, in any interleaving, with restarts, cleanups and
  ageing reservations. `Flight`, `Safety`, `Exclusivity`, `Failures`,
  `Provenance` and `Statuses` hold the theorems about its runs, and
  `Reachability` a run from the empty node to the one failure that ageing allows.
- **Selection and circuit padding.** `Selection` and `Aggregator`.
- **Whole nodes.** `Driver` ties the layers together: whatever batch the storage
  hands out, in whatever run, committing it keeps the tally. `Network` lets any
  number of such nodes work on one process, each with its own storage and tree,
  rebuilding from what the others, or sequencers outside the network, publish.

Points of the curve, hashes and proofs are abstract. The curve is any
commutative group (`Group.Lawful`); a hash is a function parameter; a proof is an
opaque value whose verdict is a parameter. Nil pointers are `None`. Batches are
stored under a digest of their contents, which is taken to be collision-free, so
a queue of batches is a set. Database writes succeed. Time is an integer
parameter. Integers are unbounded except where 64-bit wrap-around matters
(`Cooldown`, `MaxPossibleResult`, `Candidate`), where it is written out.

## Where the code and its promises part

Where a property fails, the condition under which it holds is proved in both directions.

- A ballot index used twice in one batch is accounted twice against the same
  stored ballot. The tally survives exactly when the drift of the batch is zero
  (`TallyKeptIffNoDrift`, `RepeatedIndexBreaksTally`). The queues rule it out
  (`HandedOutIsAdmitted`), and the circuit protects the tally against anyone
  else's batch, repeated indices or not (`CircuitProtectsTally`).
- A repeated or already stored vote ID is committed silently as an update, but
  the replay of its blob refuses it (`ReplayRefinesCommit`) and the circuit does
  too (`HonestBatchIsProvedIff`), so whatever is proved can be replayed
  (`ProvedBatchReplays`). The queues rule out repetition within a batch
  (`VoteIDsAreDistinct`).
- For a voters count outside 64 bits, `maxPossibleResult` is the cap even when
  the maximum value is 0 (`BoundIsCappedProduct`).
- For bounds above (2^32 - 1)^2 the 64-bit product of the logarithm search can
  wrap, and a logarithm just above 2^64 is then reported as a small one
  (`DiscreteLog`). The finaliser never asks for more than 10^12.
- A failed transition is dropped, with its ballots neither queued nor marked,
  exactly when its batch may still be retried, the process accepts votes, and
  the state at its confirmed root cannot be loaded (`BallotsAreAccountedInRuns`).
  A queued retriable batch of an accepting process can come to that (`QueuedBatchCanBeLost`). The other exit of
  that kind, a process that is not stored, is never taken in a run
  (`LossNeedsUnloadableRoot`).
- The in-flight invariant, which gives every process at most one transition, holds
  exactly as long as no reservation of a transition that is held or submitted ages
  out (`FlightHolds`). When one does, a submitted transition can be handed out
  again. If the first submission then times out and the second succeeds late, its
  callback releases the pending batch of the retry, and the process can get two
  transitions, in a run from the empty node (`AgeingLeadsToTwoTransitions`).
- One ballot per address in the queues, with its lock held, survives a restart
  exactly when the address of every pending ballot is also that of an aggregated
  one, and a verification exactly when the ballot owns its lock
  (`StepKeepsExclusiveIff`). Every other step keeps it.
  Otherwise the address can push a second ballot (`RestartForgetsPendingLocks`,
  `LateVerificationBreaksExclusivity`).
- A restart locks the addresses of aggregated ballots, which are unlocked while
  the node runs. Such a lock is leaked exactly when no queued ballot has it
  (`RestartLeaksIff`). Then it refuses its address until a further restart, or until
  a ballot with that very lock is marked verified (`LeakedLockStays`,
  `LeakedLockRefuses`). If the voter had already overwritten, finishing the later
  ballot releases it (`OverwriteFreesRecoveredLock`).
- The comment above `setVoteIDStatus` (storage/vote_id_status.go:184-187) says that
  status changes must follow the valid progression. Only the finality of done is
  enforced: an invalid change is logged and goes through (`OnlyDoneStopsAWrite`), and
  a removed vote that is verified later makes one (`RemovedVoteIsVerified`).

## Model

| member | source | states |
|---|---|---|
| Params.KeySpacesPartition | types/state.go:187-198 | the reserved, ballot and vote ID key spaces are disjoint and cover every 64-bit key; each conversion accepts exactly its own space |
| Params.BallotIndexBijection | types/state.go:46-54 | voters map one-to-one onto the ballot keys, and too large an index is refused |
| Queues.ProcessIDParts | types/process_id.go:82-88 | a process identifier is valid exactly when neither its address nor its version is zero |
| Ballots.BallotsAreLawful | crypto/elgamal/ballot.go:157-175 | ballots with field-wise addition and negation form a commutative group |
| Ballots.CoordinatesRoundTrip | crypto/elgamal/ballot.go:177-210 | coordinates determine a ballot and back; exactly the lists of 32 values are ballots |
| Tree.GenerateProof | state/merkleproof.go:47-58 | a proof shows membership with the stored value, or exclusion with some other leaf or none |
| Tree.WriteIsClassified | state/merkleproof.go:115-160 | proofs taken around a write give an insert exactly for a new key and an update exactly for a present one, with the right roots, keys and old leaf |
| Tree.NoopKeepsRoot | state/merkleproof.go:172-188 | a padding transition is a NOP and keeps the root |
| Votes.LeafRoundTrip | state/vote.go:32-94 | a written ballot leaf reads back as the ballot, the address and the weight |
| Votes.LeafIsDetermined | state/vote.go:60-94 | two well-formed leaves that decode alike are the same leaf |
| Bytes.CellRoundTrip | state/blobs.go:45-53 | a 256-bit number written as a padded big-endian cell of 32 bytes reads back |
| Blobs.Push | state/blobs.go:32-56 | a value is refused exactly when it is nil, negative, wider than 32 bytes or past the last cell; otherwise its cell is written and no other |
| Blobs.ComputeBlob | state/blobs.go:29-100 | encoding succeeds exactly for batches without nil whose numbers are all field elements and that fit; in the blob, byte for byte and big-endian, cells 0 to 31 hold the coordinates of the results, cell 32 the count, each vote 36 cells from 33 on (vote ID, address, ballot index, weight, coordinates), and the rest is zero |
| Blobs.CanonicalIsEncodable | state/blobs.go:88-100 | the blob has a commitment exactly when every pushed value is below the modulus |
| Blobs.ParseBlobData | state/blobs.go:120-219 | parsing succeeds exactly on the blobs that hold some results, at most 60 votes and their count in that layout, byte for byte, under keys in range, and returns them |
| Blobs.BlobRoundTrip | state/blobs.go:58-219 | parsing an encoded batch returns its results, count and votes exactly when all keys are in range, and fails otherwise |
| Blobs.BatchFitsBlob | state/blobs.go:33-35 | a batch of at most 60 votes never overflows the blob |
| BatchState.State.Initialize | state/state.go:247-281 | initialisation succeeds exactly when no configuration key is taken; it writes the five leaves with zero results, and changes nothing on error |
| BatchState.State.PrepareVotesBatch | state/batch.go:42-59 | preparation succeeds exactly for the accepted batches, those without a commitment refused, leaves the state alone, and describes the whole staged batch |
| Staging.AcceptedIffOwners | state/vote.go:97-121 | a batch of up to 60 votes with readable results and encodable numbers is accepted exactly when every vote at a stored index names the address and weight stored in the 33rd and 34th value of its leaf |
| Staging.LeafPositions | state/vote.go:60-94 | the 34 values a vote writes: its coordinates field by field, its address, its weight |
| Staging.ConfigurationIsStored | state/state.go:247-281 | what a new process stores under each of its five keys, the results being identity points |
| BatchState.State.AddVotesBatch | state/state.go:284-290 | an accepted batch moves the leaves to the staged ones, any other changes nothing |
| BatchState.Batch.AddVote | state/vote.go:97-121 | a vote is refused exactly when the batch is full or a leaf is stored at its index with another address or weight; otherwise sums, counters and votes account for it, and nothing is written |
| BatchState.Batch.AddOrUpdate | state/merkleproof.go:72-113 | one key is written, and the transition between the two proofs is an insert or update of exactly that key |
| BatchState.Batch.StageSlots | state/batch.go:262-280 | the votes are written in order, the remaining slots are padding, and every slot has its transition pair |
| BatchState.Batch.StageResults | state/batch.go:282-296 | the new results are the stored ones plus all ballots less the overwritten ones |
| BatchState.Batch.PrepareTransitions | state/batch.go:233-303 | all proofs, transitions, roots, results and the blob of the batch |
| BatchState.Batch.Commit | state/batch.go:78-105 | commits once; a second commit, or one after a discard, is an error and changes nothing |
| BatchState.Batch.Discard | state/batch.go:111-118 | drops an open transaction and is harmless afterwards |
| BatchState.Batch.RootAsBigInt | state/batch.go:150-171 | the staged root while open, the captured one after a commit, an error otherwise |
| Staging.TransitionsAreLinked | state/batch.go:239-296 | the 2 * 60 + 1 transitions form one chain from the root before to the root after, padding included |
| CircuitChecks.SlotsCarrySums | state/vote.go:106-120 | under the circuit's multiplexers the slots add up to the sum of all ballots and the sum of the overwritten ones, whatever part of the batch is done |
| TallyInvariant.StageVoteEffect | state/batch.go:264-269 | staging a vote replaces the ballot at its index and nothing else of the tally |
| TallyInvariant.CommitAddsDrift | state/batch.go:282-288 | for any batch the distance between results and tally grows by exactly the drift of the batch |
| TallyInvariant.TallyKeptIffNoDrift | state/batch.go:282-288 | a batch keeps the tally exactly when its drift is zero |
| TallyInvariant.DistinctIndicesDoNotDrift | state/vote.go:97-121 | pairwise distinct ballot indices never drift |
| TallyInvariant.RepeatedIndexBreaksTally | state/vote.go:104-117 | two votes at one fresh index break the tally, and they are an accepted batch exactly when their values can be encoded |
| CircuitChecks.VerifiedBatchKeepsTally | circuits/statetransition/statetransition.go:372-394 | a batch as this code accounts it, whose own transitions pass the overwrite checks, keeps the tally, repeated indices or not |
| TransitionCircuit.CircuitProtectsTally | circuits/statetransition/statetransition.go:310-489 | over any witness, the real votes are staged in order on the root before, and the results written make a balanced state from a balanced one, although overwritten ballots and results are the prover's to choose |
| TransitionCircuit.ProvedVoteIDsAreFresh | circuits/statetransition/statetransition.go:310-331 | the vote IDs of whatever passes are new and pairwise distinct, its keys in range |
| TransitionCircuit.ProvedBatchKeepsVoters | circuits/statetransition/statetransition.go:367-380 | whatever passes removes no voter and changes no stored address or weight |
| TransitionCircuit.ProvedBatchIsEncodable | circuits/statetransition/statetransition.go:400-460 | its results and votes fit a blob that can be committed to |
| TransitionCircuit.ProvedBatchReplays | state/blobs.go:246-328 | anyone who has the root before rebuilds it from its blob without fail and ends at its root after |
| TransitionCircuit.ReencryptionIsSound | circuits/statetransition/statetransition.go:265-277 | whatever k the prover chooses, each ballot stays on the curve and keeps the voter's plaintext |
| TransitionCircuit.HonestBatchIsProvedIff | circuits/statetransition/statetransition.go:119-145 | the witness made from an accepted batch with one vote per index and values in the field passes exactly when its vote IDs are new and pairwise distinct |
| CircuitChecks.TransitionsVerifiedIffFresh | circuits/statetransition/statetransition.go:310-322 | the transition kinds the circuit demands come out exactly for fresh, distinct vote IDs |
| CircuitChecks.OverwriteChecksPass | circuits/statetransition/statetransition.go:351-397 | distinct indices pass the overwrite checks |
| CircuitChecks.BallotChecksPass | circuits/statetransition/statetransition.go:465-489 | the sums and both counters of the batch are what the slots add up to in the circuit |
| CircuitChecks.SlotsCarryCounts | state/vote.go:104-117 | exactly the overwritten votes are updates, the other votes inserts, and padding neither |
| CircuitChecks.BallotLeavesGrow | state/batch.go:262-280 | the number of ballot leaves grows by exactly the number of inserts |
| CircuitChecks.CommitKeepsVoters | state/vote.go:104-117 | an accepted batch removes no voter and changes no stored address or weight |
| Replay.StateTreeTx.ApplyVote | state/blobs.go:283-320 | replaying a vote follows its specification: ballot added or updated, vote ID added |
| Replay.StateTreeTx.ApplyBlobSidecar | state/blobs.go:350-367 | blobs are applied in order, stopping at the first one that fails |
| Replay.ApplyBlobSidecarFromRoot | state/blobs.go:246-280 | the state moves only if the replay from the before-root ends at the after-root; on any error or mismatch it is unchanged |
| Replay.ReplayIsBound | state/blobs.go:246-280 | a replay starts at a stored root and ends at the expected one, or fails |
| Replay.ReplayNeedsResults | state/blobs.go:316-328 | results are updated, never added: a state without a results leaf, or a list of other than 32 results, is refused |
| Replay.ReplayReaches | state/blobs.go:246-328 | replaying a blob of any results and votes succeeds exactly when the keys are in range and the vote IDs fresh and distinct, and then stages those votes and writes those results |
| Replay.ReplayRefinesCommit | state/blobs.go:246-328 | so replaying the blob of an accepted batch succeeds exactly then, and reaches the committed leaves |
| Runs.InitialIsBalanced | state/state.go:264-281 | a new process starts with the results equal to the empty sum |
| Runs.StepIsSound | sequencer/onchain.go:251-276 | commits, refusals, promotions of known roots and rebuilds of batches proved by anyone all keep the tally, for the current state and for every root that may become current |
| Runs.CatchingUpIsPossible | service/state_sync.go:88-160 | a node that knows one root can rebuild any chain of proved batches from there, one by one, to its last root |
| Runs.TallyHoldsOnEveryRun | state/batch.go:282-288 | in every state of every run the results leaf is the sum of the latest ballot of every voter |
| Voters.VotersAreKept | state/vote.go:104-117 | between two states of a run no voter disappears and no address or weight changes, as long as rebuilds and promotions go onward from the current root |
| Voters.VoterMayVoteAgain | state/vote.go:97-121 | in every state of every run a vote that names the address and weight stored at its index is accepted and can be committed; its ballot takes the place of the stored one and the tally follows |
| Voters.RootsDescend | sequencer/onchain.go:251-276 | in every state of every run each root that may become current descends from the first one by committed or proved batches |
| Voters.LinkIsSound | state/vote.go:104-117 | a committed or proved batch keeps the tally and the voters, and adds a voter exactly when not all its votes overwrite, at repeated indices too |
| Voters.GoingBackKeepsVotersIff | state/vote.go:104-117 | going back along a chain of roots keeps every voter exactly when all batches in between only overwrite |
| Voters.PromotionKeepsVotersIff | sequencer/onchain.go:251-264 | promoting an earlier root loses voters exactly when some batch since then added one |
| Packing.Pack | spec/ballotmode.go:24-52 | packing succeeds exactly when the group size is at most the number of fields, the values below 2^48 and the sums below 2^63; each field is then found by name at its own bits, the whole below 2^247; an error names the first limit exceeded |
| Packing.OrIsBitwise | spec/ballotmode.go:41-50 | a bit of the result is set exactly when it is set in one of the two numbers |
| Packing.OrIsSum | spec/ballotmode.go:41-50 | or-ing a number below 2^k with one shifted by k adds them |
| Packing.LaidReadsBack | spec/ballotmode.go:41-50 | every field is read back from its own bit range, whatever the others hold |
| Packing.PackIsInjective | spec/ballotmode.go:24-52 | modes with one packing are one mode |
| Elgamal.PlainPointAdds | crypto/elgamal/elgamal.go:79-87 | decryption carries sums of ciphertexts to sums of messages |
| Elgamal.EncryptedZeroIsZero | crypto/elgamal/ballot.go:141-155 | an encryption of zero decrypts to the identity, for every k |
| Elgamal.EncryptedZeroBallot | crypto/elgamal/ballot.go:117-152 | field i is (k' G, k' key) for k hashed i times |
| Elgamal.DecryptionInverts | crypto/elgamal/elgamal.go:28-48 | decryption takes back whatever was encrypted under the matching key, for every k |
| Elgamal.ReencryptionMoves | crypto/elgamal/ballot.go:95-113 | re-encryption adds k' G and k' key to the two points of field i, for k hashed i + 1 times |
| Elgamal.ReencryptionChanges | crypto/elgamal/ballot.go:95-113 | so a field changes unless its hashed k is a multiple of the generator's order |
| Elgamal.ReencryptionKeepsPlaintext | crypto/elgamal/ballot.go:95-113 | re-encryption stays on the curve and changes no plaintext |
| Elgamal.DiscreteLog | crypto/elgamal/elgamal.go:106-151 | for every 64-bit bound, baby-step giant-step finds the logarithm whenever there is one up to the bound; it answers otherwise exactly when the 64-bit product wraps, for bounds above (2^32 - 1)^2 and a logarithm just above 2^64 |
| Finalizer.BoundIsCappedProduct | sequencer/finalizer.go:50-73 | the bound is the capped product for every 64-bit count, without wrapping; otherwise exactly when the count is too large and the maximum value is not 0 |
| Finalizer.ResultsDecryptWithinBound | sequencer/finalizer.go:352-363 | each field of balanced results encrypts the exact sum of the voters' messages, and it is within the bound |
| Finalizer.DecryptResults | sequencer/finalizer.go:352-375 | decryption succeeds exactly when every field has a logarithm within the bound, and returns it |
| Finalizer.FinalizeResults | sequencer/finalizer.go:352-375 | for balanced results it never fails and returns the totals the voters encrypted |
| Aggregator.VoteMask | circuits/aggregator/aggregator.go:28-41 | over a prime field the latch yields ones for exactly the real slots, and fails for too large a count |
| Aggregator.CalculateWitnesses | circuits/aggregator/aggregator.go:57-84 | slot i shows (1, hash) if it is real and (0, 1) if not |
| Aggregator.Circuit.FillWithDummy | circuits/aggregator/helpers.go:19-33 | every slot from the index on holds the dummy, every other slot is untouched, and an error changes nothing |
| Aggregator.InputsHash | circuits/aggregator/inputs.go:25-36 | what is hashed is the list padded with ones to the batch size |
| Aggregator.PaddingAgrees | circuits/aggregator/inputs.go:25-36 | the list hashed outside equals the list hashed in the circuit, slot by slot |
| Aggregator.WitnessesAgree | circuits/aggregator/aggregator.go:57-84 | each witness carries the validity bit and the hash of its slot |
| Aggregator.LimbsRoundTrip | sequencer/aggregate.go:322-323 | the four limbs of a field element, lowest first, give it back in base 2^64 |
| Selection.CollectAggregationBatchInputs | sequencer/aggregate.go:37-355 | the batch is made, in order, of the ballots reached before it is full that meet every demand; the keys of the others reached are each marked failed or released once, the keys of the rest released; also when the keys run out before the incomplete ballots do |
| Selection.FatesPartition | sequencer/aggregate.go:55-345 | every pulled ballot has exactly one fate, once, and order is kept |
| Selection.EligibleIffAcceptable | sequencer/aggregate.go:56-310 | the checks accept exactly the ballots that have an identifier, an address, a vote ID not stored, a stored ballot if the voter limit is reached, a proof and an inputs hash, and whose proof is in the subgroup, verifies when there is a verifier, and converts |
| Selection.Passes | sequencer/aggregate.go:56-281 | the chain of checks accepts exactly the ballots that are eligible once their proof converts |
| Selection.BatchKeepsDistinctAddresses | sequencer/aggregate.go:320-330 | distinct addresses among the pulled ballots stay distinct in the batch |
| Selection.Assign | sequencer/aggregate.go:552-571 | the assignment holds the collected slots followed by dummies |
| Counters.ApplyUpdates | storage/process_stats.go:20-117 | a list of updates moves the counters of one process and the totals together, clamping as specified |
| Counters.UpdatesConserve | storage/process_stats.go:46-104 | no list of updates unbalances the totals or makes a clamped counter negative |
| StorageObject.Storage.PushPendingBallot | storage/ballots.go:45-113 | a ballot is refused for a locked vote ID, a locked address or a duplicate, changing nothing; otherwise it is queued, locked, counted and pending |
| StorageObject.Storage.NextPendingBallot | storage/ballots.go:603-642 | hands out an unreserved ballot and reserves it under the vote ID it carries, or reports that all are reserved |
| StorageObject.Storage.ReleasePendingBallotReservation | storage/ballots.go:226-236 | drops the reservation of one ballot and nothing else |
| StorageObject.Storage.RemovePendingBallot | storage/ballots.go:128-160 | removes ballot and reservation, releases its locks, marks the vote as error |
| StorageObject.Storage.RemovePendingBallotsByProcess | storage/ballots.go:163-201 | removes the ballots of a process under the vote IDs they carry, with reservations and locks, and no others |
| StorageObject.Storage.MarkBallotVerified | storage/ballots.go:241-306 | moves a ballot to the verified queue under the process it was pending for |
| StorageObject.Storage.PullVerifiedBallots | storage/ballots.go:312-385 | at most n unreserved ballots with distinct addresses, all reserved; fewer only if every other one shares an address with a returned one |
| StorageObject.Storage.MarkVerifiedBallotsDone | storage/ballots.go:486-517 | removes the ballots with reservations and locks |
| StorageObject.Storage.MarkVerifiedBallotsFailed | storage/ballots.go:523-601 | fails the ballots one by one and takes the verified ones off the counters of their process |
| StorageObject.Storage.PushAggregatorBatch | storage/ballots_batches.go:31-64 | queues the batch, counts it, marks its votes aggregated |
| StorageObject.Storage.MarkAggregatorBatchFailed | storage/ballots_batches.go:101-173 | fails the votes, releases them, reverses the count of those really aggregated, removes the batch |
| StorageObject.Storage.NextAggregatorBatch | storage/ballots_batches.go:178-234 | hands out an unreserved batch whose cooldown is over and reserves it |
| StorageObject.Storage.MarkAggregatorBatchPending | storage/ballots_batches.go:242-263 | one pending batch per process, a second is refused |
| StorageObject.Storage.PushStateTransitionBatch | storage/ballots_batches.go:320-361 | queues the transition, counts it, marks its votes processed |
| StorageObject.Storage.NextStateTransitionBatch | storage/ballots_batches.go:363-402 | hands out an unreserved transition of the process and reserves it, or reports that all are reserved |
| StorageObject.Storage.MarkStateTransitionBatchDone | storage/ballots_batches.go:404-471 | settles the votes, removes the transition and releases the pending batch |
| StorageObject.Storage.MarkStateTransitionBatchOutdated | storage/ballots_batches.go:508-593 | drops the transition and queues its pending batch again |
| StorageObject.Storage.MarkStateTransitionBatchFailed | storage/ballots_batches.go:599-734 | retries, gives up or errs as specified; the transition and its pending transaction are gone in every case |
| StorageObject.Storage.MarkProcessVoteIDsTimeout | storage/vote_id_status.go:141-182 | every vote of the process that is not done times out, no other status changes |
| StorageObject.Storage.CleanupEndedProcess | storage/cleanup.go:30-74 | empties the queues of one process with reservations and locks, and times its votes out |
| StorageObject.Storage.CleanAllPending | storage/cleanup.go:80-106 | empties the verified, aggregated and transition queues, fails their votes, keeps the pending queue |
| Effects.PushedIsPending | storage/ballots.go:45-113 | an accepted ballot is pending in queue and status, locked, and counted once, other votes and processes unmoved |
| Effects.RemovedIsInError | storage/ballots.go:128-160 | a removed ballot is in error and counted off once |
| Effects.PendingOfProcessIsGone | storage/ballots.go:163-201 | no pending ballot of the process is left, with reservation or lock, all others are, and exactly those are counted off |
| Effects.VerifiedIsMoved | storage/ballots.go:241-306 | a pending ballot marked verified moves from one queue, status and counter to the next, its locks held |
| Effects.LateIsVerified | storage/ballots.go:241-306 | one that was no longer pending is counted as verified and takes nothing off the pending ones |
| Effects.FinishedAreGone | storage/ballots.go:486-517 | finished ballots leave the queue with reservation and locks, all others stay, and so do statuses and counters |
| Effects.FailedIsInError | storage/ballots.go:523-601 | a failed verified ballot is in error and free, and counted off exactly if it really was verified |
| Effects.QueuedIsAggregated | storage/ballots_batches.go:31-64 | the votes of a queued batch are aggregated unless done, no other status moves, and they are counted from the batch under construction to the last one |
| Effects.FailedBatchIsCountedBack | storage/ballots_batches.go:101-173 | the votes of a failed batch are in error unless done, and unlocked, and as many are counted back as were aggregated or of no known status |
| Effects.PushedIsProcessed | storage/ballots_batches.go:320-361 | the votes of a pushed transition are processed unless done, no other status moves, and one transition is counted |
| Effects.UncountedIsStillQueued | storage/ballots_batches.go:31-64 | when the counters cannot be moved a batch, a transition or a verified ballot is queued all the same, an error is returned and no status moves |
| Effects.ConfirmedIsDone | storage/ballots_batches.go:404-471 | the votes of a confirmed transition are done and unlocked, no other status moves, its pending batch is released and one settlement counted |
| Effects.OutdatedIsQueuedAgain | storage/ballots_batches.go:508-593 | the batch of an outdated transition is queued and its votes aggregated again, and it is free to be taken |
| Effects.StatusAsRead | storage/vote_id_status.go:47-88 | a vote reads as settled exactly if it is done and in the confirmed state, if that can be loaded, and as unknown if it has no status or is done in a process that is not stored |
| Effects.OnlyDoneSurvivesTimeout | storage/vote_id_status.go:141-182 | a timeout leaves done votes and other processes alone and times out all other votes |
| Effects.CleanedUpIsGone | storage/cleanup.go:30-74 | after the cleanup of a process no queue, reservation or lock has anything of it, and everything of the others stays |
| Effects.CleanedAllIsEmpty | storage/cleanup.go:80-106 | afterwards the three later queues are empty, their votes unlocked and in error unless done, or processed if in transition |
| Effects.ReleasedAreFree | storage/ballots.go:226-236 | a release frees what it names, keeps every other reservation and moves nothing else |
| Effects.DoneBatchIsGone | storage/ballots_batches.go:304-318 | a batch that is done leaves the queue with its reservation, and nothing else moves |
| Effects.DroppedQueuesAreEmpty | storage/ballots_batches.go:66-99 | dropping one queue of a process drops all of it and nothing of the others |
| Effects.OnlyAgedAreFreed | storage/storage.go:233-271 | a reservation is left after ageing exactly if it was there and had not grown too old |
| Effects.RestartFreesAll | storage/storage.go:177-197 | a restart frees every reservation, locks exactly the votes that are verified or aggregated, and keeps queues, statuses and counters |
| StorageObject.Storage.Recover | storage/storage.go:177-197 | clears the reservations and locks exactly what is verified or aggregated |
| Protocol.StepIsSound | storage/ballots_batches.go:599-734 | every step keeps addresses distinct and attempts within limits in every queue and in memory |
| Protocol.UnconfirmedIsDistinct | storage/ballots_batches.go:685-713 | filtering confirmed votes leaves a sub-list, still distinct |
| Protocol.FailureFrame | storage/ballots_batches.go:599-734 | a failure removes the transition and the pending batch whatever comes of it, and touches nothing else but queue, counters and statuses |
| Protocol.OutdatedFrame | storage/ballots_batches.go:508-593 | an outdated transition leaves its queue and its pending batch goes back to the aggregated ones |
| Safety.AddressesAreDistinct | storage/ballots.go:348-352 | in every state of every run no batch, queued, pending, taken, staged, held or submitted, has two ballots from one address |
| Safety.BackoffIsDefined | storage/ballots_batches.go:201-212 | a queued batch that failed has made 1 to 4 attempts and waits 30 * 2^(attempts-1) seconds, 30 to 240 |
| Safety.FailedBatchRests | storage/ballots_batches.go:201-212 | in every run a queued failed batch may be taken exactly when 30 * 2^(attempts-1) seconds have passed since its last attempt |
| Safety.NoBatchIsTakenEarly | storage/ballots_batches.go:201-212 | no step of any run takes a failed batch earlier |
| Safety.CooldownIs | storage/ballots_batches.go:201-206 | for 1 to 4 attempts the 64-bit shift and product are exact and below the cap |
| Safety.DoneIsFinal | storage/vote_id_status.go:199-207 | a done vote stays done to the end of any run |
| Safety.CountersAddUp | storage/process_stats.go:46-104 | in every state of every run the totals are the sums over all processes and no clamped counter is negative |
| Safety.PendingIsHandedOutOnce | storage/ballots.go:603-641 | two hand-outs of one pending ballot have a step between them that frees its reservation |
| Safety.PendingIsFreedBy | storage/ballots.go:226-297 | which steps free the reservation of a pending ballot, and no others |
| Safety.VerifiedIsHandedOutOnce | storage/ballots.go:312-385 | two pulls of one verified ballot have a step between them that frees its reservation |
| Safety.VerifiedIsFreedBy | storage/ballots.go:389-399 | which steps free the reservation of a verified ballot, and no others |
| Safety.BatchIsHandedOutOnce | storage/ballots_batches.go:178-234 | two hand-outs of one aggregated batch have a step between them that frees its reservation |
| Safety.BatchIsFreedBy | storage/ballots_batches.go:66-173 | which steps free the reservation of a batch, and no others |
| Safety.KeysAlwaysMatch | storage/ballots.go:627-634 | in every state of every run pending ballots are stored under their own vote ID, so the logged mismatch never happens |
| Safety.QueuedProcessesAreKnown | sequencer/aggregate.go:446-462 | in every state of every run whatever is queued or in memory belongs to a stored process, and a pending batch to its own |
| Provenance.BatchesInheritFromPulls | sequencer/aggregate.go:464-517 | what holds of every pulled list and all its sub-lists holds of the ballots of every batch, queued or in memory, in every state of every run |
| Provenance.BatchesHoldVerifiedBallots | sequencer/aggregate.go:464-517 | what holds of every ballot when it is marked verified holds of every ballot of every batch, for the process of that batch, in every state of every run |
| Provenance.VoteIDsAreDistinct | storage/ballots.go:312-385 | in every state of every run no batch, queued or in memory, has two ballots with one vote ID, as long as ballots are marked verified under their own |
| Provenance.SelectionIsTaken | sequencer/aggregate.go:320-345 | what the aggregator selects from a pulled list is a batch as the runs take it |
| Statuses.ValidTransitionsFollowTheFlow | storage/vote_id_status.go:230-264 | the valid changes are one step forward in the flow, the rollback of a processed vote, and the failure of one that is not done |
| Statuses.OnlyDoneStopsAWrite | storage/vote_id_status.go:184-228 | a write takes effect exactly when the current status is not done; it is logged exactly when the change is invalid, and then takes effect all the same |
| Statuses.RemovedVoteIsVerified | storage/ballots.go:241-306 | a ballot removed while its verification runs goes from error to verified, an invalid change |
| Flight.AtMostOneTransition | storage/ballots_batches.go:242-263 | in every run in which no reservation of a held or submitted transition ages out a process has at most one transition, and its pending copy has the same ballots |
| Flight.FlightHolds | storage/ballots_batches.go:242-263 | along any run the in-flight invariant holds exactly as long as ageing spares what is held or submitted |
| Flight.ExpireKeepsFlightIff | storage/storage.go:233-271 | an ageing step keeps the invariant exactly when it frees no reservation of a held or submitted transition |
| Flight.StageKeepsFlight | storage/ballots_batches.go:251-256 | the refusal of a second pending batch keeps a second transition from being staged |
| Flight.AgeingHandsOutAgain | storage/storage.go:233-271 | an aged reservation lets a submitted transition be taken again and its confirmation leaves the process without a pending batch |
| Reachability.AgeingLeadsToTwoTransitions | storage/storage.go:233-271 | a run from the empty node, with one late success after a timeout, reaches a transition without its pending copy, and then two transitions of one process |
| Flight.SecondCallbackReleasesPending | storage/ballots_batches.go:404-471 | a second callback releases the pending batch of the transition that came after |
| Exclusivity.AddressesAreExclusive | storage/ballots.go:54-58 | along any run each process and address has at most one ballot in the two queues, with its lock held, exactly as long as every restart and verification meets its guard |
| Exclusivity.StepKeepsExclusiveIff | storage/ballots.go:54-58 | a step keeps that exactly when it meets its guard; all but restarts and verifications always do |
| Exclusivity.VerifyingKeepsIff | storage/ballots.go:241-306 | marking a ballot verified keeps exclusivity exactly when it stores nothing or owns its lock |
| Exclusivity.RestartKeepsIff | storage/storage.go:441-486 | a restart keeps exclusivity exactly when every pending ballot shares its address with an aggregated one |
| Exclusivity.LocksAreExact | storage/ballots.go:60-100 | along any run the address locks are exactly those of the queued ballots, as long as every restart and verification meets the stricter guard, and no longer |
| Exclusivity.VerifyingKeepsLawIff | storage/ballots.go:241-306 | marking a ballot verified keeps the locks exact exactly when it moves a pending ballot, or repeats a verified one, with the same address |
| Exclusivity.RestartKeepsLawIff | storage/storage.go:441-486 | a restart keeps the locks exact exactly when, besides, every aggregated ballot shares its address with a queued one |
| Exclusivity.DoneAllowsOverwrite | storage/ballots.go:481-517 | while a ballot is queued its address is refused; once it is aggregated the same address can push again |
| Exclusivity.RestartForgetsPendingLocks | storage/storage.go:441-486 | after a restart a second ballot from the address of a pending one is accepted |
| Exclusivity.LateVerificationBreaksExclusivity | storage/ballots.go:249-262 | verifying a ballot that is no longer pending leaves a ballot without a lock, and its address can push a second one |
| Exclusivity.RestartLeaksIff | storage/storage.go:441-486 | a restart leaves a lock that no queued ballot has exactly for the aggregated addresses without a queued ballot |
| Exclusivity.LeakedLockStays | storage/ballots_batches.go:307-317 | such a lock stays through every step but a restart or the verification of a ballot with that very lock |
| Exclusivity.LeakedLockRefuses | storage/ballots.go:54-58 | such a lock refuses every ballot from its address |
| Exclusivity.OverwriteFreesRecoveredLock | storage/ballots.go:486-517 | if the aggregated address also has a verified ballot, finishing that ballot releases the lock |
| Failures.FailedBallotsAreAccounted | storage/ballots_batches.go:599-734 | after a failure each ballot not settled before is queued again and unconfirmed, or in error or done, exactly when the transition is not lost, a condition known before the call |
| Failures.LossNeedsUnloadableRoot | storage/ballots_batches.go:657-683 | in any run the process is stored, and a failure errs, losing its ballots, exactly when the batch is retriable, the process accepts votes and its confirmed state cannot be loaded |
| Failures.BallotsAreAccountedInRuns | storage/ballots_batches.go:599-734 | so in any run a ballot of a failing transition is accounted for exactly unless that state cannot be loaded |
| Failures.ClosedProcessGivesUp | storage/ballots_batches.go:657-676 | a process without a root, not ready or not registered gives up: nothing is queued and every vote is in error unless done |
| Failures.OpenProcessTriesAgain | storage/ballots_batches.go:680-722 | an open one with an attempt left tries again, one attempt later, with exactly the votes that are not in the confirmed state |
| Failures.LostBatchIsGone | storage/ballots_batches.go:657-683 | a lost transition is dropped and its batch released while nothing is queued and no status changes |
| Failures.UnloadableRootLosesBallots | storage/ballots_batches.go:680-683 | from any state with a free transition of an accepting process a run loses it |
| Failures.QueuedBatchCanBeLost | storage/ballots_batches.go:680-683 | and so from any state with a queued retriable batch, its votes left processed unless they were done |
| Failures.FilterSplits | storage/ballots_batches.go:685-699 | the filter splits the ballots by whether their vote is confirmed, losing none |
| Failures.FailureExtendsLineage | storage/ballots_batches.go:643-713 | whatever a failure queues is the next batch of the lineage, with one attempt less left |
| Failures.LineageIsShort | storage/ballots_batches.go:18-20 | a lineage has at most five batches |
| Failures.PushedVotesAreAggregated | storage/ballots_batches.go:55-61 | every vote of a queued batch is aggregated, or was done |
| Failures.FailedBatchIsSettled | storage/ballots_batches.go:118-146 | every vote of a failed aggregated batch is in error or done, and unlocked |
| Failures.ConfirmedVotesAreDone | storage/vote_id_status.go:66-88 | every vote of a confirmed transition is done, and reads as settled exactly when it is in the confirmed state |
| Failures.LateCallbackReleasesPending | storage/ballots_batches.go:410-457 | a late callback still releases the pending batch |
| Driver.ReencryptVotes | sequencer/statetransition.go:298-334 | the j-th field of the i-th ballot moves by the points of the seed hashed i + j + 1 times, everything else of the vote is taken over and its index is 16 plus the voter's; the first ballot without a usable voter index decides: none is an error, one too large panics |
| Driver.IndicesAreDistinct | sequencer/statetransition.go:323-330 | under an injective census distinct addresses give distinct ballot indices |
| Driver.QueuedBatchKeepsTally | sequencer/statetransition.go:48-158 | whatever batch the storage hands to the driver, in any run, committing its re-encrypted votes keeps the tally |
| Driver.ProcessStateTransitionBatch | sequencer/statetransition.go:222-257 | the batch is committed exactly when it is accepted and its proof verifies; otherwise the state is unchanged |
| Driver.RunDecryptsWithinBound | sequencer/finalizer.go:352-363 | in every state of every run each field of the results decrypts to the exact total, within the bound |
| Network.HandedOutIsAdmitted | sequencer/statetransition.go:48-158 | whatever batch the storage hands out for the process becomes votes with distinct indices, keys in range and points on the curve, and its vote IDs are fresh exactly when none is stored |
| Network.MembersRun | sequencer/statetransition.go:48-158 | in every run of any number of sequencers, what each does to its tree is a run of admitted commits and proved rebuilds, also of what sequencers outside the network publish |
| Network.EveryTallyHolds | state/batch.go:282-288 | so in every state the results of every member are the sum of the latest ballot of every voter, with no assumption on the batches |
| Network.PublishedCanBeRebuilt | service/state_sync.go:88-160 | a member that knows the root before a published batch can rebuild it at any time, whoever published it, and ends at the publisher's root |
| Network.CommitsAreFresh | sequencer/statetransition.go:222-257 | what a member commits has new and pairwise distinct vote IDs, and is published with its proof |

## Left out

- Sibling paths and the inside of the arbo tree, KZG commitments and evaluation data, Poseidon and the curve: external; a collision-free root, abstract hashes and an abstract group stand for them.
- groth16 proving and verification: the verdict is a parameter.
- `big.Int` and pointer aliasing: a batch keeps its own copy of a vote, while the original also fills `OverwrittenBallot` in the caller's vote.
- A nil address or weight of a vote that overwrites a stored one: the original panics on the comparison; the model refuses the vote.
- CBOR encoding, key prefixes and the order in which the database iterates: queues are typed maps and sets, and a hand-out may return any entry that qualifies.
- State transition artifacts, verified results, worker statistics, and the map from vote IDs to addresses, which is only ever written.
- The HTTP API, web3, transaction management, process monitoring, census downloads and metadata.
- BatchState.State.PrepareVotesBatch: the error texts do not follow the original word for word.
- Blobs.ComputeBlob: of the commitment only the refusal of a cell at or above the modulus of the BLS12-381 scalar field is modelled; the evaluation point and its data, which come after, are not.
- Finalizer.FinalizeResults: the order of the generator is taken to exceed 10^12, as it does on the curve in use.
- Selection.CollectAggregationBatchInputs: more keys than ballots, which no pull returns, are excluded, and so are ballots that reach the voter limit check without a valid voter index, where the original panics.
- StorageObject.Storage.MarkVerifiedBallotsFailed: the order in which the processes are settled is left open, as it is in the original.
- StorageObject.Storage.CleanAllPending: which entries are posted to the counters is left open, because it depends on the order of iteration when a vote ID occurs in two batches.
- Flight.AtMostOneTransition: runs in which the reservation of a held or submitted transition ages out are excluded, because the property fails there; each submission has one callback.
- Driver.ReencryptVotes: a ballot with a missing ciphertext or an unknown curve, which the original refuses, is not a value of the model.
- Driver.QueuedBatchKeepsTally: that a census gives each address its own index, and that queued ballots are points of the curve under valid vote IDs, are assumptions on the batch; `Network` assumes them only of the ballots marked verified, where the census and the vote verifier circuit establish them.
- TransitionCircuit.CircuitProtectsTally: groth16, the sparse Merkle tree processor and the blob evaluation are taken to establish what they check; that a real ballot is made of curve points comes from the aggregated proof and `ReencryptionIsSound`, that its index is in range from the census proofs. The proofs of the configuration leaves and the census membership itself are not modelled.
- Provenance.VoteIDsAreDistinct: that a ballot is marked verified under the vote ID it carries is an assumption on the caller; the ballot worker passes the key the ballot was handed out under (sequencer/ballot.go:73-113), and `KeysAlwaysMatch` makes the two equal.
- Voters.PromotionKeepsVotersIff: a promoted root that is neither an ancestor nor a descendant of the current one is not covered.
- Goroutine scheduling below the global lock: each locked method is one step.
