/** The entries of the storage queues. */
module Queues {
  import opened Wrappers
  import opened Ballots

  /** 31 bytes: address (20), version (4) and nonce (7), as one number. */
  const PROCESS_ID_LIMIT: nat := 0x1_0000000000_0000000000_0000000000_0000000000_0000000000_0000000000_00

  type ProcessID = p: nat | p < PROCESS_ID_LIMIT
  type VoteID = nat

  predicate ValidProcessID(p: ProcessID) {
    p / 0x1_0000000000_0000000000_00 != 0 && p / 0x1_00000000_000000 % 0x1_0000_0000 != 0
  }

  /** A process is valid when neither its address nor its version is zero, whatever its nonce. */
  lemma ProcessIDParts(address: nat, version: nat, nonce: nat)
    requires address < 0x1_0000000000_0000000000_0000000000_0000000000 && version < 0x1_0000_0000 && nonce < 0x1_00000000_000000
    ensures var p := address * 0x1_0000000000_0000000000_00 + version * 0x1_00000000_000000 + nonce;
            p < PROCESS_ID_LIMIT && (ValidProcessID(p) <==> address != 0 && version != 0)
  {
  }

  /** A vote verifier proof; what it encodes is left open. */
  datatype VoteProof = VoteProof(encoding: int)

  /** A ballot as received. */
  datatype PendingBallot = PendingBallot(processID: ProcessID, voteID: VoteID, address: Option<int>)

  /** A ballot that passed verification; nil pointers are None, and of a census proof only the voter index is kept. */
  datatype VerifiedBallot = VerifiedBallot(
    voteID: VoteID,
    processID: ProcessID,
    address: Option<int>,
    voterWeight: Option<int>,
    encryptedBallot: Ballot,
    inputsHash: Option<int>,
    proof: Option<VoteProof>,
    voterIndex: Option<nat>)

  datatype AggregatorBallot = AggregatorBallot(
    voteID: VoteID,
    address: Option<int>,
    weight: Option<int>,
    encryptedBallot: Ballot,
    voterIndex: Option<nat>)

  /** What the aggregator keeps of a verified ballot. */
  function AsAggregated(b: VerifiedBallot): AggregatorBallot {
    AggregatorBallot(b.voteID, b.address, b.voterWeight, b.encryptedBallot, b.voterIndex)
  }

  /** The key of a verified ballot: the process and the vote. */
  datatype VerifiedKey = VerifiedKey(processID: ProcessID, voteID: VoteID)

  /** A batch of aggregated ballots; `lastAttempt` is None for a batch that never failed. */
  datatype AggregatorBatch = AggregatorBatch(
    processID: ProcessID,
    proof: int,
    ballots: seq<AggregatorBallot>,
    attempts: int,
    lastAttempt: Option<int>)

  /** A proved state transition; `batchID` is the key of the aggregated batch it was made from. */
  datatype TransitionBatch = TransitionBatch(
    processID: ProcessID,
    proof: int,
    ballots: seq<AggregatorBallot>,
    rootBefore: int,
    rootAfter: Option<int>,
    batchID: Option<AggregatorBatch>)

  function VoteIDs(ballots: seq<AggregatorBallot>): set<VoteID> {
    set b | b in ballots :: b.voteID
  }

  /** No two ballots of a batch come from the same address. */
  ghost predicate DistinctAddresses(ballots: seq<AggregatorBallot>) {
    forall i, j :: 0 <= i < j < |ballots| ==> ballots[i].address != ballots[j].address
  }

  ghost predicate DistinctVoteIDs(ballots: seq<AggregatorBallot>) {
    forall i, j :: 0 <= i < j < |ballots| ==> ballots[i].voteID != ballots[j].voteID
  }
}
