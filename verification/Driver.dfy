/** From an aggregated batch to a committed state, and from there to the published results. */
module Driver {
  import opened Wrappers
  import opened Algebra
  import opened Params
  import opened Ballots
  import opened Tree
  import opened Votes
  import opened Staging
  import opened BatchState
  import opened TallyInvariant
  import opened CircuitChecks
  import Runs
  import opened Elgamal
  import opened Finalizer
  import opened Queues
  import Protocol
  import Safety

  /** The vote of one aggregated ballot, re-encrypted with the k of its position. */
  function VoteOf(c: Curve, gen: Point, key: Point, hash: Hash, b: AggregatorBallot, k: nat): Vote
    requires b.voterIndex.Some? && b.voterIndex.value <= VOTER_INDEX_MAX
  {
    Vote(b.address, CalculateBallotIndex(b.voterIndex.value).value, b.voteID, Some(b.encryptedBallot), None, b.weight,
         Reencrypted(c, gen, key, hash, b.encryptedBallot, k))
  }

  lemma IteratedNone(hash: Hash, k: nat)
    ensures Iterated(hash, k, 0) == k
  {
  }

  lemma IteratedStep(hash: Hash, k: nat, n: nat)
    ensures Iterated(hash, k, n + 1) == hash(Iterated(hash, k, n))
  {
  }

  predicate HasVoter(b: AggregatorBallot) {
    b.voterIndex.Some? && b.voterIndex.value <= VOTER_INDEX_MAX
  }

  /** What becomes of a batch: its votes, an error, or the panic of a voter index out of range. */
  datatype Reencryption = Votes(votes: seq<Vote>) | Refusal(error: string) | Panic

  /** Position i holds the first ballot without a usable voter index. */
  predicate FirstWithoutVoter(ballots: seq<AggregatorBallot>, i: nat) {
    i < |ballots| && !HasVoter(ballots[i]) && forall j :: 0 <= j < i ==> HasVoter(ballots[j])
  }

  /** Everything but the re-encrypted ballot is taken over, and the index is the voter's. */
  predicate SameVote(b: AggregatorBallot, v: Vote) {
    && v.voteID == b.voteID && v.address == b.address && v.weight == b.weight
    && v.ballot == Some(b.encryptedBallot) && v.overwrittenBallot == None
    && b.voterIndex.Some? && v.ballotIndex == 16 + b.voterIndex.value
  }

  lemma VotesAreSame(c: Curve, gen: Point, key: Point, hash: Hash, kSeed: nat, ballots: seq<AggregatorBallot>, votes: seq<Vote>)
    requires AreVotesOf(c, gen, key, hash, kSeed, ballots, votes)
    ensures forall i :: 0 <= i < |ballots| ==> SameVote(ballots[i], votes[i])
  {
    hide Reencrypted, Iterated;
    forall i | 0 <= i < |ballots| ensures SameVote(ballots[i], votes[i]) {
      assert HasVoter(ballots[i]);
    }
  }

  lemma VotesAreMoved(c: Curve, gen: Point, key: Point, hash: Hash, kSeed: nat, ballots: seq<AggregatorBallot>, votes: seq<Vote>)
    requires c.Lawful() && c.has(gen) && c.has(key) && AreVotesOf(c, gen, key, hash, kSeed, ballots, votes)
    ensures forall i, j :: 0 <= i < |ballots| && 0 <= j < FIELDS_PER_BALLOT ==>
              Moved(c, gen, key, ballots[i].encryptedBallot[j], Iterated(hash, kSeed, i + j + 1), votes[i].reencryptedBallot[j])
  {
    hide Reencrypted, Iterated, Moved;
    forall i, j | 0 <= i < |ballots| && 0 <= j < FIELDS_PER_BALLOT
      ensures Moved(c, gen, key, ballots[i].encryptedBallot[j], Iterated(hash, kSeed, i + j + 1), votes[i].reencryptedBallot[j])
    {
      assert HasVoter(ballots[i]);
      var k := Iterated(hash, kSeed, i);
      ReencryptionMoves(c, gen, key, hash, ballots[i].encryptedBallot, k);
      IteratedTwice(hash, kSeed, i, j + 1);
    }
  }

  lemma OneIsFirst(ballots: seq<AggregatorBallot>, i: nat)
    requires i < |ballots| && !HasVoter(ballots[i]) && forall j :: 0 <= j < i ==> HasVoter(ballots[j])
    ensures forall j: nat :: FirstWithoutVoter(ballots, j) <==> j == i
  {
  }

  /**
   Re-encrypts in order, each ballot with the hash of the k before it. The first
   ballot without a usable voter index decides: none is an error, one too large panics.
   */
  method ReencryptVotes(c: Curve, gen: Point, key: Point, hash: Hash, kSeed: nat, ballots: seq<AggregatorBallot>)
    returns (r: Reencryption)
    ensures r.Votes? <==> forall i :: 0 <= i < |ballots| ==> HasVoter(ballots[i])
    ensures r.Votes? ==> AreVotesOf(c, gen, key, hash, kSeed, ballots, r.votes)
    ensures r.Votes? ==> |r.votes| == |ballots| && forall i :: 0 <= i < |ballots| ==> SameVote(ballots[i], r.votes[i])
    ensures r.Votes? && c.Lawful() && c.has(gen) && c.has(key) ==>
              forall i, j :: 0 <= i < |ballots| && 0 <= j < FIELDS_PER_BALLOT ==>
                Moved(c, gen, key, ballots[i].encryptedBallot[j], Iterated(hash, kSeed, i + j + 1),
                      r.votes[i].reencryptedBallot[j])
    ensures r.Refusal? <==> exists i: nat :: FirstWithoutVoter(ballots, i) && ballots[i].voterIndex.None?
    ensures r.Panic? <==> exists i: nat :: FirstWithoutVoter(ballots, i) && ballots[i].voterIndex.Some?
  {
    hide Reencrypted, Iterated, CalculateBallotIndex;
    IteratedNone(hash, kSeed);
    var votes: seq<Vote> := [];
    var lastK := kSeed;
    for i := 0 to |ballots|
      invariant |votes| == i && lastK == Iterated(hash, kSeed, i)
      invariant forall j :: 0 <= j < i ==> HasVoter(ballots[j])
      invariant forall j :: 0 <= j < i ==> votes[j] == VoteOf(c, gen, key, hash, ballots[j], Iterated(hash, kSeed, j))
    {
      var v := ballots[i];
      if v.voterIndex.None? {
        OneIsFirst(ballots, i);
        return Refusal("missing census proof");
      }
      var ballot, used := Reencrypt(c, gen, key, hash, v.encryptedBallot, lastK);
      BallotIndexBijection(v.voterIndex.value, 0, 0);
      var index := CalculateBallotIndex(v.voterIndex.value);
      if index.Err? {
        OneIsFirst(ballots, i);
        return Panic;
      }
      IteratedStep(hash, kSeed, i);
      lastK := used;
      votes := votes + [Vote(v.address, index.value, v.voteID, Some(v.encryptedBallot), None, v.weight, ballot)];
    }
    r := Votes(votes);
    VotesAreSame(c, gen, key, hash, kSeed, ballots, votes);
    if c.Lawful() && c.has(gen) && c.has(key) {
      VotesAreMoved(c, gen, key, hash, kSeed, ballots, votes);
    }
  }

  /** Each address has its own voter index. */
  ghost predicate Census(census: Option<int> -> nat, ballots: seq<AggregatorBallot>) {
    && (forall a, b :: census(a) == census(b) ==> a == b)
    && (forall i :: 0 <= i < |ballots| ==> ballots[i].voterIndex == Some(census(ballots[i].address)))
  }

  ghost predicate AreVotesOf(c: Curve, gen: Point, key: Point, hash: Hash, kSeed: nat,
                             ballots: seq<AggregatorBallot>, votes: seq<Vote>) {
    && |votes| == |ballots|
    && (forall i :: 0 <= i < |ballots| ==>
          HasVoter(ballots[i]) && votes[i] == VoteOf(c, gen, key, hash, ballots[i], Iterated(hash, kSeed, i)))
  }

  /** Distinct addresses become distinct ballot indices. */
  lemma IndicesAreDistinct(c: Curve, gen: Point, key: Point, hash: Hash, kSeed: nat, census: Option<int> -> nat,
                           ballots: seq<AggregatorBallot>, votes: seq<Vote>)
    requires DistinctAddresses(ballots) && Census(census, ballots)
    requires AreVotesOf(c, gen, key, hash, kSeed, ballots, votes)
    ensures DistinctIndices(votes)
  {
    hide Reencrypted, Iterated;
    forall i, j | 0 <= i < j < |votes| ensures votes[i].ballotIndex != votes[j].ballotIndex {
      assert ballots[i].address != ballots[j].address;
      assert HasVoter(ballots[i]) && HasVoter(ballots[j]);
      BallotIndexBijection(ballots[i].voterIndex.value, ballots[j].voterIndex.value, 0);
    }
  }

  /** Re-encrypted votes have keys in range and stay on the curve. */
  lemma VotesAreWellFormed(c: Curve, gen: Point, d: nat, hash: Hash, kSeed: nat,
                           ballots: seq<AggregatorBallot>, votes: seq<Vote>)
    requires c.Lawful() && c.has(gen) && AreVotesOf(c, gen, Times(c, d, gen), hash, kSeed, ballots, votes)
    requires forall b :: b in ballots ==> OnCurve(c, b.encryptedBallot) && ValidVoteID(b.voteID)
    ensures WellFormedVotes(c, votes)
  {
    hide Reencrypted, Iterated, OnCurve, Times;
    forall i | 0 <= i < |votes| ensures WellFormedVote(c, votes[i]) {
      assert ballots[i] in ballots && HasVoter(ballots[i]);
      ReencryptionKeepsPlaintext(c, gen, d, hash, ballots[i].encryptedBallot, Iterated(hash, kSeed, i), 0);
      BallotIndexBijection(ballots[i].voterIndex.value, 0, 0);
    }
  }

  /**
   From the queues to the tally: whatever batch the storage has handed to the
   driver, in whatever run, committing its re-encrypted votes keeps the results
   equal to the sum of the latest ballot of every voter.
   */
  lemma QueuedBatchKeepsTally(nodes: seq<Protocol.Node>, steps: seq<Protocol.Step>, i: nat, batch: AggregatorBatch,
                              c: Curve, gen: Point, d: nat, hash: Hash, kSeed: nat, census: Option<int> -> nat,
                              leaves: Leaves, votes: seq<Vote>)
    requires Protocol.Run(nodes, steps) && i < |nodes| && batch in nodes[i].taken
    requires c.Lawful() && c.has(gen) && Balanced(c, leaves)
    requires Census(census, batch.ballots)
    requires AreVotesOf(c, gen, Times(c, d, gen), hash, kSeed, batch.ballots, votes)
    requires forall b :: b in batch.ballots ==> OnCurve(c, b.encryptedBallot) && ValidVoteID(b.voteID)
    ensures LeafResults(StageVotes(leaves, votes)).Ok?
    ensures Balanced(c, After(c, leaves, votes))
  {
    hide Protocol.Run, DistinctAddresses, Census, AreVotesOf, Balanced, OnCurve, LeafResults, StageVotes, After, Drift,
         Times, WellFormedVotes, DistinctIndices;
    Safety.AddressesAreDistinct(nodes, steps, i);
    IndicesAreDistinct(c, gen, Times(c, d, gen), hash, kSeed, census, batch.ballots, votes);
    VotesAreWellFormed(c, gen, d, hash, kSeed, batch.ballots, votes);
    DistinctIndicesDoNotDrift(c, leaves, votes);
    TallyKeptIffNoDrift(c, leaves, votes);
  }

  /** Stages the batch, and commits it only if its proof verifies; otherwise nothing changes. */
  method ProcessStateTransitionBatch(state: State, votes: seq<Vote>, proofVerifies: bool)
    returns (r: Result<Batch, string>)
    modifies state
    ensures r.Ok? ==> Accepts(state.curve, old(state.leaves), votes)
                      && state.leaves == After(state.curve, old(state.leaves), votes)
                      && Root(state.leaves) in state.stored && old(state.stored) <= state.stored
                      && r.value.committed && r.value.rootHashAfter == Some(Root(state.leaves))
    ensures r.Err? ==> state.leaves == old(state.leaves) && state.stored == old(state.stored)
    ensures r.Ok? <==> Accepts(state.curve, old(state.leaves), votes) && proofVerifies
  {
    hide Accepts, StageVotes, LeafResults, BatchResults, Chain;
    var prepared := state.PrepareVotesBatch(votes);
    if prepared.Err? {
      return Err(prepared.error);
    }
    var batch := prepared.value;
    if !proofVerifies {
      batch.Discard();
      return Err("failed to generate proof");
    }
    var committed := batch.Commit();
    batch.Discard();
    r := Ok(batch);
  }

  /**
   In every state of every run, if the stored messages are within the maximum
   value and the voters within the count, each field of the results decrypts to
   the exact total and within the search bound.
   */
  lemma RunDecryptsWithinBound(c: Curve, gen: Point, d: nat, nodes: seq<Runs.Node>, steps: seq<Runs.Step>, j: nat,
                               i: nat, messages: map<nat, int>, p: Process)
    requires c.Lawful() && c.has(gen) && Runs.Run(c, nodes, steps) && j < |nodes| && i < FIELDS_PER_BALLOT
    requires Messages(c, gen, d, nodes[j].tx.leaves, i, messages)
    requires forall k :: k in messages ==> messages[k] <= p.ballotMode.maxValue
    requires p.votersCount.Some? && |BallotsOf(nodes[j].tx.leaves)| <= p.votersCount.value < UINT64_LIMIT
    requires p.votersCount.value * p.ballotMode.maxValue <= MAX_POSSIBLE_RESULT_CAP
    ensures LeafResults(nodes[j].tx.leaves).Ok?
    ensures 0 <= Total(messages) <= MaxPossibleResult(Some(p))
    ensures Encrypts(c, gen, d, LeafResults(nodes[j].tx.leaves).value[i], Total(messages))
  {
    hide Runs.Run, Messages, Encrypts, MaxPossibleResult, BallotsOf, Total;
    Runs.TallyHoldsOnEveryRun(c, nodes, steps);
    ResultsDecryptWithinBound(c, gen, d, nodes[j].tx.leaves, i, messages, p);
    ReadableResults(c, nodes[j].tx.leaves);
  }
}
