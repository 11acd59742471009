/** What staging a batch of votes means for the leaves, the sums and the counters. */
module Staging {
  import opened Wrappers
  import opened Algebra
  import opened Params
  import opened Ballots
  import opened Tree
  import opened Votes
  import opened Blobs

  const CONFIG_KEYS: set<nat> := {KEY_PROCESS_ID, KEY_BALLOT_MODE, KEY_ENCRYPTION_KEY, KEY_RESULTS, KEY_CENSUS_ORIGIN}

  /** The configuration leaves of a new process; the results start at the zero ballot. */
  function Initialized(c: Curve, leaves: Leaves, processID: int, origin: int, mode: int, key: seq<int>): Leaves {
    leaves[KEY_PROCESS_ID := [processID]][KEY_BALLOT_MODE := [mode]][KEY_ENCRYPTION_KEY := key]
      [KEY_RESULTS := BigInts(ZeroBallot(c))][KEY_CENSUS_ORIGIN := [origin]]
  }

  /** What a new process stores, key by key: every coordinate of the results is one of the identity point. */
  lemma ConfigurationIsStored(c: Curve, processID: int, origin: int, mode: int, key: seq<int>, f: nat)
    requires f < 8
    ensures var leaves := Initialized(c, map[], processID, origin, mode, key);
            && leaves.Keys == {0, 2, 3, 4, 6}
            && leaves[0] == [processID] && leaves[2] == [mode] && leaves[3] == key && leaves[6] == [origin]
            && |leaves[4]| == 32
            && leaves[4][4 * f] == c.zero.x && leaves[4][4 * f + 1] == c.zero.y
            && leaves[4][4 * f + 2] == c.zero.x && leaves[4][4 * f + 3] == c.zero.y
  {
    FieldReadsBack(ZeroBallot(c), f);
  }

  /** A vote writes its ballot leaf, then its vote ID leaf. */
  function StageVote(leaves: Leaves, v: Vote): Leaves {
    leaves[v.ballotIndex := TreeLeafValues(v)][v.voteID := VOTE_ID_LEAF]
  }

  function StageVotes(leaves: Leaves, votes: seq<Vote>): Leaves {
    if |votes| == 0 then leaves
    else StageVote(StageVotes(leaves, votes[..|votes| - 1]), votes[|votes| - 1])
  }

  function AllSum(c: Curve, votes: seq<Vote>): Ballot {
    if |votes| == 0 then ZeroBallot(c)
    else AddBallots(c, AllSum(c, votes[..|votes| - 1]), votes[|votes| - 1].reencryptedBallot)
  }

  /** The ballot a vote overwrites, looked up in the leaves the batch started from. */
  function OverwrittenBallot(c: Curve, leaves: Leaves, v: Vote): Ballot {
    match StoredLeaf(leaves, v.ballotIndex)
    case Some(leaf) => leaf.ballot
    case None => ZeroBallot(c)
  }

  function OverwrittenSum(c: Curve, leaves: Leaves, votes: seq<Vote>): Ballot {
    if |votes| == 0 then ZeroBallot(c)
    else
      var sum := OverwrittenSum(c, leaves, votes[..|votes| - 1]);
      match StoredLeaf(leaves, votes[|votes| - 1].ballotIndex)
      case Some(leaf) => AddBallots(c, sum, leaf.ballot)
      case None => sum
  }

  function OverwrittenCount(leaves: Leaves, votes: seq<Vote>): nat {
    if |votes| == 0 then 0
    else OverwrittenCount(leaves, votes[..|votes| - 1])
         + if StoredLeaf(leaves, votes[|votes| - 1].ballotIndex).Some? then 1 else 0
  }

  /** An overwrite must keep the address and the weight of the stored leaf. */
  predicate MetadataMatches(leaves: Leaves, v: Vote) {
    match StoredLeaf(leaves, v.ballotIndex)
    case Some(leaf) => v.address == Some(leaf.address) && v.weight == Some(leaf.weight)
    case None => true
  }

  /** The vote as kept by the batch: with the ballot it overwrites filled in. */
  function Recorded(c: Curve, leaves: Leaves, v: Vote): Vote {
    v.(overwrittenBallot := Some(OverwrittenBallot(c, leaves, v)))
  }

  function RecordedAll(c: Curve, leaves: Leaves, votes: seq<Vote>): (r: seq<Vote>)
    ensures |r| == |votes|
    ensures forall i :: 0 <= i < |votes| ==> r[i] == Recorded(c, leaves, votes[i])
  {
    seq(|votes|, i requires 0 <= i < |votes| => Recorded(c, leaves, votes[i]))
  }

  /** Old results, plus every ballot of the batch, minus every overwritten one. */
  function NewResults(c: Curve, leaves: Leaves, votes: seq<Vote>, oldResults: Ballot): Ballot {
    AddBallots(c, AddBallots(c, oldResults, AllSum(c, votes)), NegBallot(c, OverwrittenSum(c, leaves, votes)))
  }

  function LeafResults(leaves: Leaves): Result<Ballot, Error> {
    ResultsOf(Tx(leaves, {}))
  }

  /** A full batch, or a vote whose metadata differs from the stored leaf, is refused. */
  lemma Refused(c: Curve, leaves: Leaves, votes: seq<Vote>, i: nat)
    requires i < |votes| && !(i < VOTES_PER_BATCH && MetadataMatches(leaves, votes[i]))
    ensures !Accepts(c, leaves, votes)
  {
  }

  predicate AllMatch(leaves: Leaves, votes: seq<Vote>) {
    forall i :: 0 <= i < |votes| ==> MetadataMatches(leaves, votes[i])
  }

  /** The batches that `PrepareVotesBatch` accepts. */
  predicate Accepts(c: Curve, leaves: Leaves, votes: seq<Vote>) {
    && |votes| <= VOTES_PER_BATCH
    && AllMatch(leaves, votes)
    && LeafResults(StageVotes(leaves, votes)).Ok?
    && Encodable(BatchValues(BatchResults(c, leaves, votes), votes))
  }

  /** A ballot leaf of 34 values keeps the address in the 33rd and the weight in the 34th. */
  predicate HasOwner(values: seq<int>, v: Vote) {
    |values| == 34 && v.address == Some(values[32]) && v.weight == Some(values[33])
  }

  lemma OwnerIsDecoded(values: seq<int>, v: Vote)
    requires |values| == 34
    ensures DecodeLeaf(values).Ok?
    ensures HasOwner(values, v) <==>
            v.address == Some(DecodeLeaf(values).value.address) && v.weight == Some(DecodeLeaf(values).value.weight)
  {
    hide SetBigInts;
  }

  lemma OwnerOfStored(leaves: Leaves, v: Vote)
    ensures v.ballotIndex !in leaves ==> MetadataMatches(leaves, v)
    ensures v.ballotIndex in leaves && |leaves[v.ballotIndex]| == 34 ==>
              (MetadataMatches(leaves, v) <==> HasOwner(leaves[v.ballotIndex], v))
  {
    hide DecodeLeaf;
    if v.ballotIndex in leaves && |leaves[v.ballotIndex]| == 34 {
      OwnerIsDecoded(leaves[v.ballotIndex], v);
    }
  }

  /**
   In terms of the stored values: a batch of up to 60 votes, whose results are
   readable and whose numbers can be committed to, is accepted exactly when every
   vote at a stored index names the address and the weight stored there.
   */
  lemma AcceptedIffOwners(c: Curve, leaves: Leaves, votes: seq<Vote>)
    requires forall i :: 0 <= i < |votes| && votes[i].ballotIndex in leaves ==> |leaves[votes[i].ballotIndex]| == 34
    requires |votes| <= 60 && LeafResults(StageVotes(leaves, votes)).Ok?
    requires Committable(BatchResults(c, leaves, votes), votes)
    ensures Accepts(c, leaves, votes) <==>
            forall i :: 0 <= i < |votes| && votes[i].ballotIndex in leaves ==> HasOwner(leaves[votes[i].ballotIndex], votes[i])
  {
    hide DecodeLeaf, HasOwner, StageVotes, LeafResults, BatchResults, Encodable, Committable;
    EncodableMeans(BatchResults(c, leaves, votes), votes);
    forall i | 0 <= i < |votes|
      ensures MetadataMatches(leaves, votes[i]) <==>
              (votes[i].ballotIndex in leaves ==> HasOwner(leaves[votes[i].ballotIndex], votes[i]))
    {
      OwnerOfStored(leaves, votes[i]);
    }
  }

  /** What a vote writes: its ballot's coordinates field by field, its address, its weight. */
  lemma LeafPositions(v: Vote, f: nat)
    requires f < FIELDS_PER_BALLOT
    ensures var values, ct := TreeLeafValues(v), v.reencryptedBallot[f];
            && |values| == 34
            && values[4 * f] == ct.c1.x && values[4 * f + 1] == ct.c1.y
            && values[4 * f + 2] == ct.c2.x && values[4 * f + 3] == ct.c2.y
            && (v.address.Some? ==> values[32] == v.address.value) && (v.weight.Some? ==> values[33] == v.weight.value)
  {
    FieldReadsBack(v.reencryptedBallot, f);
  }

  /** The results a batch stages. */
  function BatchResults(c: Curve, leaves: Leaves, votes: seq<Vote>): Ballot
    requires LeafResults(StageVotes(leaves, votes)).Ok?
  {
    NewResults(c, leaves, votes, LeafResults(StageVotes(leaves, votes)).value)
  }

  /** The leaves once a batch is committed. */
  function After(c: Curve, leaves: Leaves, votes: seq<Vote>): Leaves
    requires LeafResults(StageVotes(leaves, votes)).Ok?
  {
    StageVotes(leaves, votes)[KEY_RESULTS := BigInts(BatchResults(c, leaves, votes))]
  }

  lemma CountStep(leaves: Leaves, vs: seq<Vote>, v: Vote)
    ensures OverwrittenCount(leaves, vs + [v]) ==
            OverwrittenCount(leaves, vs) + if StoredLeaf(leaves, v.ballotIndex).Some? then 1 else 0
  {
    hide StoredLeaf;
    assert (vs + [v])[..|vs|] == vs;
  }

  lemma SumsStep(c: Curve, leaves: Leaves, vs: seq<Vote>, v: Vote)
    ensures AllSum(c, vs + [v]) == AddBallots(c, AllSum(c, vs), v.reencryptedBallot)
    ensures OverwrittenSum(c, leaves, vs + [v]) ==
            match StoredLeaf(leaves, v.ballotIndex)
            case Some(leaf) => AddBallots(c, OverwrittenSum(c, leaves, vs), leaf.ballot)
            case None => OverwrittenSum(c, leaves, vs)
  {
    hide AddBallots, StoredLeaf;
    assert (vs + [v])[..|vs|] == vs;
  }

  /** One more vote moves each sum and counter by that vote alone. */
  lemma AccountingStep(c: Curve, leaves: Leaves, vs: seq<Vote>, v: Vote)
    ensures AllSum(c, vs + [v]) == AddBallots(c, AllSum(c, vs), v.reencryptedBallot)
    ensures OverwrittenSum(c, leaves, vs + [v]) ==
            match StoredLeaf(leaves, v.ballotIndex)
            case Some(leaf) => AddBallots(c, OverwrittenSum(c, leaves, vs), leaf.ballot)
            case None => OverwrittenSum(c, leaves, vs)
    ensures OverwrittenCount(leaves, vs + [v]) ==
            OverwrittenCount(leaves, vs) + if StoredLeaf(leaves, v.ballotIndex).Some? then 1 else 0
    ensures RecordedAll(c, leaves, vs + [v]) == RecordedAll(c, leaves, vs) + [Recorded(c, leaves, v)]
  {
    hide AddBallots, StoredLeaf, Recorded, OverwrittenSum, AllSum, OverwrittenCount;
    CountStep(leaves, vs, v);
    SumsStep(c, leaves, vs, v);
  }

  lemma RecordedLeaf(c: Curve, leaves: Leaves, v: Vote)
    ensures TreeLeafValues(Recorded(c, leaves, v)) == TreeLeafValues(v)
  {
  }

  lemma StageNone(leaves: Leaves)
    ensures StageVotes(leaves, []) == leaves
  {
  }

  lemma StageStep(leaves: Leaves, votes: seq<Vote>, n: nat)
    requires n < |votes|
    ensures StageVotes(leaves, votes[..n + 1]) == StageVote(StageVotes(leaves, votes[..n]), votes[n])
  {
    hide StageVote;
    assert votes[..n + 1][..n] == votes[..n];
  }

  /** Filling in overwritten ballots changes neither what is staged nor what is encoded. */
  lemma {:induction false} RecordingIsNeutral(c: Curve, leaves: Leaves, from: Leaves, votes: seq<Vote>)
    ensures StageVotes(leaves, RecordedAll(c, from, votes)) == StageVotes(leaves, votes)
    ensures VotesValues(RecordedAll(c, from, votes)) == VotesValues(votes)
  {
    var r := RecordedAll(c, from, votes);
    if |votes| > 0 {
      var n := |votes| - 1;
      RecordingIsNeutral(c, leaves, from, votes[..n]);
      assert r[..n] == RecordedAll(c, from, votes[..n]);
      assert r[n] == Recorded(c, from, votes[n]);
      assert VoteValues(r[n]) == VoteValues(votes[n]);
    }
  }

  lemma SameValues(c: Curve, from: Leaves, votes: seq<Vote>, results: Ballot)
    ensures BatchValues(results, RecordedAll(c, from, votes)) == BatchValues(results, votes)
  {
    RecordingIsNeutral(c, from, from, votes);
  }

  // The chain of Merkle transitions

  /** A vote's slot writes its two leaves; a padding slot keeps the root. */
  ghost predicate Slot(leaves: Leaves, votes: seq<Vote>, i: nat, ballot: Transition, voteID: Transition) {
    if i < |votes| then
      var from := StageVotes(leaves, votes[..i]);
      && Writes(ballot, from, votes[i].ballotIndex, TreeLeafValues(votes[i]))
      && Writes(voteID, from[votes[i].ballotIndex := TreeLeafValues(votes[i])], votes[i].voteID, VOTE_ID_LEAF)
    else
      ballot == voteID == FromNoop(Root(StageVotes(leaves, votes)))
  }

  /** The transitions of a batch, slot by slot. */
  ghost predicate Chain(leaves: Leaves, votes: seq<Vote>, ballots: seq<Transition>, voteIDs: seq<Transition>) {
    && |ballots| == |voteIDs|
    && (forall i :: 0 <= i < |ballots| ==> Slot(leaves, votes, i, ballots[i], voteIDs[i]))
  }

  /** The transitions in the order the circuit consumes them. */
  function CircuitOrder(ballots: seq<Transition>, voteIDs: seq<Transition>, results: Transition): (r: seq<Transition>)
    requires |ballots| == |voteIDs|
    ensures |r| == 2 * |ballots| + 1
  {
    seq(2 * |ballots| + 1, i requires 0 <= i < 2 * |ballots| + 1 =>
      if i == 2 * |ballots| then results
      else if i % 2 == 0 then ballots[i / 2] else voteIDs[i / 2])
  }

  /** Each transition starts at the root where the previous one ended. */
  ghost predicate Linked(ts: seq<Transition>, first: Root, last: Root) {
    && |ts| > 0
    && ts[0].oldRoot == first
    && ts[|ts| - 1].newRoot == last
    && (forall i :: 0 < i < |ts| ==> ts[i].oldRoot == ts[i - 1].newRoot)
  }

  /** The root a slot starts from: after the votes before it, or after all of them. */
  function SlotRoot(leaves: Leaves, votes: seq<Vote>, i: nat): Root {
    Root(StageVotes(leaves, if i < |votes| then votes[..i] else votes))
  }

  lemma SlotRoots(leaves: Leaves, votes: seq<Vote>, ballots: seq<Transition>, voteIDs: seq<Transition>, i: nat)
    requires Chain(leaves, votes, ballots, voteIDs) && i < |ballots|
    ensures ballots[i].oldRoot == SlotRoot(leaves, votes, i)
    ensures ballots[i].newRoot == voteIDs[i].oldRoot
    ensures voteIDs[i].newRoot == SlotRoot(leaves, votes, i + 1)
  {
    assert Slot(leaves, votes, i, ballots[i], voteIDs[i]);
    if i < |votes| {
      StageStep(leaves, votes, i);
      if i + 1 == |votes| {
        assert votes[..i + 1] == votes;
      }
    }
  }

  lemma OrderAt(ballots: seq<Transition>, voteIDs: seq<Transition>, results: Transition, k: nat)
    requires |ballots| == |voteIDs| && k < |ballots|
    ensures CircuitOrder(ballots, voteIDs, results)[2 * k] == ballots[k]
    ensures CircuitOrder(ballots, voteIDs, results)[2 * k + 1] == voteIDs[k]
    ensures CircuitOrder(ballots, voteIDs, results)[2 * |ballots|] == results
  {
  }

  lemma LinkAt(leaves: Leaves, votes: seq<Vote>,
               ballots: seq<Transition>, voteIDs: seq<Transition>, results: Transition, i: nat)
    requires Chain(leaves, votes, ballots, voteIDs) && |ballots| == |voteIDs| && 0 < i <= 2 * |ballots|
    requires results.oldRoot == SlotRoot(leaves, votes, |ballots|)
    ensures var ts := CircuitOrder(ballots, voteIDs, results);
            ts[i].oldRoot == ts[i - 1].newRoot
  {
    hide CircuitOrder, Chain, SlotRoot;
    var k := (i - 1) / 2;
    SlotRoots(leaves, votes, ballots, voteIDs, k);
    OrderAt(ballots, voteIDs, results, k);
    if i == 2 * k + 1 {
    } else if k + 1 < |ballots| {
      SlotRoots(leaves, votes, ballots, voteIDs, k + 1);
      OrderAt(ballots, voteIDs, results, k + 1);
      assert i == 2 * (k + 1);
    } else {
      assert i == 2 * |ballots|;
    }
  }

  /**
   The 2 * 60 + 1 transitions form one chain from the root before the batch
   to the root after it, padding slots included.
   */
  lemma TransitionsAreLinked(leaves: Leaves, votes: seq<Vote>,
                             ballots: seq<Transition>, voteIDs: seq<Transition>,
                             results: Transition, values: seq<int>)
    requires |votes| <= |ballots| == |voteIDs| && |ballots| > 0
    requires Chain(leaves, votes, ballots, voteIDs)
    requires Writes(results, StageVotes(leaves, votes), KEY_RESULTS, values)
    ensures Linked(CircuitOrder(ballots, voteIDs, results),
                   Root(leaves), Root(StageVotes(leaves, votes)[KEY_RESULTS := values]))
  {
    var ts := CircuitOrder(ballots, voteIDs, results);
    hide CircuitOrder, Chain, StageVotes;
    StageNone(leaves);
    SlotRoots(leaves, votes, ballots, voteIDs, 0);
    OrderAt(ballots, voteIDs, results, 0);
    assert |votes| > 0 ==> votes[..0] == [];
    forall i | 0 < i < |ts| ensures ts[i].oldRoot == ts[i - 1].newRoot {
      LinkAt(leaves, votes, ballots, voteIDs, results, i);
    }
  }
}
