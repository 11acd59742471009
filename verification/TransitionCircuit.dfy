/**
 The state transition circuit over an arbitrary witness: whoever made it, and
 from whatever it was made, what passes its constraints is a sound batch.
 */
module TransitionCircuit {
  import opened Wrappers
  import opened Algebra
  import opened Params
  import opened Ballots
  import opened Tree
  import opened Votes
  import opened Bytes
  import opened Blobs
  import opened Staging
  import opened TallyInvariant
  import opened CircuitChecks
  import opened Replay
  import opened Elgamal

  /** The order of the scalar field of BN254, over which the circuit is written. */
  const FIELD: nat := 0x30644e72_e131a029_b85045b6_8181585d_2833e848_79b97091_43e1f593_f0000001

  /** Everything the prover chooses, public inputs included. */
  datatype Witness = Witness(
    rootBefore: Root,
    rootAfter: Root,
    votersCount: nat,
    overwrittenCount: nat,
    votes: seq<Vote>,
    ballots: seq<Transition>,
    voteIDs: seq<Transition>,
    results: Transition,
    oldResults: Ballot,
    newResults: Ballot)

  /** One vote and one pair of transitions in each slot. */
  predicate Shaped(w: Witness) {
    |w.votes| == |w.ballots| == |w.voteIDs| == VOTES_PER_BATCH
  }

  /** The votes of the slots that the mask of the voters count marks as real. */
  function RealVotes(w: Witness): (r: seq<Vote>)
    ensures |r| <= |w.votes|
  {
    w.votes[..if w.votersCount < |w.votes| then w.votersCount else |w.votes|]
  }

  /**
   What the sparse Merkle tree processor establishes of one transition: it keeps
   the root, or inserts an absent key, or updates a present one whose old leaf
   it shows.
   */
  ghost predicate Processed(t: Transition) {
    var from := t.oldRoot.contents;
    && (t.IsNoop() ==> t.newRoot == t.oldRoot)
    && (t.IsInsert() ==> t.newKey !in from)
    && (t.IsUpdate() ==> t.oldKey == t.newKey && t.newKey in from && t.oldValue == LeafHash(from[t.newKey]))
    && ((t.IsInsert() || t.IsUpdate()) && t.newValue.LeafHash? ==> t.newRoot == Root(from[t.newKey := t.newValue.values]))
  }

  /** The roots form one chain, and each transition is processed. */
  ghost predicate RootsVerified(w: Witness)
    requires Shaped(w)
  {
    && Linked(CircuitOrder(w.ballots, w.voteIDs, w.results), w.rootBefore, w.rootAfter)
    && (forall i :: 0 <= i < VOTES_PER_BATCH ==> Processed(w.ballots[i]) && Processed(w.voteIDs[i]))
    && Processed(w.results)
  }

  ghost predicate KeysVerified(w: Witness)
    requires Shaped(w)
  {
    && (forall i :: 0 <= i < VOTES_PER_BATCH ==>
          && (!w.ballots[i].IsNoop() ==> w.ballots[i].newKey == w.votes[i].ballotIndex)
          && (!w.voteIDs[i].IsNoop() ==> w.voteIDs[i].newKey == w.votes[i].voteID))
    && (!w.results.IsNoop() ==> w.results.newKey == KEY_RESULTS)
  }

  ghost predicate LeavesVerified(w: Witness)
    requires Shaped(w)
  {
    && (forall i :: 0 <= i < VOTES_PER_BATCH ==>
          && (!w.ballots[i].IsNoop() ==> w.ballots[i].newValue == LeafHash(TreeLeafValues(w.votes[i])))
          && (!w.voteIDs[i].IsNoop() ==> w.voteIDs[i].newValue == LeafHash(VOTE_ID_LEAF)))
    && OverwritesVerified(w.votes, w.ballots)
    && (!w.results.IsNoop() ==> w.results.oldValue == LeafHash(BigInts(w.oldResults))
                                && w.results.newValue == LeafHash(BigInts(w.newResults)))
  }

  predicate InField(values: seq<Value>) {
    forall i :: 0 <= i < |values| ==> values[i].Some? && 0 <= values[i].value < FIELD
  }

  /**
   The constraints of the circuit. The census proofs put the ballot index of a
   real vote into its range, the blob its vote ID; the aggregated proof and the
   re-encryption check make its ballot one of curve points.
   */
  ghost predicate Proved(c: Curve, w: Witness) {
    && Shaped(w)
    && KeysVerified(w)
    && TransitionsVerified(w.votersCount, w.ballots, w.voteIDs, w.results)
    && RootsVerified(w)
    && LeavesVerified(w)
    && WellFormedVotes(c, RealVotes(w))
    && BallotsVerified(c, w.votes, w.ballots, w.oldResults, w.newResults, w.votersCount, w.overwrittenCount)
    && InField(BatchValues(w.newResults, RealVotes(w)))
  }

  // Slot by slot

  /** The root the slot starts from. */
  ghost function RootAt(w: Witness, i: nat): Root
    requires Shaped(w) && i <= VOTES_PER_BATCH
  {
    if i < VOTES_PER_BATCH then w.ballots[i].oldRoot else w.results.oldRoot
  }

  lemma RootsJoin(w: Witness, i: nat)
    requires Shaped(w) && RootsVerified(w) && i < VOTES_PER_BATCH
    ensures RootAt(w, 0) == w.rootBefore && w.results.newRoot == w.rootAfter
    ensures w.ballots[i].newRoot == w.voteIDs[i].oldRoot && w.voteIDs[i].newRoot == RootAt(w, i + 1)
  {
    hide CircuitOrder, Processed;
    var ts := CircuitOrder(w.ballots, w.voteIDs, w.results);
    OrderAt(w.ballots, w.voteIDs, w.results, 0);
    OrderAt(w.ballots, w.voteIDs, w.results, i);
    assert ts[2 * i + 1].oldRoot == ts[2 * i].newRoot && ts[2 * i + 2].oldRoot == ts[2 * i + 1].newRoot;
    if i + 1 < VOTES_PER_BATCH {
      OrderAt(w.ballots, w.voteIDs, w.results, i + 1);
      assert 2 * (i + 1) == 2 * i + 2;
    }
  }

  /** What a slot does to the leaves it starts from. */
  ghost predicate SlotDoes(w: Witness, i: nat)
    requires Shaped(w) && i < VOTES_PER_BATCH
  {
    var from, v := RootAt(w, i).contents, w.votes[i];
    if i < |RealVotes(w)| then
      && RootAt(w, i + 1) == Root(StageVote(from, v))
      && (w.ballots[i].IsInsert() <==> v.ballotIndex !in from)
      && (w.ballots[i].IsUpdate() <==> v.ballotIndex in from)
      && (v.ballotIndex in from ==>
            && v.overwrittenBallot.Some?
            && from[v.ballotIndex] == BigInts(v.overwrittenBallot.value) + [OrZero(v.address), OrZero(v.weight)])
      && v.voteID !in from[v.ballotIndex := TreeLeafValues(v)]
    else RootAt(w, i + 1) == RootAt(w, i) && w.ballots[i].IsNoop()
  }

  lemma SlotsAreSound(c: Curve, w: Witness, i: nat)
    requires Proved(c, w) && i < VOTES_PER_BATCH
    ensures SlotDoes(w, i)
  {
    hide Linked, CircuitOrder, BallotsVerified, WellFormedVotes, InField, BigInts, BatchValues;
    RootsJoin(w, i);
    assert RootAt(w, i) == w.ballots[i].oldRoot;
    assert Processed(w.ballots[i]) && Processed(w.voteIDs[i]);
    assert i < |RealVotes(w)| <==> i < w.votersCount;
  }

  /** The leaves the slot starts from. */
  ghost function LeavesAt(w: Witness, i: nat): Leaves
    requires Shaped(w) && i <= VOTES_PER_BATCH
  {
    RootAt(w, i).contents
  }

  lemma RealIsWellFormed(c: Curve, w: Witness, i: nat)
    requires Proved(c, w) && i < |RealVotes(w)|
    ensures WellFormedVote(c, w.votes[i]) && ValidVoteID(w.votes[i].voteID) && ValidBallotIndex(w.votes[i].ballotIndex)
    ensures OnCurve(c, w.votes[i].reencryptedBallot)
  {
    assert RealVotes(w)[i] == w.votes[i] && WellFormedVote(c, RealVotes(w)[i]);
  }

  /** The chain starts at the leaves before, and stages the real votes in order, with new vote IDs. */
  lemma {:induction false} SlotsStageVotes(c: Curve, w: Witness, n: nat)
    requires Proved(c, w) && n <= VOTES_PER_BATCH
    ensures LeavesAt(w, n) == StageVotes(w.rootBefore.contents, Done(RealVotes(w), n))
    ensures FreshVoteIDs(w.rootBefore.contents, Done(RealVotes(w), n))
  {
    hide Proved, StageVote, FreshVoteIDs, RootAt, Done;
    var leaves, cast := w.rootBefore.contents, RealVotes(w);
    if n == 0 {
      ChainStarts(c, w);
      NothingDone(cast);
      NothingIsFresh(leaves);
    } else {
      SlotsStageVotes(c, w, n - 1);
      SlotsAreSound(c, w, n - 1);
      DoneStep(cast, n - 1);
      if n - 1 < |cast| {
        var done, v := Done(cast, n - 1), w.votes[n - 1];
        assert (done + [v])[..|done + [v]| - 1] == done;
        RealKeysInRange(c, w, n);
        FreshStep(leaves, done + [v]);
        VoteIDIsNoIndex(c, w, n - 1);
      }
    }
  }

  lemma ChainStarts(c: Curve, w: Witness)
    requires Proved(c, w)
    ensures RootAt(w, 0) == w.rootBefore && w.results.newRoot == w.rootAfter
  {
    hide Linked, CircuitOrder, BallotsVerified, WellFormedVotes, InField, BigInts, BatchValues;
    RootsJoin(w, 0);
  }

  lemma RealKeysInRange(c: Curve, w: Witness, n: nat)
    requires Proved(c, w)
    ensures KeysInRange(Done(RealVotes(w), n)) && WellFormedVotes(c, Done(RealVotes(w), n))
  {
    hide OnCurve, BallotsVerified, InField, RootsVerified, LeavesVerified, KeysVerified, TransitionsVerified;
    var cast := RealVotes(w);
    forall i | 0 <= i < |Done(cast, n)| ensures WellFormedVote(c, Done(cast, n)[i]) {
      assert Done(cast, n)[i] == cast[i] && WellFormedVote(c, cast[i]);
    }
  }

  lemma VoteIDIsNoIndex(c: Curve, w: Witness, i: nat)
    requires Proved(c, w) && i < |RealVotes(w)|
    ensures SlotDoes(w, i) ==> w.votes[i].voteID !in LeavesAt(w, i)
  {
    hide Proved, RootAt;
    RealIsWellFormed(c, w, i);
  }

  // The tally

  /** After the first slots: the tally has moved by exactly what they added less what they overwrote. */
  ghost predicate Accounted(c: Curve, w: Witness, n: nat)
    requires Shaped(w) && n <= VOTES_PER_BATCH
  {
    var g := BallotGroup(c);
    var all, over := SlotSum(c, w.votes, w.ballots, n), SlotOverwritten(c, w.votes, w.ballots, n);
    && WellFormed(c, LeavesAt(w, n)) && LeafResults(LeavesAt(w, n)) == LeafResults(w.rootBefore.contents)
    && g.has(all) && g.has(over) && g.has(Tally(c, w.rootBefore.contents))
    && Tally(c, LeavesAt(w, n)) == g.add(Tally(c, w.rootBefore.contents), g.Sub(all, over))
  }

  /** A verified update overwrites exactly the ballot that is stored at that moment; an insert overwrites none. */
  lemma OverwrittenIsCurrent(c: Curve, w: Witness, i: nat)
    requires Shaped(w) && i < |RealVotes(w)| && SlotDoes(w, i) && WellFormed(c, LeavesAt(w, i))
    requires WellFormedVote(c, w.votes[i])
    ensures var g, v := BallotGroup(c), w.votes[i];
            At(g, BallotsOf(LeavesAt(w, i)), v.ballotIndex)
            == if w.ballots[i].IsUpdate() then v.overwrittenBallot.value else g.zero
  {
    hide OnCurve, BigInts, ZeroBallot, RootAt, SetBigInts;
    var from, v := LeavesAt(w, i), w.votes[i];
    if v.ballotIndex in from {
      var written := v.(reencryptedBallot := v.overwrittenBallot.value);
      assert from[v.ballotIndex] == TreeLeafValues(written);
      LeafRoundTrip(written);
    }
  }

  lemma RealSlotAccounts(c: Curve, w: Witness, i: nat)
    requires BallotGroup(c).Lawful() && Shaped(w) && i < |RealVotes(w)| && SlotDoes(w, i)
    requires WellFormedVote(c, w.votes[i]) && Accounted(c, w, i)
    ensures Accounted(c, w, i + 1)
  {
    hide WellFormed, WellFormedVote, OnCurve, AddBallots, NegBallot, ZeroBallot, BallotsOf, LeafResults, Group.Lawful;
    var g, from, v := BallotGroup(c), LeavesAt(w, i), w.votes[i];
    var before, all, over := Tally(c, w.rootBefore.contents), SlotSum(c, w.votes, w.ballots, i), SlotOverwritten(c, w.votes, w.ballots, i);
    var b, o := v.reencryptedBallot, if w.ballots[i].IsUpdate() then v.overwrittenBallot.value else g.zero;
    IndexIsValid(c, v);
    OverwrittenIsCurrent(c, w, i);
    StageVoteEffect(c, from, v);
    StoredBallotIsIn(c, from);
    SumToUpdate(g, BallotsOf(from), v.ballotIndex, b, BALLOT_MAX + 1);
    StoredIsIn(g, BallotsOf(from), v.ballotIndex);
    AccountStep(g, before, all, over, b, o);
    assert SlotSum(c, w.votes, w.ballots, i + 1) == g.add(all, b);
    assert SlotOverwritten(c, w.votes, w.ballots, i + 1) == g.add(over, o);
  }

  lemma StoredIsIn(g: Group<Ballot>, m: map<nat, Ballot>, k: nat)
    requires g.Lawful() && Within(g, m)
    ensures g.has(At(g, m, k))
  {
  }

  lemma AccountStep(g: Group<Ballot>, before: Ballot, all: Ballot, over: Ballot, b: Ballot, o: Ballot)
    requires g.Lawful() && g.has(before) && g.has(all) && g.has(over) && g.has(b) && g.has(o)
    ensures g.has(g.add(all, b)) && g.has(g.add(over, o))
    ensures g.add(g.add(before, g.Sub(all, over)), g.Sub(b, o)) == g.add(before, g.Sub(g.add(all, b), g.add(over, o)))
  {
    SubOfSums(g, all, b, over, o);
    assert g.Associates(before, g.Sub(all, over), g.Sub(b, o));
  }

  lemma PaddingSlotAccounts(c: Curve, w: Witness, i: nat)
    requires BallotGroup(c).Lawful() && Shaped(w) && |RealVotes(w)| <= i < VOTES_PER_BATCH && SlotDoes(w, i)
    requires Accounted(c, w, i)
    ensures Accounted(c, w, i + 1)
  {
    hide WellFormed, OnCurve, AddBallots, NegBallot, ZeroBallot, BallotsOf, LeafResults, Tally;
    var g := BallotGroup(c);
    assert g.Inverts(SlotSum(c, w.votes, w.ballots, i)) && g.Inverts(SlotOverwritten(c, w.votes, w.ballots, i));
  }

  lemma SlotAccounts(c: Curve, w: Witness, i: nat)
    requires BallotGroup(c).Lawful() && Proved(c, w) && i < VOTES_PER_BATCH && Accounted(c, w, i)
    ensures Accounted(c, w, i + 1)
  {
    hide Accounted, SlotDoes, Group.Lawful, BallotGroup, KeysVerified, TransitionsVerified, RootsVerified, LeavesVerified,
         BallotsVerified, InField, WellFormedVotes, WellFormedVote;
    SlotsAreSound(c, w, i);
    if i < |RealVotes(w)| {
      RealIsWellFormed(c, w, i);
      RealSlotAccounts(c, w, i);
    } else {
      PaddingSlotAccounts(c, w, i);
    }
  }

  lemma {:induction false} SlotsAccount(c: Curve, w: Witness, n: nat)
    requires BallotGroup(c).Lawful() && Proved(c, w) && WellFormed(c, w.rootBefore.contents) && n <= VOTES_PER_BATCH
    ensures Accounted(c, w, n)
  {
    hide Accounted, WellFormed, Group.Lawful, BallotGroup, KeysVerified, TransitionsVerified, RootsVerified, LeavesVerified,
         BallotsVerified, InField, WellFormedVotes;
    if n == 0 {
      NothingAccounted(c, w);
    } else {
      SlotsAccount(c, w, n - 1);
      SlotAccounts(c, w, n - 1);
    }
  }

  lemma NothingAccounted(c: Curve, w: Witness)
    requires BallotGroup(c).Lawful() && Proved(c, w) && WellFormed(c, w.rootBefore.contents)
    ensures Accounted(c, w, 0)
  {
    hide RootAt, WellFormed, OnCurve, AddBallots, NegBallot, ZeroBallot, LeafResults, Tally, KeysVerified, TransitionsVerified,
         RootsVerified, LeavesVerified, BallotsVerified, InField, WellFormedVotes;
    ChainStarts(c, w);
    var g := BallotGroup(c);
    TallyIsIn(c, w.rootBefore.contents);
    assert g.Inverts(g.zero) && g.Inverts(Tally(c, w.rootBefore.contents));
  }

  /** The results transition replaces the very results the witness claims to start from. */
  lemma ResultsAreReplaced(c: Curve, w: Witness)
    requires Proved(c, w)
    ensures LeafResults(LeavesAt(w, VOTES_PER_BATCH)) == Ok(w.oldResults)
    ensures w.rootAfter.contents == LeavesAt(w, VOTES_PER_BATCH)[KEY_RESULTS := BigInts(w.newResults)]
    ensures w.newResults == AddBallots(c, w.oldResults, BallotGroup(c).Sub(SlotSum(c, w.votes, w.ballots, VOTES_PER_BATCH),
                                                                         SlotOverwritten(c, w.votes, w.ballots, VOTES_PER_BATCH)))
  {
    ChainStarts(c, w);
    hide Linked, CircuitOrder, WellFormedVotes, InField, BigInts, SetBigInts, BatchValues, SlotSum, SlotOverwritten, AddBallots;
    assert Processed(w.results) && w.results.IsUpdate();
    CoordinatesRoundTrip(w.oldResults, BigInts(w.oldResults));
  }

  /**
   Whatever batch passes the circuit, made by anyone from anything, turns a
   balanced state into a balanced one: the real votes are staged on it in order,
   and the results it writes are the sum of the latest ballot of every voter.
   Neither the overwritten ballots nor the results are trusted, and a ballot
   index may be used twice.
   */
  lemma CircuitProtectsTally(c: Curve, w: Witness)
    requires c.Lawful() && Proved(c, w) && Balanced(c, w.rootBefore.contents)
    ensures w.rootAfter.contents == StageVotes(w.rootBefore.contents, RealVotes(w))[KEY_RESULTS := BigInts(w.newResults)]
    ensures Balanced(c, w.rootAfter.contents) && LeafResults(w.rootAfter.contents) == Ok(w.newResults)
  {
    assert Shaped(w) && Done(RealVotes(w), VOTES_PER_BATCH) == RealVotes(w);
    hide Proved, RootAt, WellFormed, OnCurve, AddBallots, NegBallot, ZeroBallot, BallotsOf, LeafResults, SlotSum, SlotOverwritten,
         StageVotes;
    BallotsAreLawful(c);
    SlotsStageVotes(c, w, VOTES_PER_BATCH);
    SlotsAccount(c, w, VOTES_PER_BATCH);
    ResultsAreReplaced(c, w);
    TallyIsIn(c, LeavesAt(w, VOTES_PER_BATCH));
    ResultsWriteEffect(c, LeavesAt(w, VOTES_PER_BATCH), w.newResults);
  }

  lemma TallyIsIn(c: Curve, leaves: Leaves)
    requires BallotGroup(c).Lawful() && WellFormed(c, leaves)
    ensures OnCurve(c, Tally(c, leaves))
  {
    hide WellFormed, OnCurve, BallotsOf, AddBallots, NegBallot, ZeroBallot;
    StoredBallotIsIn(c, leaves);
    SumToIsIn(BallotGroup(c), BallotsOf(leaves), BALLOT_MAX + 1);
    assert BallotGroup(c).has(Tally(c, leaves));
  }

  // Vote IDs, voters and blobs

  /** The vote IDs of a batch that passes the circuit are new and pairwise distinct. */
  lemma ProvedVoteIDsAreFresh(c: Curve, w: Witness)
    requires Proved(c, w)
    ensures FreshVoteIDs(w.rootBefore.contents, RealVotes(w)) && KeysInRange(RealVotes(w))
  {
    assert Shaped(w) && Done(RealVotes(w), VOTES_PER_BATCH) == RealVotes(w);
    SlotsStageVotes(c, w, VOTES_PER_BATCH);
    RealKeysInRange(c, w, VOTES_PER_BATCH);
  }

  lemma SlotKeepsVoters(c: Curve, w: Witness, i: nat)
    requires Shaped(w) && i < |RealVotes(w)| && SlotDoes(w, i) && WellFormedVote(c, w.votes[i])
    ensures KeepsVoters(LeavesAt(w, i), LeavesAt(w, i + 1))
  {
    hide OnCurve, BigInts, RootAt, DecodeLeaf;
    var from, v := LeavesAt(w, i), w.votes[i];
    LeafRoundTrip(v);
    if v.ballotIndex in from {
      var written := v.(reencryptedBallot := v.overwrittenBallot.value);
      assert from[v.ballotIndex] == TreeLeafValues(written);
      LeafRoundTrip(written);
    }
  }

  lemma {:induction false} SlotsKeepVoters(c: Curve, w: Witness, n: nat)
    requires Proved(c, w) && n <= VOTES_PER_BATCH
    ensures KeepsVoters(w.rootBefore.contents, LeavesAt(w, n))
  {
    hide KeysVerified, TransitionsVerified, RootsVerified, LeavesVerified, BallotsVerified, InField, WellFormedVotes, StoredLeaf,
         SlotDoes, WellFormedVote, RootAt;
    if n == 0 {
      ChainStarts(c, w);
    } else {
      SlotsKeepVoters(c, w, n - 1);
      SlotsAreSound(c, w, n - 1);
      if n - 1 < |RealVotes(w)| {
        RealIsWellFormed(c, w, n - 1);
        SlotKeepsVoters(c, w, n - 1);
      } else {
        PaddingStays(w, n - 1);
      }
    }
  }

  lemma PaddingStays(w: Witness, i: nat)
    requires Shaped(w) && |RealVotes(w)| <= i < VOTES_PER_BATCH && SlotDoes(w, i)
    ensures LeavesAt(w, i + 1) == LeavesAt(w, i)
  {
  }

  /** A batch that passes the circuit removes no voter and changes no stored address or weight. */
  lemma ProvedBatchKeepsVoters(c: Curve, w: Witness)
    requires Proved(c, w)
    ensures KeepsVoters(w.rootBefore.contents, w.rootAfter.contents)
  {
    assert Shaped(w);
    hide Proved, LeafResults, RootAt, StoredLeaf, BigInts, AddBallots, SlotSum, SlotOverwritten;
    SlotsKeepVoters(c, w, VOTES_PER_BATCH);
    ResultsAreReplaced(c, w);
    ResultsAreNoVoter(LeavesAt(w, VOTES_PER_BATCH), BigInts(w.newResults));
  }

  lemma ResultsAreNoVoter(leaves: Leaves, values: seq<int>)
    ensures forall k :: ValidBallotIndex(k) ==> StoredLeaf(leaves[KEY_RESULTS := values], k) == StoredLeaf(leaves, k)
  {
    hide DecodeLeaf;
  }

  /** Its values fit a blob that can be committed to. */
  lemma ProvedBatchIsEncodable(c: Curve, w: Witness)
    requires Proved(c, w)
    ensures |RealVotes(w)| <= VOTES_PER_BATCH && Encodable(BatchValues(w.newResults, RealVotes(w)))
  {
    hide KeysVerified, TransitionsVerified, RootsVerified, LeavesVerified, BallotsVerified, WellFormedVotes, BatchValues;
    var values := BatchValues(w.newResults, RealVotes(w));
    BatchFitsBlob(w.newResults, RealVotes(w));
    forall x | x in values ensures Pushable(x) && x.value < BLS_MODULUS {
      var i :| 0 <= i < |values| && values[i] == x;
      BitLenBelow(x.value);
    }
  }

  /** The blob the circuit binds the proof to. */
  ghost function BlobOfProof(c: Curve, w: Witness): Blob
    requires Proved(c, w)
  {
    ProvedBatchIsEncodable(c, w);
    BlobOf(BatchValues(w.newResults, RealVotes(w)))
  }

  lemma BalancedIsReadable(c: Curve, leaves: Leaves)
    requires Balanced(c, leaves)
    ensures Readable(leaves)
  {
    hide OnCurve, Tally;
  }

  /**
   Anyone who has the state before can rebuild a batch that passes the circuit
   from its blob, and ends at its root: the replay never fails.
   */
  lemma ProvedBatchReplays(c: Curve, t: Tx, w: Witness)
    requires c.Lawful() && Proved(c, w) && Balanced(c, w.rootBefore.contents) && w.rootBefore in t.stored
    ensures var r := ReplayFrom(t, w.rootBefore, w.rootAfter, [Some(BlobOfProof(c, w))]);
            r.Ok? && r.value.leaves == w.rootAfter.contents
  {
    hide Proved, Balanced, ReplayFrom, BlobOf, BatchValues, StageVotes, KeysInRange, FreshVoteIDs, Readable, Encodable;
    ProvedBatchIsEncodable(c, w);
    CircuitProtectsTally(c, w);
    ProvedVoteIDsAreFresh(c, w);
    BalancedIsReadable(c, w.rootBefore.contents);
    ReplayReaches(t, w.rootBefore.contents, RealVotes(w), w.newResults);
  }

  // Re-encryption

  /** Each real ballot is re-encrypted with the hash chain of the prover's k. */
  ghost predicate ReencryptionVerified(c: Curve, gen: Point, key: Point, hash: Hash, k: nat, w: Witness) {
    forall i :: 0 <= i < |RealVotes(w)| ==>
      && w.votes[i].ballot.Some?
      && w.votes[i].reencryptedBallot == Reencrypted(c, gen, key, hash, w.votes[i].ballot.value, Iterated(hash, k, i))
  }

  /** Whatever k the prover chose, each ballot stays on the curve and says what the voter's ballot says. */
  lemma ReencryptionIsSound(c: Curve, gen: Point, d: nat, hash: Hash, k: nat, w: Witness, i: nat, field: nat)
    requires c.Lawful() && c.has(gen) && ReencryptionVerified(c, gen, Times(c, d, gen), hash, k, w)
    requires i < |RealVotes(w)| && OnCurve(c, w.votes[i].ballot.value) && field < FIELDS_PER_BALLOT
    ensures OnCurve(c, w.votes[i].reencryptedBallot)
    ensures Moved(c, gen, Times(c, d, gen), w.votes[i].ballot.value[field], Iterated(hash, k, i + field + 1),
                  w.votes[i].reencryptedBallot[field])
    ensures PlainPoint(c, d, w.votes[i].reencryptedBallot[field]) == PlainPoint(c, d, w.votes[i].ballot.value[field])
  {
    hide OnCurve, Times, PlainPoint, Reencrypted, Iterated;
    TimesIsIn(c, d, gen);
    ReencryptionMoves(c, gen, Times(c, d, gen), hash, w.votes[i].ballot.value, Iterated(hash, k, i));
    IteratedTwice(hash, k, i, field + 1);
    ReencryptionKeepsPlaintext(c, gen, d, hash, w.votes[i].ballot.value, Iterated(hash, k, i), field);
  }

  // Completeness: the witness the code assigns passes the circuit

  /** The witness made from a prepared batch: its transitions and sums, and any votes in the padding slots. */
  function Assigned(c: Curve, leaves: Leaves, votes: seq<Vote>, padding: seq<Vote>,
                    ballots: seq<Transition>, voteIDs: seq<Transition>, results: Transition): Witness
    requires LeafResults(StageVotes(leaves, votes)).Ok?
  {
    Witness(Root(leaves), Root(After(c, leaves, votes)), |votes|, OverwrittenCount(leaves, votes),
            RecordedAll(c, leaves, votes) + padding, ballots, voteIDs, results,
            LeafResults(StageVotes(leaves, votes)).value, BatchResults(c, leaves, votes))
  }

  lemma WritesAreProcessed(t: Transition, leaves: Leaves, key: nat, values: seq<int>)
    requires Writes(t, leaves, key, values)
    ensures Processed(t)
  {
  }

  lemma {:induction false} PaddingAddsNothing(c: Curve, votes: seq<Vote>, padding: seq<Vote>, ballots: seq<Transition>, n: nat)
    requires n <= |ballots| && forall i :: |votes| <= i < |ballots| ==> ballots[i].IsNoop()
    ensures SlotSum(c, votes + padding, ballots, n) == SlotSum(c, votes, ballots, n)
    ensures SlotOverwritten(c, votes + padding, ballots, n) == SlotOverwritten(c, votes, ballots, n)
  {
    hide AddBallots, ZeroBallot;
    if n > 0 {
      PaddingAddsNothing(c, votes, padding, ballots, n - 1);
    }
  }

  /** Every slot of a prepared batch meets the constraints on its keys, roots and leaves. */
  lemma SlotIsAssigned(c: Curve, leaves: Leaves, votes: seq<Vote>, padding: seq<Vote>,
                       ballots: seq<Transition>, voteIDs: seq<Transition>, i: nat)
    requires Chain(leaves, votes, ballots, voteIDs) && i < |ballots| == |votes| + |padding|
    ensures var v := (RecordedAll(c, leaves, votes) + padding)[i];
            && Processed(ballots[i]) && Processed(voteIDs[i])
            && (!ballots[i].IsNoop() ==> ballots[i].newKey == v.ballotIndex && ballots[i].newValue == LeafHash(TreeLeafValues(v)))
            && (!voteIDs[i].IsNoop() ==> voteIDs[i].newKey == v.voteID && voteIDs[i].newValue == LeafHash(VOTE_ID_LEAF))
            && (i >= |votes| ==> ballots[i].IsNoop())
  {
    hide StageVotes, TreeLeafValues, Writes, OverwrittenBallot;
    assert Slot(leaves, votes, i, ballots[i], voteIDs[i]);
    if i < |votes| {
      var from, v := StageVotes(leaves, votes[..i]), votes[i];
      RecordedLeaf(c, leaves, v);
      WritesAreProcessed(ballots[i], from, v.ballotIndex, TreeLeafValues(v));
      WritesAreProcessed(voteIDs[i], from[v.ballotIndex := TreeLeafValues(v)], v.voteID, VOTE_ID_LEAF);
      WritesBind(ballots[i], from, v.ballotIndex, TreeLeafValues(v));
      WritesBind(voteIDs[i], from[v.ballotIndex := TreeLeafValues(v)], v.voteID, VOTE_ID_LEAF);
    }
  }

  lemma WritesBind(t: Transition, leaves: Leaves, key: nat, values: seq<int>)
    requires Writes(t, leaves, key, values)
    ensures t.newKey == key && t.newValue == LeafHash(values) && (t.IsUpdate() ==> t.oldValue == LeafHash(leaves[key]))
    ensures t.oldRoot == Root(leaves) && t.newRoot == Root(leaves[key := values])
  {
  }

  /**
   For an accepted batch with one vote per index whose values are field elements,
   the witness the code assigns passes the circuit exactly when the vote IDs are
   new and pairwise distinct.
   */
  lemma HonestBatchIsProvedIff(c: Curve, leaves: Leaves, votes: seq<Vote>, padding: seq<Vote>,
                               ballots: seq<Transition>, voteIDs: seq<Transition>, results: Transition)
    requires c.Lawful() && WellFormed(c, leaves) && WellFormedVotes(c, votes) && DistinctIndices(votes)
    requires Accepts(c, leaves, votes) && |votes| + |padding| == |ballots| == VOTES_PER_BATCH
    requires Chain(leaves, votes, ballots, voteIDs)
    requires Writes(results, StageVotes(leaves, votes), KEY_RESULTS, BigInts(BatchResults(c, leaves, votes)))
    requires InField(BatchValues(BatchResults(c, leaves, votes), votes))
    ensures Proved(c, Assigned(c, leaves, votes, padding, ballots, voteIDs, results)) <==> FreshVoteIDs(leaves, votes)
  {
    hide Chain, Writes, StageVotes, LeafResults, BatchResults, WellFormed, WellFormedVote, DistinctIndices, FreshVoteIDs,
         RecordedAll, OverwrittenCount, BatchValues, InField, BallotsVerified, OverwritesVerified, TransitionsVerified,
         Linked, CircuitOrder, Processed, Encodable, AllMatch, BigInts, Transition.IsNoop;
    var w := Assigned(c, leaves, votes, padding, ballots, voteIDs, results);
    var recorded := RecordedAll(c, leaves, votes);
    ChainIsPaired(leaves, votes, ballots, voteIDs);
    RealVotesAre(c, leaves, votes, padding, ballots, voteIDs, results);
    TransitionsAreLinked(leaves, votes, ballots, voteIDs, results, BigInts(BatchResults(c, leaves, votes)));
    TransitionsVerifiedIffFresh(c, leaves, votes, ballots, voteIDs, results, BigInts(BatchResults(c, leaves, votes)));
    OverwriteChecksPass(c, leaves, votes, ballots, voteIDs);
    BallotChecksPass(c, leaves, votes, ballots, voteIDs);
    SameValues(c, leaves, votes, BatchResults(c, leaves, votes));
    forall i | 0 <= i < VOTES_PER_BATCH
      ensures Processed(ballots[i]) && Processed(voteIDs[i])
      ensures !ballots[i].IsNoop() ==>
                ballots[i].newKey == w.votes[i].ballotIndex && ballots[i].newValue == LeafHash(TreeLeafValues(w.votes[i]))
      ensures !voteIDs[i].IsNoop() ==>
                voteIDs[i].newKey == w.votes[i].voteID && voteIDs[i].newValue == LeafHash(VOTE_ID_LEAF)
      ensures i >= |votes| ==> ballots[i].IsNoop()
    {
      SlotIsAssigned(c, leaves, votes, padding, ballots, voteIDs, i);
    }
    PaddedChecks(c, leaves, votes, padding, ballots);
    ResultsAreAssigned(c, leaves, votes, results);
  }

  lemma ChainIsPaired(leaves: Leaves, votes: seq<Vote>, ballots: seq<Transition>, voteIDs: seq<Transition>)
    requires Chain(leaves, votes, ballots, voteIDs)
    ensures |ballots| == |voteIDs|
  {
  }

  lemma RealVotesAre(c: Curve, leaves: Leaves, votes: seq<Vote>, padding: seq<Vote>,
                     ballots: seq<Transition>, voteIDs: seq<Transition>, results: Transition)
    requires LeafResults(StageVotes(leaves, votes)).Ok? && WellFormedVotes(c, votes)
    ensures var w := Assigned(c, leaves, votes, padding, ballots, voteIDs, results);
            RealVotes(w) == RecordedAll(c, leaves, votes) && WellFormedVotes(c, RealVotes(w))
  {
    hide OnCurve, OverwrittenBallot, StageVotes, BatchResults;
    var recorded := RecordedAll(c, leaves, votes);
    assert (recorded + padding)[..|votes|] == recorded;
    forall i | 0 <= i < |recorded| ensures WellFormedVote(c, recorded[i]) {
      assert WellFormedVote(c, votes[i]) && recorded[i] == Recorded(c, leaves, votes[i]);
    }
  }

  /** Padding neither adds to the sums nor fails the overwrite check. */
  lemma PaddedChecks(c: Curve, leaves: Leaves, votes: seq<Vote>, padding: seq<Vote>, ballots: seq<Transition>)
    requires OverwritesVerified(RecordedAll(c, leaves, votes), ballots)
    requires forall i :: |votes| <= i < |ballots| ==> ballots[i].IsNoop()
    ensures OverwritesVerified(RecordedAll(c, leaves, votes) + padding, ballots)
    ensures forall was, now, n, m :: BallotsVerified(c, RecordedAll(c, leaves, votes), ballots, was, now, n, m)
                                 ==> BallotsVerified(c, RecordedAll(c, leaves, votes) + padding, ballots, was, now, n, m)
  {
    hide OverwriteVerified, SlotSum, SlotOverwritten, AddBallots, Updates, Inserts;
    var recorded := RecordedAll(c, leaves, votes);
    PaddingAddsNothing(c, recorded, padding, ballots, |ballots|);
    forall i | 0 <= i < |recorded + padding| && i < |ballots| ensures OverwriteVerified(ballots[i], (recorded + padding)[i]) {
      if i >= |votes| {
        NoopOverwritesNothing(ballots[i], (recorded + padding)[i]);
      }
    }
  }

  lemma NoopOverwritesNothing(t: Transition, v: Vote)
    requires t.IsNoop()
    ensures OverwriteVerified(t, v)
  {
  }

  lemma ResultsAreAssigned(c: Curve, leaves: Leaves, votes: seq<Vote>, results: Transition)
    requires LeafResults(StageVotes(leaves, votes)).Ok?
    requires Writes(results, StageVotes(leaves, votes), KEY_RESULTS, BigInts(BatchResults(c, leaves, votes)))
    ensures Processed(results) && results.newKey == KEY_RESULTS
    ensures results.oldValue == LeafHash(BigInts(LeafResults(StageVotes(leaves, votes)).value))
    ensures results.newValue == LeafHash(BigInts(BatchResults(c, leaves, votes)))
  {
    hide StageVotes, BatchResults;
    var staged := StageVotes(leaves, votes);
    WritesAreProcessed(results, staged, KEY_RESULTS, BigInts(BatchResults(c, leaves, votes)));
    CoordinatesRoundTrip(LeafResults(staged).value, staged[KEY_RESULTS]);
  }
}
