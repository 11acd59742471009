/**
 What the state transition circuit asserts about votes, transitions and sums,
 and how the batches this code prepares meet it.
 */
module CircuitChecks {
  import opened Wrappers
  import opened Algebra
  import opened Params
  import opened Ballots
  import opened Tree
  import opened Votes
  import opened Blobs
  import opened Staging
  import opened TallyInvariant

  /** The number of real slots is inserted or updated, vote IDs inserted; padding and results as expected. */
  ghost predicate TransitionsVerified(n: nat, ballots: seq<Transition>, voteIDs: seq<Transition>, results: Transition) {
    && |ballots| == |voteIDs|
    && (forall i :: 0 <= i < |ballots| ==>
          if i < n then (ballots[i].IsInsert() || ballots[i].IsUpdate()) && voteIDs[i].IsInsert()
          else ballots[i].IsNoop() && voteIDs[i].IsNoop())
    && results.IsUpdate()
  }

  /** An updated leaf must be the overwritten ballot with the vote's own address and weight. */
  ghost predicate OverwriteVerified(t: Transition, v: Vote) {
    t.IsUpdate() ==>
      v.overwrittenBallot.Some?
      && t.oldValue == LeafHash(BigInts(v.overwrittenBallot.value) + [OrZero(v.address), OrZero(v.weight)])
  }

  ghost predicate OverwritesVerified(votes: seq<Vote>, ballots: seq<Transition>) {
    forall i :: 0 <= i < |votes| && i < |ballots| ==> OverwriteVerified(ballots[i], votes[i])
  }

  /** The in-circuit sum of all ballots over the first n slots. */
  ghost function SlotSum(c: Curve, votes: seq<Vote>, ballots: seq<Transition>, n: nat): Ballot
    requires n <= |ballots|
  {
    if n == 0 then ZeroBallot(c)
    else
      var t := ballots[n - 1];
      AddBallots(c, SlotSum(c, votes, ballots, n - 1),
                 if (t.IsInsert() || t.IsUpdate()) && n <= |votes| then votes[n - 1].reencryptedBallot else ZeroBallot(c))
  }

  /** The in-circuit sum of overwritten ballots: only updated slots contribute. */
  ghost function SlotOverwritten(c: Curve, votes: seq<Vote>, ballots: seq<Transition>, n: nat): Ballot
    requires n <= |ballots|
  {
    if n == 0 then ZeroBallot(c)
    else
      AddBallots(c, SlotOverwritten(c, votes, ballots, n - 1),
                 if ballots[n - 1].IsUpdate() && n <= |votes| && votes[n - 1].overwrittenBallot.Some?
                 then votes[n - 1].overwrittenBallot.value else ZeroBallot(c))
  }

  ghost function Updates(ballots: seq<Transition>): nat {
    if |ballots| == 0 then 0
    else Updates(ballots[..|ballots| - 1]) + if ballots[|ballots| - 1].IsUpdate() then 1 else 0
  }

  ghost function Inserts(ballots: seq<Transition>): nat {
    if |ballots| == 0 then 0
    else Inserts(ballots[..|ballots| - 1]) + if ballots[|ballots| - 1].IsInsert() then 1 else 0
  }

  /** New results == old results + (all - overwritten), and both counts match the slots. */
  ghost predicate BallotsVerified(c: Curve, votes: seq<Vote>, ballots: seq<Transition>,
                                  oldResults: Ballot, newResults: Ballot, votersCount: nat, overwrittenCount: nat) {
    && newResults == AddBallots(c, oldResults,
                                BallotGroup(c).Sub(SlotSum(c, votes, ballots, |ballots|),
                                                   SlotOverwritten(c, votes, ballots, |ballots|)))
    && votersCount == Inserts(ballots) + Updates(ballots)
    && overwrittenCount == Updates(ballots)
  }

  /** Vote IDs not yet in the state and pairwise distinct. */
  ghost predicate FreshVoteIDs(leaves: Leaves, votes: seq<Vote>) {
    && (forall i :: 0 <= i < |votes| ==> votes[i].voteID !in leaves)
    && (forall i, j :: 0 <= i < j < |votes| ==> votes[i].voteID != votes[j].voteID)
  }

  // Soundness: a verified overwrite cannot drift

  /** A verified update overwrites exactly the ballot held at that moment. */
  lemma VerifiedOverwriteIsCurrent(c: Curve, leaves: Leaves, init: seq<Vote>, v: Vote, t: Transition)
    requires WellFormed(c, leaves) && WellFormedVotes(c, init) && WellFormedVote(c, v)
    requires Writes(t, StageVotes(leaves, init), v.ballotIndex, TreeLeafValues(v))
    requires OverwriteVerified(t, Recorded(c, leaves, v))
    requires v.ballotIndex in StageVotes(leaves, init)
    ensures At(BallotGroup(c), BallotsOf(StageVotes(leaves, init)), v.ballotIndex)
            == At(BallotGroup(c), BallotsOf(leaves), v.ballotIndex)
  {
    hide OnCurve, BigInts, ZeroBallot, SetBigInts;
    var staged := StageVotes(leaves, init);
    var k := v.ballotIndex;
    StagedEffect(c, leaves, init);
    OverwrittenIsStored(c, leaves, v);
    var over := OverwrittenBallot(c, leaves, v);
    var written := v.(reencryptedBallot := over);
    assert staged[k] == TreeLeafValues(written);
    LeafRoundTrip(written);
    assert BallotsOf(staged)[k] == over;
  }

  lemma StagedKeepsKeys(leaves: Leaves, votes: seq<Vote>, k: nat)
    requires LastCast(votes, k).Some?
    ensures k in StageVotes(leaves, votes)
  {
    if votes[|votes| - 1].ballotIndex != k {
      StagedKeepsKeys(leaves, votes[..|votes| - 1], k);
    }
  }

  /**
   If the overwrite check of every slot passes, the batch does not drift,
   repeated indices or not.
   */
  lemma {:induction false} VerifiedOverwritesDoNotDrift(
      c: Curve, leaves: Leaves, votes: seq<Vote>, ballots: seq<Transition>, voteIDs: seq<Transition>)
    requires BallotGroup(c).Lawful() && WellFormed(c, leaves) && WellFormedVotes(c, votes)
    requires |votes| <= |ballots| && Chain(leaves, votes, ballots, voteIDs)
    requires OverwritesVerified(RecordedAll(c, leaves, votes), ballots)
    ensures Drift(c, leaves, votes) == ZeroBallot(c)
  {
    hide WellFormed, WellFormedVote, BallotsOf, OnCurve, AddBallots, NegBallot, ZeroBallot, Writes, OverwriteVerified;
    if |votes| > 0 {
      var n := |votes| - 1;
      var init, v := votes[..n], votes[n];
      ChainPrefix(leaves, votes, ballots, voteIDs, n);
      assert RecordedAll(c, leaves, init) == RecordedAll(c, leaves, votes)[..n];
      VerifiedOverwritesDoNotDrift(c, leaves, init, ballots[..n], voteIDs[..n]);
      if LastCast(init, v.ballotIndex).Some? {
        assert Slot(leaves, votes, n, ballots[n], voteIDs[n]);
        StagedKeepsKeys(leaves, init, v.ballotIndex);
        VerifiedOverwriteIsCurrent(c, leaves, init, v, ballots[n]);
        StagedBallotAt(c, leaves, init, v.ballotIndex);
        var g := BallotGroup(c);
        StoredBallotIsIn(c, leaves);
        assert g.Inverts(At(g, BallotsOf(leaves), v.ballotIndex)) && g.Inverts(g.zero);
      }
    }
  }

  lemma ChainPrefix(leaves: Leaves, votes: seq<Vote>, ballots: seq<Transition>, voteIDs: seq<Transition>, n: nat)
    requires Chain(leaves, votes, ballots, voteIDs) && n <= |votes| && n <= |ballots|
    ensures Chain(leaves, votes[..n], ballots[..n], voteIDs[..n])
  {
    hide Writes, StageVotes, TreeLeafValues;
    forall i | 0 <= i < n ensures Slot(leaves, votes[..n], i, ballots[i], voteIDs[i]) {
      assert Slot(leaves, votes, i, ballots[i], voteIDs[i]);
      assert votes[..n][..i] == votes[..i];
    }
  }

  /**
   A batch accounted by this code, whose own transitions pass the overwrite
   checks, keeps the tally invariant, even if a ballot index got through twice.
   */
  lemma VerifiedBatchKeepsTally(c: Curve, leaves: Leaves, votes: seq<Vote>, ballots: seq<Transition>, voteIDs: seq<Transition>)
    requires c.Lawful() && Balanced(c, leaves) && WellFormedVotes(c, votes)
    requires |votes| <= |ballots| && Chain(leaves, votes, ballots, voteIDs)
    requires OverwritesVerified(RecordedAll(c, leaves, votes), ballots)
    ensures LeafResults(StageVotes(leaves, votes)).Ok? && Balanced(c, After(c, leaves, votes))
  {
    hide WellFormed, WellFormedVote, OnCurve, Chain, OverwritesVerified, Drift, After, LeafResults, Tally;
    BallotsAreLawful(c);
    VerifiedOverwritesDoNotDrift(c, leaves, votes, ballots, voteIDs);
    TallyKeptIffNoDrift(c, leaves, votes);
  }

  // Completeness: distinct indices and fresh vote IDs satisfy the circuit

  /** Which keys the first votes of a batch have written. */
  lemma {:induction false} StagedKeys(leaves: Leaves, votes: seq<Vote>, k: nat)
    ensures k in StageVotes(leaves, votes) <==>
            k in leaves || exists i :: 0 <= i < |votes| && (votes[i].ballotIndex == k || votes[i].voteID == k)
  {
    if |votes| > 0 {
      var init := votes[..|votes| - 1];
      StagedKeys(leaves, init, k);
      assert forall i :: 0 <= i < |init| ==> init[i] == votes[i];
      assert votes[|votes| - 1].ballotIndex == k || votes[|votes| - 1].voteID == k ==> k in StageVotes(leaves, votes);
    }
  }

  lemma {:induction false} StagedKeepsOthers(leaves: Leaves, votes: seq<Vote>, k: nat)
    requires k in leaves && forall i :: 0 <= i < |votes| ==> votes[i].ballotIndex != k && votes[i].voteID != k
    ensures k in StageVotes(leaves, votes) && StageVotes(leaves, votes)[k] == leaves[k]
  {
    if |votes| > 0 {
      var init := votes[..|votes| - 1];
      assert forall i :: 0 <= i < |init| ==> init[i] == votes[i];
      StagedKeepsOthers(leaves, init, k);
    }
  }

  /** With distinct indices a slot updates exactly the votes whose index was stored before the batch. */
  lemma BallotSlotKind(c: Curve, leaves: Leaves, votes: seq<Vote>, i: nat, t: Transition)
    requires WellFormed(c, leaves) && WellFormedVotes(c, votes) && DistinctIndices(votes) && i < |votes|
    requires Writes(t, StageVotes(leaves, votes[..i]), votes[i].ballotIndex, TreeLeafValues(votes[i]))
    ensures t.IsUpdate() <==> votes[i].ballotIndex in leaves
    ensures t.IsInsert() <==> votes[i].ballotIndex !in leaves
    ensures t.IsUpdate() ==> t.oldValue == LeafHash(leaves[votes[i].ballotIndex])
  {
    hide WellFormed, OnCurve, TreeLeafValues;
    var k := votes[i].ballotIndex;
    var before := votes[..i];
    StagedKeys(leaves, before, k);
    forall j | 0 <= j < i ensures before[j].ballotIndex != k && before[j].voteID != k {
      assert WellFormedVote(c, votes[j]) && WellFormedVote(c, votes[i]);
    }
    if k in leaves {
      StagedKeepsOthers(leaves, before, k);
    }
  }

  /** The vote ID of a slot is inserted exactly when it was neither stored nor used earlier in the batch. */
  lemma VoteIDSlotKind(c: Curve, leaves: Leaves, votes: seq<Vote>, i: nat, t: Transition)
    requires WellFormedVotes(c, votes) && i < |votes|
    requires Writes(t, StageVotes(leaves, votes[..i])[votes[i].ballotIndex := TreeLeafValues(votes[i])],
                    votes[i].voteID, VOTE_ID_LEAF)
    ensures t.IsInsert() <==>
            votes[i].voteID !in leaves && forall j :: 0 <= j < i ==> votes[j].voteID != votes[i].voteID
  {
    hide OnCurve, TreeLeafValues;
    var k := votes[i].voteID;
    var before := votes[..i];
    StagedKeys(leaves, before, k);
    assert WellFormedVote(c, votes[i]);
    forall j | 0 <= j < i ensures before[j].ballotIndex != k && before[j] == votes[j] {
      assert WellFormedVote(c, votes[j]);
    }
  }

  /**
   The transition kinds demanded by the circuit are produced exactly when the
   vote IDs are fresh: a repeated or stored vote ID is staged as an update.
   */
  lemma TransitionsVerifiedIffFresh(c: Curve, leaves: Leaves, votes: seq<Vote>,
                                    ballots: seq<Transition>, voteIDs: seq<Transition>, results: Transition, values: seq<int>)
    requires WellFormed(c, leaves) && WellFormedVotes(c, votes)
    requires |votes| <= |ballots| && Chain(leaves, votes, ballots, voteIDs)
    requires Writes(results, StageVotes(leaves, votes), KEY_RESULTS, values)
    ensures TransitionsVerified(|votes|, ballots, voteIDs, results) <==> FreshVoteIDs(leaves, votes)
  {
    hide WellFormed, WellFormedVotes, StageVotes, TreeLeafValues, LeafResults;
    StagedEffect(c, leaves, votes);
    ResultsArePresent(c, StageVotes(leaves, votes));
    forall i | 0 <= i < |ballots|
      ensures i < |votes| ==> ballots[i].IsInsert() || ballots[i].IsUpdate()
      ensures i < |votes| ==> (voteIDs[i].IsInsert() <==>
                votes[i].voteID !in leaves && forall j :: 0 <= j < i ==> votes[j].voteID != votes[i].voteID)
      ensures i >= |votes| ==> ballots[i].IsNoop() && voteIDs[i].IsNoop()
    {
      assert Slot(leaves, votes, i, ballots[i], voteIDs[i]);
      if i < |votes| {
        VoteIDSlotKind(c, leaves, votes, i, voteIDs[i]);
      }
    }
  }

  lemma ResultsArePresent(c: Curve, leaves: Leaves)
    requires WellFormed(c, leaves)
    ensures KEY_RESULTS in leaves
  {
  }

  /** With distinct indices, every overwrite check passes. */
  lemma OverwriteChecksPass(c: Curve, leaves: Leaves, votes: seq<Vote>, ballots: seq<Transition>, voteIDs: seq<Transition>)
    requires WellFormed(c, leaves) && WellFormedVotes(c, votes) && DistinctIndices(votes) && AllMatch(leaves, votes)
    requires Chain(leaves, votes, ballots, voteIDs)
    ensures OverwritesVerified(RecordedAll(c, leaves, votes), ballots)
  {
    hide StageVotes, OnCurve, ZeroBallot, BigInts, SetBigInts;
    forall i | 0 <= i < |votes| && i < |ballots|
      ensures OverwriteVerified(ballots[i], Recorded(c, leaves, votes[i]))
    {
      assert Slot(leaves, votes, i, ballots[i], voteIDs[i]);
      BallotSlotKind(c, leaves, votes, i, ballots[i]);
      var k := votes[i].ballotIndex;
      if k in leaves {
        assert WellFormedVote(c, votes[i]) && MetadataMatches(leaves, votes[i]);
        var leaf := StoredLeaf(leaves, k).value;
        var v := votes[i].(reencryptedBallot := leaf.ballot);
        LeafRoundTrip(v);
        LeafIsDetermined(TreeLeafValues(v), leaves[k]);
      }
    }
  }

  /** The votes of the first n slots. */
  function Done(votes: seq<Vote>, n: nat): seq<Vote> {
    if n < |votes| then votes[..n] else votes
  }

  lemma DoneStep(votes: seq<Vote>, i: nat)
    ensures Done(votes, i + 1) == if i < |votes| then Done(votes, i) + [votes[i]] else Done(votes, i)
  {
  }

  lemma {:induction false} SlotsCarryCounts(
      c: Curve, leaves: Leaves, votes: seq<Vote>, ballots: seq<Transition>, voteIDs: seq<Transition>, n: nat)
    requires WellFormed(c, leaves) && WellFormedVotes(c, votes) && DistinctIndices(votes)
    requires Chain(leaves, votes, ballots, voteIDs) && n <= |ballots|
    ensures Updates(ballots[..n]) == OverwrittenCount(leaves, Done(votes, n))
    ensures Inserts(ballots[..n]) + Updates(ballots[..n]) == |Done(votes, n)|
  {
    hide WellFormed, WellFormedVotes, Chain, DistinctIndices, StoredLeaf, Done;
    if n == 0 {
      assert Done(votes, 0) == [] by {
        NothingDone(votes);
      }
    } else {
      var i := n - 1;
      SlotsCarryCounts(c, leaves, votes, ballots, voteIDs, i);
      assert ballots[..n][..i] == ballots[..i];
      DoneStep(votes, i);
      SlotAt(c, leaves, votes, ballots, voteIDs, i);
      if i < |votes| {
        CountStep(leaves, Done(votes, i), votes[i]);
      }
    }
  }

  lemma NothingDone(votes: seq<Vote>)
    ensures Done(votes, 0) == []
  {
  }

  lemma SlotOfRecorded(c: Curve, leaves: Leaves, votes: seq<Vote>, i: nat)
    requires i < |votes|
    ensures RecordedAll(c, leaves, votes)[i].reencryptedBallot == votes[i].reencryptedBallot
    ensures RecordedAll(c, leaves, votes)[i].overwrittenBallot
            == Some(match StoredLeaf(leaves, votes[i].ballotIndex) case Some(leaf) => leaf.ballot case None => ZeroBallot(c))
  {
  }

  /** The value a slot adds to each in-circuit sum. */
  lemma SlotContribution(c: Curve, leaves: Leaves, votes: seq<Vote>, ballots: seq<Transition>, i: nat)
    requires BallotGroup(c).Lawful() && WellFormed(c, leaves) && WellFormedVotes(c, votes) && i < |ballots|
    requires i < |votes| ==> (ballots[i].IsUpdate() <==> StoredLeaf(leaves, votes[i].ballotIndex).Some?)
    requires i < |votes| ==> (ballots[i].IsInsert() <==> !ballots[i].IsUpdate())
    requires i >= |votes| ==> ballots[i].IsNoop()
    ensures var r := RecordedAll(c, leaves, votes);
      SlotSum(c, r, ballots, i) == AllSum(c, Done(votes, i)) ==>
        SlotSum(c, r, ballots, i + 1) == AllSum(c, Done(votes, i + 1))
    ensures var r := RecordedAll(c, leaves, votes);
      SlotOverwritten(c, r, ballots, i) == OverwrittenSum(c, leaves, Done(votes, i)) ==>
        SlotOverwritten(c, r, ballots, i + 1) == OverwrittenSum(c, leaves, Done(votes, i + 1))
  {
    hide WellFormed, WellFormedVotes, StoredLeaf, Done, OnCurve, AddBallots, NegBallot, ZeroBallot, AllSum,
         OverwrittenSum, Recorded;
    DoneStep(votes, i);
    SumsAreIn(c, leaves, votes, i);
    if i < |votes| {
      SumsStep(c, leaves, Done(votes, i), votes[i]);
      SlotOfRecorded(c, leaves, votes, i);
    }
  }

  lemma {:induction false} SlotsCarrySums(
      c: Curve, leaves: Leaves, votes: seq<Vote>, ballots: seq<Transition>, voteIDs: seq<Transition>, n: nat)
    requires BallotGroup(c).Lawful() && WellFormed(c, leaves) && WellFormedVotes(c, votes) && DistinctIndices(votes)
    requires Chain(leaves, votes, ballots, voteIDs) && n <= |ballots|
    ensures SlotSum(c, RecordedAll(c, leaves, votes), ballots, n) == AllSum(c, Done(votes, n))
    ensures SlotOverwritten(c, RecordedAll(c, leaves, votes), ballots, n) == OverwrittenSum(c, leaves, Done(votes, n))
  {
    hide WellFormed, WellFormedVotes, Chain, DistinctIndices, StoredLeaf, Done, RecordedAll, Group.Lawful, ZeroBallot, AddBallots;
    if n == 0 {
      NothingDone(votes);
    } else {
      hide AllSum, OverwrittenSum, SlotSum, SlotOverwritten;
      SlotsCarrySums(c, leaves, votes, ballots, voteIDs, n - 1);
      SlotAt(c, leaves, votes, ballots, voteIDs, n - 1);
      SlotContribution(c, leaves, votes, ballots, n - 1);
    }
  }

  /** Adding zero changes neither sum. */
  lemma SumsAreIn(c: Curve, leaves: Leaves, votes: seq<Vote>, i: nat)
    requires BallotGroup(c).Lawful() && WellFormed(c, leaves) && WellFormedVotes(c, votes)
    ensures AddBallots(c, AllSum(c, Done(votes, i)), ZeroBallot(c)) == AllSum(c, Done(votes, i))
    ensures AddBallots(c, OverwrittenSum(c, leaves, Done(votes, i)), ZeroBallot(c)) == OverwrittenSum(c, leaves, Done(votes, i))
  {
    hide WellFormed, WellFormedVote, OnCurve, AddBallots, ZeroBallot, OverwrittenSum, AllSum;
    StagedTally(c, leaves, Done(votes, i));
    var g := BallotGroup(c);
    assert g.Inverts(AllSum(c, Done(votes, i))) && g.Inverts(OverwrittenSum(c, leaves, Done(votes, i)));
  }

  lemma SlotAt(c: Curve, leaves: Leaves, votes: seq<Vote>, ballots: seq<Transition>, voteIDs: seq<Transition>, i: nat)
    requires WellFormed(c, leaves) && WellFormedVotes(c, votes) && DistinctIndices(votes)
    requires Chain(leaves, votes, ballots, voteIDs) && i < |ballots|
    ensures i < |votes| ==> (ballots[i].IsUpdate() <==> StoredLeaf(leaves, votes[i].ballotIndex).Some?)
    ensures i < |votes| ==> (ballots[i].IsInsert() <==> !ballots[i].IsUpdate())
    ensures i >= |votes| ==> ballots[i].IsNoop()
  {
    hide StageVotes, OnCurve, WellFormed, TreeLeafValues;
    assert Slot(leaves, votes, i, ballots[i], voteIDs[i]);
    if i < |votes| {
      assert WellFormedVote(c, votes[i]);
      BallotSlotKind(c, leaves, votes, i, ballots[i]);
      OverwrittenIsStored(c, leaves, votes[i]);
    }
  }

  /**
   A batch with distinct indices passes the circuit's ballot checks: the sums
   and both counters computed off-circuit are the ones the slots add up to.
   */
  lemma BallotChecksPass(c: Curve, leaves: Leaves, votes: seq<Vote>, ballots: seq<Transition>, voteIDs: seq<Transition>)
    requires c.Lawful() && WellFormed(c, leaves) && WellFormedVotes(c, votes) && DistinctIndices(votes)
    requires |votes| <= |ballots| && Chain(leaves, votes, ballots, voteIDs)
    ensures LeafResults(StageVotes(leaves, votes)).Ok?
    ensures BallotsVerified(c, RecordedAll(c, leaves, votes), ballots,
                            LeafResults(StageVotes(leaves, votes)).value, BatchResults(c, leaves, votes),
                            |votes|, OverwrittenCount(leaves, votes))
  {
    hide WellFormedVote, WellFormed, OnCurve, AddBallots, NegBallot, ZeroBallot, Chain, BallotsOf, StageVotes, RecordedAll;
    BallotsAreLawful(c);
    SlotsCarrySums(c, leaves, votes, ballots, voteIDs, |ballots|);
    SlotsCarryCounts(c, leaves, votes, ballots, voteIDs, |ballots|);
    assert ballots[..|ballots|] == ballots && Done(votes, |ballots|) == votes;
    StagedEffect(c, leaves, votes);
    StagedTally(c, leaves, votes);
    ResultsAreIn(c, StageVotes(leaves, votes));
    var g := BallotGroup(c);
    var results, all, over := LeafResults(StageVotes(leaves, votes)).value, AllSum(c, votes), OverwrittenSum(c, leaves, votes);
    assert g.Inverts(over) && g.Associates(results, all, g.neg(over));
  }

  // Ballot leaves over time

  /** Every ballot leaf is still there, with the same address and weight. */
  ghost predicate KeepsVoters(before: Leaves, after: Leaves) {
    forall k :: ValidBallotIndex(k) && StoredLeaf(before, k).Some? ==>
      && StoredLeaf(after, k).Some?
      && StoredLeaf(after, k).value.address == StoredLeaf(before, k).value.address
      && StoredLeaf(after, k).value.weight == StoredLeaf(before, k).value.weight
  }

  lemma StagedVoteKeepsVoters(c: Curve, leaves: Leaves, before: Leaves, v: Vote)
    requires KeepsVoters(leaves, before) && WellFormedVote(c, v) && MetadataMatches(leaves, v)
    ensures KeepsVoters(leaves, StageVote(before, v))
  {
    hide DecodeLeaf, OnCurve;
    LeafRoundTrip(v);
  }

  lemma {:induction false} StagedVotesKeepVoters(c: Curve, leaves: Leaves, votes: seq<Vote>)
    requires WellFormedVotes(c, votes) && AllMatch(leaves, votes)
    ensures KeepsVoters(leaves, StageVotes(leaves, votes))
  {
    hide MetadataMatches, WellFormedVote;
    if |votes| > 0 {
      StagedVotesKeepVoters(c, leaves, votes[..|votes| - 1]);
      StagedVoteKeepsVoters(c, leaves, StageVotes(leaves, votes[..|votes| - 1]), votes[|votes| - 1]);
    }
  }

  /** An accepted batch never removes a voter nor changes a stored address or weight. */
  lemma CommitKeepsVoters(c: Curve, leaves: Leaves, votes: seq<Vote>)
    requires WellFormedVotes(c, votes) && Accepts(c, leaves, votes)
    ensures KeepsVoters(leaves, After(c, leaves, votes))
  {
    hide MetadataMatches, WellFormedVote, StageVotes, DecodeLeaf, BigInts, Encodable, BatchValues, NewResults;
    StagedVotesKeepVoters(c, leaves, votes);
  }

  /** A batch adds exactly as many ballot leaves as it has votes that overwrite nothing. */
  lemma {:induction false} BallotLeavesGrow(c: Curve, leaves: Leaves, votes: seq<Vote>)
    requires WellFormed(c, leaves) && WellFormedVotes(c, votes) && DistinctIndices(votes)
    ensures |BallotsOf(StageVotes(leaves, votes))| == |BallotsOf(leaves)| + |votes| - OverwrittenCount(leaves, votes)
  {
    hide WellFormed, WellFormedVote, BallotsOf, StoredLeaf;
    if |votes| > 0 {
      var n := |votes| - 1;
      var init, v := votes[..n], votes[n];
      BallotLeavesGrow(c, leaves, init);
      StagedEffect(c, leaves, init);
      StageVoteEffect(c, StageVotes(leaves, init), v);
      IndexIsValid(c, v);
      OverwrittenIsStored(c, leaves, v);
      OverwrittenIsStored(c, StageVotes(leaves, init), v);
      StagedKeys(leaves, init, v.ballotIndex);
      forall j | 0 <= j < |init| ensures init[j].ballotIndex != v.ballotIndex && init[j].voteID != v.ballotIndex {
        IndexIsValid(c, votes[j]);
      }
    }
  }
}
