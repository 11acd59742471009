/**
 The tally: the Results leaf against the sum of the ballots in all ballot leaves.

 Overwrites are looked up before anything of the batch is written, so a ballot
 index that occurs twice in a batch is accounted against the stored ballot each
 time. `Drift` is the exact error this makes.
 */
module TallyInvariant {
  import opened Wrappers
  import opened Algebra
  import opened Params
  import opened Ballots
  import opened Tree
  import opened Votes
  import opened Blobs
  import opened Staging

  /** A ballot leaf as the code writes it: 32 coordinates of curve points, address, weight. */
  ghost predicate WellFormedLeaf(c: Curve, values: seq<int>) {
    && |values| == COORDS_PER_BALLOT + 2
    && OnCurve(c, DecodeLeaf(values).value.ballot)
  }

  ghost predicate WellFormed(c: Curve, leaves: Leaves) {
    && LeafResults(leaves).Ok?
    && OnCurve(c, LeafResults(leaves).value)
    && (forall k :: k in leaves && ValidBallotIndex(k) ==> WellFormedLeaf(c, leaves[k]))
  }

  /** Keys in range, and a ballot made of curve points. */
  ghost predicate WellFormedVote(c: Curve, v: Vote) {
    ValidVoteID(v.voteID) && ValidBallotIndex(v.ballotIndex) && OnCurve(c, v.reencryptedBallot)
  }

  ghost predicate WellFormedVotes(c: Curve, votes: seq<Vote>) {
    forall i :: 0 <= i < |votes| ==> WellFormedVote(c, votes[i])
  }

  /** The latest ballot of every voter. */
  ghost function BallotsOf(leaves: Leaves): map<nat, Ballot> {
    map k | k in leaves && ValidBallotIndex(k) && StoredLeaf(leaves, k).Some? :: StoredLeaf(leaves, k).value.ballot
  }

  /** The sum of the latest ballot of every voter. */
  ghost function Tally(c: Curve, leaves: Leaves): Ballot {
    SumTo(BallotGroup(c), BallotsOf(leaves), BALLOT_MAX + 1)
  }

  /** The Results leaf holds the tally. */
  ghost predicate Balanced(c: Curve, leaves: Leaves) {
    WellFormed(c, leaves) && LeafResults(leaves).value == Tally(c, leaves)
  }

  /** How far the Results leaf is from the tally. */
  ghost function Discrepancy(c: Curve, leaves: Leaves): Ballot
    requires LeafResults(leaves).Ok?
  {
    BallotGroup(c).Sub(LeafResults(leaves).value, Tally(c, leaves))
  }

  /** The ballot most recently cast in the batch at an index, if any. */
  function LastCast(votes: seq<Vote>, k: nat): Option<Ballot> {
    if |votes| == 0 then None
    else if votes[|votes| - 1].ballotIndex == k then Some(votes[|votes| - 1].reencryptedBallot)
    else LastCast(votes[..|votes| - 1], k)
  }

  /**
   For every vote at an index already used earlier in the batch: the ballot it
   replaces, less the stored ballot that the accounting subtracts instead.
   */
  ghost function Drift(c: Curve, leaves: Leaves, votes: seq<Vote>): Ballot {
    if |votes| == 0 then ZeroBallot(c)
    else
      var init := votes[..|votes| - 1];
      var k := votes[|votes| - 1].ballotIndex;
      match LastCast(init, k)
      case None => Drift(c, leaves, init)
      case Some(replaced) =>
        AddBallots(c, Drift(c, leaves, init),
                   BallotGroup(c).Sub(replaced, At(BallotGroup(c), BallotsOf(leaves), k)))
  }

  ghost predicate DistinctIndices(votes: seq<Vote>) {
    forall i, j :: 0 <= i < j < |votes| ==> votes[i].ballotIndex != votes[j].ballotIndex
  }

  // One vote

  lemma StoredBallotIsIn(c: Curve, leaves: Leaves)
    requires WellFormed(c, leaves)
    ensures Within(BallotGroup(c), BallotsOf(leaves))
  {
  }

  /** Staging a vote changes the ballots at its index only, and leaves the results alone. */
  lemma StageVoteEffect(c: Curve, leaves: Leaves, v: Vote)
    requires WellFormed(c, leaves) && WellFormedVote(c, v)
    ensures WellFormed(c, StageVote(leaves, v))
    ensures LeafResults(StageVote(leaves, v)) == LeafResults(leaves)
    ensures BallotsOf(StageVote(leaves, v)) == BallotsOf(leaves)[v.ballotIndex := v.reencryptedBallot]
  {
    hide OnCurve;
    LeafRoundTrip(v);
    var after := StageVote(leaves, v);
    assert |TreeLeafValues(v)| == COORDS_PER_BALLOT + 2;
    forall k | k in after && ValidBallotIndex(k) ensures WellFormedLeaf(c, after[k]) {
      assert k != v.voteID;
    }
    assert BallotsOf(after) == BallotsOf(leaves)[v.ballotIndex := v.reencryptedBallot];
  }

  /** In well-formed leaves the overwritten ballot is the ballot stored at the index, or zero. */
  lemma OverwrittenIsStored(c: Curve, leaves: Leaves, v: Vote)
    requires WellFormed(c, leaves) && ValidBallotIndex(v.ballotIndex)
    ensures OverwrittenBallot(c, leaves, v) == At(BallotGroup(c), BallotsOf(leaves), v.ballotIndex)
    ensures StoredLeaf(leaves, v.ballotIndex).Some? <==> v.ballotIndex in leaves
    ensures StoredLeaf(leaves, v.ballotIndex).Some? <==> v.ballotIndex in BallotsOf(leaves)
  {
    hide OnCurve;
  }

  // A whole batch

  lemma {:induction false} StagedEffect(c: Curve, leaves: Leaves, votes: seq<Vote>)
    requires WellFormed(c, leaves) && WellFormedVotes(c, votes)
    ensures WellFormed(c, StageVotes(leaves, votes))
    ensures LeafResults(StageVotes(leaves, votes)) == LeafResults(leaves)
  {
    hide WellFormed, WellFormedVote, LeafResults;
    if |votes| > 0 {
      var init := votes[..|votes| - 1];
      StagedEffect(c, leaves, init);
      StageVoteEffect(c, StageVotes(leaves, init), votes[|votes| - 1]);
    }
  }

  /** While staging, an index holds the ballot last cast at it, or else the stored one. */
  lemma {:induction false} StagedBallotAt(c: Curve, leaves: Leaves, votes: seq<Vote>, k: nat)
    requires WellFormed(c, leaves) && WellFormedVotes(c, votes)
    ensures At(BallotGroup(c), BallotsOf(StageVotes(leaves, votes)), k) ==
            match LastCast(votes, k)
            case Some(ballot) => ballot
            case None => At(BallotGroup(c), BallotsOf(leaves), k)
  {
    hide WellFormed, WellFormedVote, LeafResults, BallotsOf;
    if |votes| > 0 {
      var init := votes[..|votes| - 1];
      StagedBallotAt(c, leaves, init, k);
      StagedEffect(c, leaves, init);
      StageVoteEffect(c, StageVotes(leaves, init), votes[|votes| - 1]);
    }
  }

  lemma DriftStep(c: Curve, leaves: Leaves, init: seq<Vote>, v: Vote)
    requires BallotGroup(c).Lawful() && WellFormed(c, leaves) && WellFormedVotes(c, init) && WellFormedVote(c, v)
    requires OnCurve(c, Drift(c, leaves, init)) && OnCurve(c, OverwrittenSum(c, leaves, init))
    ensures var g := BallotGroup(c);
            var stored := At(g, BallotsOf(leaves), v.ballotIndex);
            var current := At(g, BallotsOf(StageVotes(leaves, init)), v.ballotIndex);
            && g.has(stored) && g.has(current)
            && Drift(c, leaves, init + [v]) == g.add(Drift(c, leaves, init), g.Sub(current, stored))
            && OverwrittenSum(c, leaves, init + [v]) == g.add(OverwrittenSum(c, leaves, init), stored)
  {
    hide WellFormed, WellFormedVote, LeafResults, BallotsOf, OnCurve, AddBallots, NegBallot;
    var g := BallotGroup(c);
    assert (init + [v])[..|init|] == init;
    AccountingStep(c, leaves, init, v);
    StagedBallotAt(c, leaves, init, v.ballotIndex);
    StagedEffect(c, leaves, init);
    StoredBallotIsIn(c, leaves);
    StoredBallotIsIn(c, StageVotes(leaves, init));
    assert ValidBallotIndex(v.ballotIndex) by {
      IndexIsValid(c, v);
    }
    OverwrittenIsStored(c, leaves, v);
    var stored := At(g, BallotsOf(leaves), v.ballotIndex);
    assert g.Inverts(stored) && g.Inverts(Drift(c, leaves, init)) && g.Inverts(OverwrittenSum(c, leaves, init));
  }

  lemma IndexIsValid(c: Curve, v: Vote)
    requires WellFormedVote(c, v)
    ensures ValidBallotIndex(v.ballotIndex) && ValidVoteID(v.voteID) && OnCurve(c, v.reencryptedBallot)
  {
  }

  /**
   Staging any batch: staged tally + drift == old tally + all ballots - overwritten ballots.
   */
  lemma {:induction false} StagedTally(c: Curve, leaves: Leaves, votes: seq<Vote>)
    requires BallotGroup(c).Lawful() && WellFormed(c, leaves) && WellFormedVotes(c, votes)
    ensures var g := BallotGroup(c);
            && g.has(AllSum(c, votes)) && g.has(OverwrittenSum(c, leaves, votes)) && g.has(Drift(c, leaves, votes))
            && g.has(Tally(c, leaves)) && g.has(Tally(c, StageVotes(leaves, votes)))
            && g.add(Tally(c, StageVotes(leaves, votes)), Drift(c, leaves, votes))
               == g.add(Tally(c, leaves), g.Sub(AllSum(c, votes), OverwrittenSum(c, leaves, votes)))
  {
    hide WellFormed, WellFormedVote, LeafResults, BallotsOf, OnCurve, AddBallots, NegBallot, ZeroBallot;
    var g := BallotGroup(c);
    StoredBallotIsIn(c, leaves);
    SumToIsIn(g, BallotsOf(leaves), BALLOT_MAX + 1);
    if |votes| == 0 {
      assert g.Inverts(g.zero) && g.Inverts(Tally(c, leaves));
    } else {
      var init, v := votes[..|votes| - 1], votes[|votes| - 1];
      assert votes == init + [v];
      StagedTally(c, leaves, init);
      StagedEffect(c, leaves, init);
      StagedEffect(c, leaves, votes);
      IndexIsValid(c, v);
      DriftStep(c, leaves, init, v);
      var from := StageVotes(leaves, init);
      var k, b := v.ballotIndex, v.reencryptedBallot;
      var stored, current := At(g, BallotsOf(leaves), k), At(g, BallotsOf(from), k);
      StageVoteEffect(c, from, v);
      StoredBallotIsIn(c, from);
      SumToUpdate(g, BallotsOf(from), k, b, BALLOT_MAX + 1);
      BalancedStep(g, Tally(c, leaves), Tally(c, from), Drift(c, leaves, init),
                   AllSum(c, init), OverwrittenSum(c, leaves, init), b, current, stored);
      AccountingStep(c, leaves, init, v);
      AddSubCancel(g, b, current);
      AddSubCancel(g, current, stored);
      assert g.Closed(AllSum(c, init), b) && g.Closed(OverwrittenSum(c, leaves, init), stored);
      assert g.Closed(Drift(c, leaves, init), g.Sub(current, stored));
      assert g.Closed(Tally(c, from), g.Sub(b, current));
    }
  }

  /** Writing the results leaf changes no ballot. */
  lemma ResultsWriteEffect(c: Curve, leaves: Leaves, results: Ballot)
    requires WellFormed(c, leaves) && OnCurve(c, results)
    ensures var after := leaves[KEY_RESULTS := BigInts(results)];
            && WellFormed(c, after) && LeafResults(after) == Ok(results) && BallotsOf(after) == BallotsOf(leaves)
  {
    hide OnCurve, BigInts;
    CoordinatesRoundTrip(results, []);
    var after := leaves[KEY_RESULTS := BigInts(results)];
    assert BallotsOf(after) == BallotsOf(leaves);
  }

  /**
   After committing any batch of well-formed votes, the distance between the
   Results leaf and the tally has grown by exactly the batch's drift.
   */
  lemma CommitAddsDrift(c: Curve, leaves: Leaves, votes: seq<Vote>)
    requires c.Lawful() && WellFormed(c, leaves) && WellFormedVotes(c, votes)
    ensures LeafResults(StageVotes(leaves, votes)).Ok?
    ensures WellFormed(c, After(c, leaves, votes))
    ensures Discrepancy(c, After(c, leaves, votes))
            == AddBallots(c, Discrepancy(c, leaves), Drift(c, leaves, votes))
  {
    hide WellFormedVote, BallotsOf, OnCurve, AddBallots, NegBallot, ZeroBallot;
    var g := BallotGroup(c);
    BallotsAreLawful(c);
    StagedEffect(c, leaves, votes);
    StagedTally(c, leaves, votes);
    var staged := StageVotes(leaves, votes);
    var all, over := AllSum(c, votes), OverwrittenSum(c, leaves, votes);
    var was := LeafResults(leaves).value;
    var results := BatchResults(c, leaves, votes);
    assert g.Inverts(over) && g.Closed(was, all) && g.Closed(g.add(was, all), g.neg(over));
    assert results == g.add(g.add(was, all), g.neg(over));
    ResultsWriteEffect(c, staged, results);
    BalancedTotal(g, was, Tally(c, leaves), Tally(c, staged), Drift(c, leaves, votes), all, over);
  }

  /**
   A batch keeps the tally invariant exactly when its drift is zero. The drift
   is computed from the votes and the stored leaves, before the call.
   */
  lemma TallyKeptIffNoDrift(c: Curve, leaves: Leaves, votes: seq<Vote>)
    requires c.Lawful() && Balanced(c, leaves) && WellFormedVotes(c, votes)
    ensures LeafResults(StageVotes(leaves, votes)).Ok?
    ensures Balanced(c, After(c, leaves, votes)) <==> Drift(c, leaves, votes) == ZeroBallot(c)
  {
    hide WellFormed, WellFormedVote, BallotsOf, OnCurve, AddBallots, NegBallot, ZeroBallot, After, LeafResults;
    CommitAddsDrift(c, leaves, votes);
    BallotsAreLawful(c);
    var g := BallotGroup(c);
    StagedTally(c, leaves, votes);
    var after := After(c, leaves, votes);
    ResultsAreIn(c, leaves);
    ResultsAreIn(c, after);
    DifferenceIsZero(g, LeafResults(leaves).value, Tally(c, leaves));
    DifferenceIsZero(g, LeafResults(after).value, Tally(c, after));
    assert g.Commutes(g.zero, Drift(c, leaves, votes)) && g.Inverts(Drift(c, leaves, votes));
  }

  lemma ResultsAreIn(c: Curve, leaves: Leaves)
    requires BallotGroup(c).Lawful() && WellFormed(c, leaves)
    ensures LeafResults(leaves).Ok? && OnCurve(c, LeafResults(leaves).value) && OnCurve(c, Tally(c, leaves))
  {
    StoredBallotIsIn(c, leaves);
    SumToIsIn(BallotGroup(c), BallotsOf(leaves), BALLOT_MAX + 1);
  }

  lemma {:induction false} UnusedIndexIsNotCast(votes: seq<Vote>, k: nat)
    ensures LastCast(votes, k).Some? <==> exists i :: 0 <= i < |votes| && votes[i].ballotIndex == k
  {
    if |votes| > 0 {
      var init := votes[..|votes| - 1];
      UnusedIndexIsNotCast(init, k);
      assert votes[|votes| - 1].ballotIndex == k ==> LastCast(votes, k).Some?;
      assert forall i :: 0 <= i < |init| ==> init[i] == votes[i];
    }
  }

  /** Pairwise distinct ballot indices never drift. */
  lemma {:induction false} DistinctIndicesDoNotDrift(c: Curve, leaves: Leaves, votes: seq<Vote>)
    requires DistinctIndices(votes)
    ensures Drift(c, leaves, votes) == ZeroBallot(c)
  {
    if |votes| > 0 {
      var init := votes[..|votes| - 1];
      DistinctIndicesDoNotDrift(c, leaves, init);
      UnusedIndexIsNotCast(init, votes[|votes| - 1].ballotIndex);
    }
  }

  lemma DriftOfPair(c: Curve, leaves: Leaves, first: Vote, second: Vote)
    requires BallotGroup(c).Lawful() && OnCurve(c, first.reencryptedBallot)
    requires first.ballotIndex == second.ballotIndex && first.ballotIndex !in leaves
    ensures Drift(c, leaves, [first, second]) == first.reencryptedBallot
  {
    hide BallotsOf, OnCurve, AddBallots, NegBallot, ZeroBallot;
    var g := BallotGroup(c);
    var b := first.reencryptedBallot;
    var votes := [first, second];
    assert votes[..|votes| - 1] == [first] && [first][..|[first]| - 1] == [];
    assert LastCast([], first.ballotIndex) == None && LastCast([first], second.ballotIndex) == Some(b);
    assert Drift(c, leaves, [first]) == Drift(c, leaves, []) == g.zero;
    assert first.ballotIndex !in BallotsOf(leaves) by {
      AbsentBallot(leaves, first.ballotIndex);
    }
    AddSubCancel(g, b, g.zero);
    assert g.Inverts(g.Sub(b, g.zero)) && g.Commutes(g.zero, g.Sub(b, g.zero));
  }

  lemma AbsentBallot(leaves: Leaves, k: nat)
    requires k !in leaves
    ensures k !in BallotsOf(leaves)
  {
  }

  /**
   The tally is not kept for every accepted batch: two votes at one fresh index
   leave the first ballot in the results, whatever the second one is. The pair is
   accepted whenever its values fit the blob.
   */
  lemma RepeatedIndexBreaksTally(c: Curve, leaves: Leaves, first: Vote, second: Vote)
    requires c.Lawful() && Balanced(c, leaves)
    requires WellFormedVote(c, first) && WellFormedVote(c, second)
    requires first.ballotIndex == second.ballotIndex && first.ballotIndex !in leaves
    requires first.reencryptedBallot != ZeroBallot(c)
    ensures LeafResults(StageVotes(leaves, [first, second])).Ok?
    ensures AllMatch(leaves, [first, second])
    ensures Accepts(c, leaves, [first, second]) <==>
            Encodable(BatchValues(BatchResults(c, leaves, [first, second]), [first, second]))
    ensures !Balanced(c, After(c, leaves, [first, second]))
  {
    var votes := [first, second];
    assert AllMatch(leaves, votes);
    hide WellFormedVote, AllMatch, Balanced, Drift, After, LeafResults, StageVotes, BatchResults, BatchValues, Encodable;
    BallotsAreLawful(c);
    IndexIsValid(c, first);
    DriftOfPair(c, leaves, first, second);
    TallyKeptIffNoDrift(c, leaves, votes);
  }
}
