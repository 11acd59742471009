/**
 What a process knows of its voters along its chain of roots: committing and
 rebuilding add voters, and only going back to an earlier root can lose them.
 */
module Voters {
  import opened Wrappers
  import opened Algebra
  import opened Params
  import opened Ballots
  import opened Tree
  import opened Votes
  import opened Blobs
  import opened Staging
  import opened TallyInvariant
  import opened CircuitChecks
  import opened Replay
  import opened TransitionCircuit
  import opened Runs

  /** One root is the outcome of a batch on the other: committed here, or proved by anyone. */
  ghost predicate Link(c: Curve, from: Root, votes: seq<Vote>, to: Root) {
    || (Admitted(c, from.contents, votes) && to.contents == After(c, from.contents, votes))
    || (exists w :: Proved(c, w) && w.rootBefore == from && w.rootAfter == to && RealVotes(w) == votes)
  }

  /** Each root of the chain is the outcome of a batch on the one before. */
  ghost predicate Linked(c: Curve, chain: seq<Root>, batches: seq<seq<Vote>>) {
    && |chain| == |batches| + 1
    && (forall i :: 0 <= i < |batches| ==> Link(c, chain[i], batches[i], chain[i + 1]))
  }

  ghost predicate Descends(c: Curve, from: Root, to: Root) {
    exists chain, batches :: Linked(c, chain, batches) && chain[0] == from && chain[|batches|] == to
  }

  lemma DescendsFromItself(c: Curve, r: Root)
    ensures Descends(c, r, r)
  {
    var chain: seq<Root>, batches: seq<seq<Vote>> := [r], [];
    assert Linked(c, chain, batches);
  }

  lemma ChildDescends(c: Curve, from: Root, votes: seq<Vote>, to: Root)
    requires Link(c, from, votes, to)
    ensures Descends(c, from, to)
  {
    hide Link;
    var chain, batches := [from, to], [votes];
    assert Linked(c, chain, batches) && chain[|batches|] == to;
  }

  lemma CommitLinks(c: Curve, from: Root, votes: seq<Vote>)
    requires Admitted(c, from.contents, votes)
    ensures Link(c, from, votes, Root(After(c, from.contents, votes)))
  {
    hide After, WellFormedVotes, DistinctIndices, LeafResults, StageVotes;
  }

  lemma ProofLinks(c: Curve, w: Witness)
    requires Proved(c, w)
    ensures Link(c, w.rootBefore, RealVotes(w), w.rootAfter)
  {
    hide Proved;
  }

  lemma DescentIsTransitive(c: Curve, a: Root, b: Root, d: Root)
    requires Descends(c, a, b) && Descends(c, b, d)
    ensures Descends(c, a, d)
  {
    hide Link;
    var chain, batches :| Linked(c, chain, batches) && chain[0] == a && chain[|batches|] == b;
    var more, moreBatches :| Linked(c, more, moreBatches) && more[0] == b && more[|moreBatches|] == d;
    ChainsJoin(c, chain, batches, more, moreBatches);
  }

  lemma ChainsJoin(c: Curve, chain: seq<Root>, batches: seq<seq<Vote>>, more: seq<Root>, moreBatches: seq<seq<Vote>>)
    requires Linked(c, chain, batches) && Linked(c, more, moreBatches) && more[0] == chain[|batches|]
    ensures Linked(c, chain + more[1..], batches + moreBatches)
    ensures (chain + more[1..])[|batches + moreBatches|] == more[|moreBatches|]
  {
    hide Link;
    var all, allBatches := chain + more[1..], batches + moreBatches;
    forall i | 0 <= i < |allBatches| ensures Link(c, all[i], allBatches[i], all[i + 1]) {
      if i >= |batches| {
        assert Link(c, more[i - |batches|], moreBatches[i - |batches|], more[i - |batches| + 1]);
      }
    }
  }

  // Along a chain

  /** Every vote of the batch replaces a stored ballot. */
  predicate OnlyOverwrites(leaves: Leaves, votes: seq<Vote>) {
    OverwrittenCount(leaves, votes) == |votes|
  }

  lemma {:induction false} OverwritesAreStored(leaves: Leaves, votes: seq<Vote>)
    ensures OverwrittenCount(leaves, votes) <= |votes|
    ensures OnlyOverwrites(leaves, votes) <==> forall v :: v in votes ==> StoredLeaf(leaves, v.ballotIndex).Some?
  {
    hide StoredLeaf;
    if |votes| > 0 {
      OverwritesAreStored(leaves, votes[..|votes| - 1]);
      assert votes == votes[..|votes| - 1] + [votes[|votes| - 1]];
    }
  }

  /** Staging adds the voters of the batch, at repeated indices too. */
  lemma {:induction false} StagedVoters(c: Curve, leaves: Leaves, votes: seq<Vote>)
    requires WellFormed(c, leaves) && WellFormedVotes(c, votes)
    ensures BallotsOf(StageVotes(leaves, votes)).Keys == BallotsOf(leaves).Keys + set v | v in votes :: v.ballotIndex
  {
    hide WellFormed, WellFormedVote, BallotsOf, LeafResults;
    if |votes| > 0 {
      var n := |votes| - 1;
      StagedVoters(c, leaves, votes[..n]);
      StagedEffect(c, leaves, votes[..n]);
      StageVoteEffect(c, StageVotes(leaves, votes[..n]), votes[n]);
      assert votes == votes[..n] + [votes[n]];
    }
  }

  /** A batch adds a voter exactly when not all its votes overwrite, whatever results it writes. */
  lemma BatchAddsVoters(c: Curve, leaves: Leaves, votes: seq<Vote>, values: seq<int>)
    requires WellFormed(c, leaves) && WellFormedVotes(c, votes)
    ensures var after := StageVotes(leaves, votes)[KEY_RESULTS := values];
            && |BallotsOf(leaves)| <= |BallotsOf(after)|
            && (|BallotsOf(after)| == |BallotsOf(leaves)| <==> OnlyOverwrites(leaves, votes))
  {
    hide WellFormed, BallotsOf, StageVotes, LeafResults, OnlyOverwrites, StoredLeaf;
    StagedVoters(c, leaves, votes);
    OverwritesAreStored(leaves, votes);
    ResultsKeepBallots(StageVotes(leaves, votes), values);
    var was, added := BallotsOf(leaves).Keys, set v | v in votes :: v.ballotIndex;
    forall v | v in votes ensures v.ballotIndex in was <==> StoredLeaf(leaves, v.ballotIndex).Some? {
      var i :| 0 <= i < |votes| && votes[i] == v;
      IndexIsValid(c, votes[i]);
      VotersAreKeys(leaves, v.ballotIndex);
    }
    GrownByNothing(was, added);
    assert added <= was <==> OnlyOverwrites(leaves, votes) by {
      assert forall v :: v in votes ==> v.ballotIndex in added;
    }
  }

  lemma GrownByNothing(was: set<nat>, added: set<nat>)
    ensures |was| <= |was + added|
    ensures |was + added| == |was| <==> added <= was
  {
    assert was + added == was + (added - was);
    assert |was + added| == |was| + |added - was|;
    if |added - was| == 0 {
      assert added - was == {};
      forall k | k in added ensures k in was {
        assert k !in added - was;
      }
    } else {
      assert added - was != {};
    }
  }

  lemma ResultsKeepBallots(leaves: Leaves, values: seq<int>)
    ensures BallotsOf(leaves[KEY_RESULTS := values]) == BallotsOf(leaves)
  {
    hide StoredLeaf;
    ResultsAreNoVoter(leaves, values);
    assert forall k :: k in leaves[KEY_RESULTS := values] && ValidBallotIndex(k) <==> k in leaves && ValidBallotIndex(k);
  }

  /** What one link of a chain means for the tally and the voters. */
  lemma LinkIsSound(c: Curve, from: Root, votes: seq<Vote>, to: Root)
    requires c.Lawful() && Link(c, from, votes, to) && Balanced(c, from.contents)
    ensures Balanced(c, to.contents) && KeepsVoters(from.contents, to.contents)
    ensures |BallotsOf(from.contents)| <= |BallotsOf(to.contents)|
    ensures |BallotsOf(to.contents)| == |BallotsOf(from.contents)| <==> OnlyOverwrites(from.contents, votes)
  {
    hide BallotsOf, StageVotes, LeafResults, OnlyOverwrites, KeepsVoters, Proved, WellFormed, Tally, DistinctIndices, WellFormedVotes,
         AllMatch, BigInts;
    assert WellFormed(c, from.contents);
    if Admitted(c, from.contents, votes) && to.contents == After(c, from.contents, votes) {
      AdmittedKeepsBalance(c, from.contents, votes);
      CommitKeepsVoters(c, from.contents, votes);
      BatchAddsVoters(c, from.contents, votes, BigInts(BatchResults(c, from.contents, votes)));
    } else {
      var w :| Proved(c, w) && w.rootBefore == from && w.rootAfter == to && RealVotes(w) == votes;
      CircuitProtectsTally(c, w);
      ProvedBatchKeepsVoters(c, w);
      ProvedIsWellFormed(c, w);
      BatchAddsVoters(c, from.contents, votes, BigInts(w.newResults));
    }
  }

  lemma ProvedIsWellFormed(c: Curve, w: Witness)
    requires Proved(c, w)
    ensures WellFormedVotes(c, RealVotes(w))
  {
  }

  lemma {:induction false} ChainStaysBalanced(c: Curve, chain: seq<Root>, batches: seq<seq<Vote>>, n: nat)
    requires c.Lawful() && Linked(c, chain, batches) && n <= |batches| && Balanced(c, chain[0].contents)
    ensures Balanced(c, chain[n].contents)
  {
    hide Balanced, Link;
    if n > 0 {
      ChainStaysBalanced(c, chain, batches, n - 1);
      assert Link(c, chain[n - 1], batches[n - 1], chain[n]);
      LinkIsSound(c, chain[n - 1], batches[n - 1], chain[n]);
    }
  }

  lemma {:induction false} ChainKeepsVoters(c: Curve, chain: seq<Root>, batches: seq<seq<Vote>>, n: nat)
    requires c.Lawful() && Linked(c, chain, batches) && n <= |batches| && Balanced(c, chain[0].contents)
    ensures KeepsVoters(chain[0].contents, chain[n].contents)
  {
    hide StoredLeaf, Balanced, Link;
    if n > 0 {
      ChainKeepsVoters(c, chain, batches, n - 1);
      ChainStaysBalanced(c, chain, batches, n - 1);
      assert Link(c, chain[n - 1], batches[n - 1], chain[n]);
      LinkIsSound(c, chain[n - 1], batches[n - 1], chain[n]);
    }
  }

  /** A descendant of a root has all its voters, with their addresses and weights. */
  lemma DescendantKeepsVoters(c: Curve, from: Root, to: Root)
    requires c.Lawful() && Descends(c, from, to) && Balanced(c, from.contents)
    ensures KeepsVoters(from.contents, to.contents) && Balanced(c, to.contents)
  {
    hide KeepsVoters, Balanced, Link;
    var chain, batches :| Linked(c, chain, batches) && chain[0] == from && chain[|batches|] == to;
    ChainKeepsVoters(c, chain, batches, |batches|);
    ChainStaysBalanced(c, chain, batches, |batches|);
  }

  /** Along a chain the number of voters grows unless every batch only overwrites. */
  lemma {:induction false} VotersGrow(c: Curve, chain: seq<Root>, batches: seq<seq<Vote>>, n: nat)
    requires c.Lawful() && Linked(c, chain, batches) && n <= |batches| && Balanced(c, chain[0].contents)
    ensures |BallotsOf(chain[0].contents)| <= |BallotsOf(chain[n].contents)|
    ensures |BallotsOf(chain[n].contents)| == |BallotsOf(chain[0].contents)|
            <==> forall i :: 0 <= i < n ==> OnlyOverwrites(chain[i].contents, batches[i])
  {
    hide Balanced, BallotsOf, OnlyOverwrites, Link;
    if n > 0 {
      VotersGrow(c, chain, batches, n - 1);
      ChainStaysBalanced(c, chain, batches, n - 1);
      assert Link(c, chain[n - 1], batches[n - 1], chain[n]);
      LinkIsSound(c, chain[n - 1], batches[n - 1], chain[n]);
    }
  }

  lemma VotersAreKeys(leaves: Leaves, k: nat)
    ensures k in BallotsOf(leaves) <==> ValidBallotIndex(k) && StoredLeaf(leaves, k).Some?
  {
    hide DecodeLeaf;
  }

  /** Two roots with the same voters in one direction have them in the other exactly when their number is equal. */
  lemma KeptBothWays(before: Leaves, after: Leaves)
    requires KeepsVoters(before, after)
    ensures BallotsOf(before).Keys <= BallotsOf(after).Keys
    ensures KeepsVoters(after, before) <==> |BallotsOf(after)| == |BallotsOf(before)|
  {
    hide StoredLeaf, BallotsOf;
    var was, now := BallotsOf(before).Keys, BallotsOf(after).Keys;
    forall k: nat ensures k in was <==> ValidBallotIndex(k) && StoredLeaf(before, k).Some? {
      VotersAreKeys(before, k);
    }
    forall k: nat ensures k in now <==> ValidBallotIndex(k) && StoredLeaf(after, k).Some? {
      VotersAreKeys(after, k);
    }
    assert |BallotsOf(before)| == |was| && |BallotsOf(after)| == |now|;
    assert |now - was| == |now| - |was|;
    if |now| == |was| {
      assert now - was == {};
      forall k | ValidBallotIndex(k) && StoredLeaf(after, k).Some?
        ensures StoredLeaf(before, k).Some?
      {
        assert k in now && k !in now - was;
      }
    } else {
      var k :| k in now - was;
    }
  }

  /**
   Going back along a chain keeps every voter exactly when all batches in between
   only overwrite; otherwise the voters they added are gone.
   */
  lemma GoingBackKeepsVotersIff(c: Curve, chain: seq<Root>, batches: seq<seq<Vote>>)
    requires c.Lawful() && Linked(c, chain, batches) && Balanced(c, chain[0].contents)
    ensures KeepsVoters(chain[|batches|].contents, chain[0].contents)
            <==> forall i :: 0 <= i < |batches| ==> OnlyOverwrites(chain[i].contents, batches[i])
    ensures BallotsOf(chain[0].contents).Keys <= BallotsOf(chain[|batches|].contents).Keys
  {
    hide Balanced, BallotsOf, OnlyOverwrites, Admitted, KeepsVoters, After, LeafResults, StageVotes;
    ChainKeepsVoters(c, chain, batches, |batches|);
    VotersGrow(c, chain, batches, |batches|);
    KeptBothWays(chain[0].contents, chain[|batches|].contents);
  }

  // Along a run

  /** The step does not leave the chain of the current root: it rebuilds from, or promotes, a descendant of it. */
  ghost predicate Onward(c: Curve, s: Node, step: Step) {
    match step
    case Commit(_) => true
    case Refuse(_) => true
    case Promote(root) => Descends(c, Root(s.tx.leaves), root)
    case Rebuild(w) => Descends(c, Root(s.tx.leaves), w.rootBefore)
  }

  lemma StepDescends(c: Curve, s: Node, step: Step, s': Node)
    requires Sound(c, s) && Next(c, s, step, s') && Onward(c, s, step)
    ensures Descends(c, Root(s.tx.leaves), Root(s'.tx.leaves))
  {
    hide Balanced, Admitted, After, Descends, StageVotes, LeafResults, Proved, ReplayFrom, BlobOfProof, Link;
    var now := Root(s.tx.leaves);
    match step
    case Commit(votes) =>
      CommitLinks(c, now, votes);
      ChildDescends(c, now, votes, Root(s'.tx.leaves));
    case Refuse(_) =>
      DescendsFromItself(c, now);
    case Promote(root) =>
    case Rebuild(w) =>
      RebuildReachesProof(c, s, w, s');
      ProofLinks(c, w);
      ChildDescends(c, w.rootBefore, RealVotes(w), w.rootAfter);
      DescentIsTransitive(c, now, w.rootBefore, Root(s'.tx.leaves));
  }

  /**
   Between two states of a run no voter disappears and no stored address or
   weight changes, as long as rebuilds and promotions go onward from the current root.
   */
  lemma {:induction false} VotersAreKept(c: Curve, nodes: seq<Node>, steps: seq<Step>, i: nat, j: nat)
    requires c.Lawful() && Run(c, nodes, steps) && i <= j < |nodes|
    requires forall k :: i <= k < j ==> Onward(c, nodes[k], steps[k])
    ensures Descends(c, Root(nodes[i].tx.leaves), Root(nodes[j].tx.leaves))
    ensures KeepsVoters(nodes[i].tx.leaves, nodes[j].tx.leaves)
  {
    hide Next, Descends, KeepsVoters, Initial, Onward, Balanced;
    if i == j {
      DescendsFromItself(c, Root(nodes[i].tx.leaves));
    } else {
      VotersAreKept(c, nodes, steps, i, j - 1);
      RunIsSound(c, nodes, steps, j - 1);
      StepDescends(c, nodes[j - 1], steps[j - 1], nodes[j]);
      DescentIsTransitive(c, Root(nodes[i].tx.leaves), Root(nodes[j - 1].tx.leaves), Root(nodes[j].tx.leaves));
    }
    RunIsSound(c, nodes, steps, i);
    DescendantKeepsVoters(c, Root(nodes[i].tx.leaves), Root(nodes[j].tx.leaves));
  }

  lemma {:induction false} RootsDescend(c: Curve, nodes: seq<Node>, steps: seq<Step>, i: nat)
    requires c.Lawful() && Run(c, nodes, steps) && i < |nodes|
    ensures Root(nodes[i].tx.leaves) in nodes[i].confirmed
    ensures forall r :: r in nodes[i].confirmed ==> Descends(c, Root(nodes[0].tx.leaves), r)
  {
    hide Descends, Sound, Balanced, Admitted, After, Proved, ReplayFrom, BlobOfProof, StageVotes, LeafResults, Link, Initialized;
    var first := Root(nodes[0].tx.leaves);
    if i == 0 {
      DescendsFromItself(c, first);
    } else {
      RootsDescend(c, nodes, steps, i - 1);
      assert Next(c, nodes[i - 1], steps[i - 1], nodes[i]);
      var before, after := Root(nodes[i - 1].tx.leaves), Root(nodes[i].tx.leaves);
      match steps[i - 1]
      case Commit(votes) =>
        CommitLinks(c, before, votes);
        ChildDescends(c, before, votes, after);
        DescentIsTransitive(c, first, before, after);
      case Refuse(_) =>
      case Promote(root) =>
      case Rebuild(w) =>
        RunIsSound(c, nodes, steps, i - 1);
        SoundRoot(c, nodes[i - 1], w.rootBefore);
        RebuildReachesProof(c, nodes[i - 1], w, nodes[i]);
        ProofLinks(c, w);
        ChildDescends(c, w.rootBefore, RealVotes(w), after);
        DescentIsTransitive(c, first, w.rootBefore, after);
    }
  }

  lemma SoundRoot(c: Curve, s: Node, r: Root)
    requires Sound(c, s) && r in s.confirmed
    ensures Balanced(c, r.contents) && r in s.tx.stored
  {
  }

  /**
   In every state of every run, promoting an earlier root of the chain keeps all
   voters exactly when every batch since that root only overwrites.
   */
  lemma PromotionKeepsVotersIff(c: Curve, nodes: seq<Node>, steps: seq<Step>, i: nat, chain: seq<Root>, batches: seq<seq<Vote>>)
    requires c.Lawful() && Run(c, nodes, steps) && i < |steps|
    requires Linked(c, chain, batches) && chain[|batches|] == Root(nodes[i].tx.leaves)
    requires steps[i] == Promote(chain[0])
    ensures KeepsVoters(nodes[i].tx.leaves, nodes[i + 1].tx.leaves)
            <==> forall k :: 0 <= k < |batches| ==> OnlyOverwrites(chain[k].contents, batches[k])
  {
    assert |chain| == |batches| + 1;
    hide Linked, KeepsVoters, OnlyOverwrites, Balanced, Initial, Sound;
    RunIsSound(c, nodes, steps, i);
    assert Next(c, nodes[i], steps[i], nodes[i + 1]);
    SoundRoot(c, nodes[i], chain[0]);
    GoingBackKeepsVotersIff(c, chain, batches);
  }

  /** Every ballot leaf of a balanced state has its 34 values. */
  lemma LeavesAreFull(c: Curve, leaves: Leaves, k: nat)
    requires Balanced(c, leaves) && k in leaves && ValidBallotIndex(k)
    ensures |leaves[k]| == 34
  {
    assert WellFormedLeaf(c, leaves[k]);
  }

  /**
   In every state of every run a voter may vote again: a vote that names the
   address and weight stored at its index is accepted and can be committed, its
   ballot takes the place of the stored one, and the tally follows.
   */
  lemma VoterMayVoteAgain(c: Curve, nodes: seq<Node>, steps: seq<Step>, i: nat, v: Vote) returns (next: Node)
    requires c.Lawful() && Run(c, nodes, steps) && i < |nodes|
    requires v.ballotIndex in nodes[i].tx.leaves && ValidBallotIndex(v.ballotIndex)
    requires HasOwner(nodes[i].tx.leaves[v.ballotIndex], v)
    requires ValidVoteID(v.voteID) && OnCurve(c, v.reencryptedBallot)
    requires LeafResults(StageVotes(nodes[i].tx.leaves, [v])).Ok? ==> Committable(BatchResults(c, nodes[i].tx.leaves, [v]), [v])
    ensures Next(c, nodes[i], Commit([v]), next)
    ensures BallotsOf(next.tx.leaves) == BallotsOf(nodes[i].tx.leaves)[v.ballotIndex := v.reencryptedBallot]
    ensures |BallotsOf(next.tx.leaves)| == |BallotsOf(nodes[i].tx.leaves)| && Balanced(c, next.tx.leaves)
  {
    hide Next, BallotsOf, Committable, OnCurve, LeafResults, StageVotes, HasOwner, Balanced, BatchResults, Initial;
    RunIsSound(c, nodes, steps, i);
    next := VoteAgain(c, nodes[i], v);
  }

  lemma VoteAgain(c: Curve, s: Node, v: Vote) returns (next: Node)
    requires c.Lawful() && Balanced(c, s.tx.leaves) && WellFormedVote(c, v)
    requires v.ballotIndex in s.tx.leaves && HasOwner(s.tx.leaves[v.ballotIndex], v)
    requires LeafResults(StageVotes(s.tx.leaves, [v])).Ok? ==> Committable(BatchResults(c, s.tx.leaves, [v]), [v])
    ensures Next(c, s, Commit([v]), next)
    ensures BallotsOf(next.tx.leaves) == BallotsOf(s.tx.leaves)[v.ballotIndex := v.reencryptedBallot]
    ensures |BallotsOf(next.tx.leaves)| == |BallotsOf(s.tx.leaves)| && Balanced(c, next.tx.leaves)
  {
    var leaves := s.tx.leaves;
    assert WellFormed(c, leaves) && ValidBallotIndex(v.ballotIndex);
    hide BallotsOf, Committable, OnCurve, LeafResults, StageVotes, Admitted, After, HasOwner, Balanced, WellFormedVote, BatchResults;
    OneVoteIsAdmitted(c, leaves, v);
    hide Next;
    next := CommitIsPossible(c, s, [v]);
    AdmittedKeepsBalance(c, leaves, [v]);
    OneVoteReplaces(c, leaves, v);
  }

  lemma CommitIsPossible(c: Curve, s: Node, votes: seq<Vote>) returns (next: Node)
    requires Admitted(c, s.tx.leaves, votes)
    ensures Next(c, s, Commit(votes), next) && next.tx.leaves == After(c, s.tx.leaves, votes)
  {
    hide After, LeafResults, StageVotes, WellFormedVotes, DistinctIndices;
    var after := After(c, s.tx.leaves, votes);
    next := Node(Tx(after, s.tx.stored + {Root(after)}), s.confirmed + {Root(after)});
  }

  lemma OneVoteIsAdmitted(c: Curve, leaves: Leaves, v: Vote)
    requires c.Lawful() && Balanced(c, leaves) && WellFormedVote(c, v)
    requires v.ballotIndex in leaves && HasOwner(leaves[v.ballotIndex], v)
    requires LeafResults(StageVotes(leaves, [v])).Ok? ==> Committable(BatchResults(c, leaves, [v]), [v])
    ensures LeafResults(StageVotes(leaves, [v])).Ok? && Admitted(c, leaves, [v])
  {
    hide Committable, OnCurve, LeafResults, StageVotes, Accepts, Tally, BatchResults;
    StagedEffect(c, leaves, [v]);
    WellFormedHasLeaf(c, leaves);
    AcceptedIffOwners(c, leaves, [v]);
  }

  lemma WellFormedHasLeaf(c: Curve, leaves: Leaves)
    requires WellFormed(c, leaves)
    ensures LeafResults(leaves).Ok?
  {
  }

  lemma OneVoteReplaces(c: Curve, leaves: Leaves, v: Vote)
    requires WellFormed(c, leaves) && WellFormedVote(c, v)
    ensures LeafResults(StageVotes(leaves, [v])).Ok?
    ensures BallotsOf(After(c, leaves, [v])) == BallotsOf(leaves)[v.ballotIndex := v.reencryptedBallot]
    ensures v.ballotIndex in leaves && ValidBallotIndex(v.ballotIndex) ==> v.ballotIndex in BallotsOf(leaves)
  {
    hide WellFormedVote, OnCurve, BallotsOf, LeafResults, StageVote, BatchResults;
    StageVoteEffect(c, leaves, v);
    StagedOne(leaves, v);
    WellFormedHasLeaf(c, StageVote(leaves, v));
    ResultsKeepBallots(StageVote(leaves, v), BigInts(BatchResults(c, leaves, [v])));
    if v.ballotIndex in leaves && ValidBallotIndex(v.ballotIndex) {
      VotersAreKeys(leaves, v.ballotIndex);
    }
  }

  lemma StagedOne(leaves: Leaves, v: Vote)
    ensures StageVotes(leaves, [v]) == StageVote(leaves, v)
  {
    assert [v][..0] == [];
  }
}
