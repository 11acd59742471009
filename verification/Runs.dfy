/**
 Whole runs of one process state: committed and discarded batches, promotions
 of confirmed roots, and replays of published batches, in any order.
 */
module Runs {
  import opened Wrappers
  import opened Algebra
  import opened Params
  import opened Ballots
  import opened Tree
  import opened Votes
  import opened Blobs
  import opened Staging
  import opened TallyInvariant
  import opened CircuitChecks
  import opened Replay
  import opened TransitionCircuit

  /** The tree and its database, and the roots that were the outcome of some step. */
  datatype Node = Node(tx: Tx, confirmed: set<Root>)

  datatype Step =
    | Commit(votes: seq<Vote>)
    | Refuse(votes: seq<Vote>)
    | Promote(root: Root)
    | Rebuild(w: Witness)

  ghost predicate Initial(c: Curve, s: Node) {
    exists pid: int, origin: int, mode: int, key: seq<int> ::
      && s.tx.leaves == Initialized(c, map[], pid, origin, mode, key)
      && Root(s.tx.leaves) in s.tx.stored
      && s.confirmed == {Root(s.tx.leaves)}
  }

  /** The batches the layers above hand over: accepted, well-formed, one vote per ballot index. */
  ghost predicate Admitted(c: Curve, leaves: Leaves, votes: seq<Vote>) {
    Accepts(c, leaves, votes) && WellFormedVotes(c, votes) && DistinctIndices(votes)
  }

  ghost predicate Next(c: Curve, s: Node, step: Step, s': Node) {
    match step
    case Commit(votes) =>
      && Admitted(c, s.tx.leaves, votes)
      && s'.tx.leaves == After(c, s.tx.leaves, votes)
      && s.tx.stored <= s'.tx.stored && Root(s'.tx.leaves) in s'.tx.stored
      && s'.confirmed == s.confirmed + {Root(s'.tx.leaves)}
    case Refuse(votes) =>
      // a discarded batch, or a replay that ends at another root
      s' == s
    case Promote(root) =>
      && root in s.confirmed
      && SetRoot(s.tx, root) == Ok(s'.tx)
      && s'.confirmed == s.confirmed
    case Rebuild(w) =>
      // a published batch, whoever published it: its proof was verified on chain
      && w.rootBefore in s.confirmed && Proved(c, w)
      && ReplayFrom(s.tx, w.rootBefore, w.rootAfter, [Some(BlobOfProof(c, w))]) == Ok(s'.tx)
      && s'.confirmed == s.confirmed + {Root(s'.tx.leaves)}
  }

  ghost predicate Run(c: Curve, nodes: seq<Node>, steps: seq<Step>) {
    && |nodes| == |steps| + 1
    && Initial(c, nodes[0])
    && (forall i :: 0 <= i < |steps| ==> Next(c, nodes[i], steps[i], nodes[i + 1]))
  }

  ghost predicate Sound(c: Curve, s: Node) {
    && Balanced(c, s.tx.leaves)
    && (forall r :: r in s.confirmed ==> Balanced(c, r.contents) && r in s.tx.stored)
  }

  lemma {:induction false} EmptySum<T(!new)>(g: Group<T>, n: nat)
    ensures SumTo(g, map[], n) == g.zero
  {
    if n > 0 {
      EmptySum(g, n - 1);
    }
  }

  lemma InitialIsBalanced(c: Curve, pid: int, origin: int, mode: int, key: seq<int>)
    requires c.Lawful()
    ensures Balanced(c, Initialized(c, map[], pid, origin, mode, key))
  {
    var leaves := Initialized(c, map[], pid, origin, mode, key);
    assert forall k :: k in leaves ==> !ValidBallotIndex(k);
    hide ZeroBallot, BigInts;
    BallotsAreLawful(c);
    CoordinatesRoundTrip(ZeroBallot(c), []);
    assert BallotGroup(c).has(ZeroBallot(c));
    assert BallotsOf(leaves) == map[];
    EmptySum(BallotGroup(c), BALLOT_MAX + 1);
  }

  lemma AdmittedKeepsBalance(c: Curve, leaves: Leaves, votes: seq<Vote>)
    requires c.Lawful() && Balanced(c, leaves) && Admitted(c, leaves, votes)
    ensures Balanced(c, After(c, leaves, votes))
  {
    hide Balanced, Drift, After, BatchValues, Encodable, AllMatch, WellFormedVotes, DistinctIndices;
    DistinctIndicesDoNotDrift(c, leaves, votes);
    TallyKeptIffNoDrift(c, leaves, votes);
  }

  lemma StepIsSound(c: Curve, s: Node, step: Step, s': Node)
    requires c.Lawful() && Sound(c, s) && Next(c, s, step, s')
    ensures Sound(c, s') && s.confirmed <= s'.confirmed
  {
    hide Balanced, Admitted, After, Proved, BlobOfProof, ReplayFrom, LeafResults, StageVotes;
    match step
    case Commit(votes) =>
      AdmittedKeepsBalance(c, s.tx.leaves, votes);
    case Refuse(_) =>
    case Promote(root) =>
    case Rebuild(w) =>
      CircuitProtectsTally(c, w);
      RebuildReachesProof(c, s, w, s');
  }

  /** A rebuild ends at the root of the proof, and keeps every stored root. */
  lemma RebuildReachesProof(c: Curve, s: Node, w: Witness, s': Node)
    requires Next(c, s, Rebuild(w), s') && w.rootBefore in s.tx.stored
    ensures Root(s'.tx.leaves) == w.rootAfter
    ensures s.tx.stored <= s'.tx.stored && Root(s'.tx.leaves) in s'.tx.stored
  {
    hide Proved, BlobOfProof, ReplayBlobs;
    BlobsKeepStored(SetRoot(s.tx, w.rootBefore).value, [Some(BlobOfProof(c, w))]);
  }

  /** And it always succeeds: a node that knows the root before a proved batch can rebuild it. */
  lemma RebuildIsPossible(c: Curve, s: Node, w: Witness) returns (s': Node)
    requires c.Lawful() && Sound(c, s) && Proved(c, w) && w.rootBefore in s.confirmed
    ensures Next(c, s, Rebuild(w), s') && Root(s'.tx.leaves) == w.rootAfter
  {
    hide Proved, BlobOfProof, ReplayFrom, Balanced;
    ProvedBatchReplays(c, s.tx, w);
    var tx := ReplayFrom(s.tx, w.rootBefore, w.rootAfter, [Some(BlobOfProof(c, w))]).value;
    s' := Node(tx, s.confirmed + {Root(tx.leaves)});
  }

  /** The proofs lead from one root to the next. */
  ghost predicate Successive(c: Curve, ws: seq<Witness>) {
    && (forall i :: 0 <= i < |ws| ==> Proved(c, ws[i]))
    && (forall i :: 0 < i < |ws| ==> ws[i].rootBefore == ws[i - 1].rootAfter)
  }

  /** So a node that knows one root catches up with any chain of proved batches from there, batch by batch. */
  lemma {:induction false} CatchingUpIsPossible(c: Curve, s: Node, ws: seq<Witness>) returns (nodes: seq<Node>)
    requires c.Lawful() && Sound(c, s) && Successive(c, ws) && (|ws| > 0 ==> ws[0].rootBefore in s.confirmed)
    ensures |nodes| == |ws| + 1 && nodes[0] == s && Sound(c, nodes[|ws|])
    ensures forall i :: 0 <= i < |ws| ==> Next(c, nodes[i], Rebuild(ws[i]), nodes[i + 1])
    ensures |ws| > 0 ==> Root(nodes[|ws|].tx.leaves) == ws[|ws| - 1].rootAfter
    ensures |ws| > 0 ==> ws[|ws| - 1].rootAfter in nodes[|ws|].confirmed
  {
    hide Sound, Proved, Next;
    if |ws| == 0 {
      nodes := [s];
    } else {
      var n := |ws| - 1;
      nodes := CatchingUpIsPossible(c, s, ws[..n]);
      assert ws[n].rootBefore in nodes[n].confirmed;
      var next := RebuildIsPossible(c, nodes[n], ws[n]);
      StepIsSound(c, nodes[n], Rebuild(ws[n]), next);
      RebuildConfirms(c, nodes[n], ws[n], next);
      nodes := nodes + [next];
    }
  }

  lemma RebuildConfirms(c: Curve, s: Node, w: Witness, s': Node)
    requires Next(c, s, Rebuild(w), s')
    ensures Root(s'.tx.leaves) in s'.confirmed
  {
    hide Proved, ReplayFrom, BlobOfProof;
  }

  lemma {:induction false} VotesKeepStored(t: Tx, votes: seq<Vote>)
    ensures var r := ReplayVotes(t, votes); r.Ok? ==> t.stored <= r.value.stored
  {
    if |votes| > 0 {
      VotesKeepStored(t, votes[..|votes| - 1]);
    }
  }

  lemma {:induction false} BlobsKeepStored(t: Tx, blobs: seq<Option<Blob>>)
    ensures var r := ReplayBlobs(t, blobs);
            r.Ok? ==> t.stored <= r.value.stored && (r.value == t || Root(r.value.leaves) in r.value.stored)
    ensures Root(t.leaves) in t.stored ==> var r := ReplayBlobs(t, blobs); r.Ok? ==> Root(r.value.leaves) in r.value.stored
  {
    hide Parse, ReplayVotes, SetBigInts, BigInts;
    if |blobs| > 0 {
      var init := blobs[..|blobs| - 1];
      BlobsKeepStored(t, init);
      var r := ReplayBlobs(t, init);
      if r.Ok? && blobs[|blobs| - 1].Some? && Parse(blobs[|blobs| - 1].value).Ok? {
        VotesKeepStored(r.value, Parse(blobs[|blobs| - 1].value).value.votes);
      }
    }
  }

  lemma {:induction false} RunIsSound(c: Curve, nodes: seq<Node>, steps: seq<Step>, i: nat)
    requires c.Lawful() && Run(c, nodes, steps) && i < |nodes|
    ensures Sound(c, nodes[i])
  {
    hide Next, Initialized;
    if i == 0 {
      var pid: int, origin: int, mode: int, key: seq<int> :|
        && nodes[0].tx.leaves == Initialized(c, map[], pid, origin, mode, key)
        && Root(nodes[0].tx.leaves) in nodes[0].tx.stored
        && nodes[0].confirmed == {Root(nodes[0].tx.leaves)};
      InitialIsBalanced(c, pid, origin, mode, key);
    } else {
      RunIsSound(c, nodes, steps, i - 1);
      StepIsSound(c, nodes[i - 1], steps[i - 1], nodes[i]);
    }
  }

  /**
   In every state of every run the Results leaf is the sum of the latest ballot
   of every voter, and so it is for every root a node may be sent back to.
   */
  lemma TallyHoldsOnEveryRun(c: Curve, nodes: seq<Node>, steps: seq<Step>)
    requires c.Lawful() && Run(c, nodes, steps)
    ensures forall i :: 0 <= i < |nodes| ==>
      && Balanced(c, nodes[i].tx.leaves)
      && (forall r :: r in nodes[i].confirmed ==> Balanced(c, r.contents))
  {
    hide Run, Balanced;
    forall i | 0 <= i < |nodes|
      ensures Balanced(c, nodes[i].tx.leaves) && forall r :: r in nodes[i].confirmed ==> Balanced(c, r.contents)
    {
      RunIsSound(c, nodes, steps, i);
    }
  }
}
