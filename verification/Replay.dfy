/**
 Rebuilding the state from a blob: a second path through the tree that must
 reach the leaves the batch committed.
 */
module Replay {
  import opened Wrappers
  import opened Params
  import opened Ballots
  import opened Tree
  import opened Votes
  import opened Bytes
  import opened Blobs
  import opened Staging
  import opened CircuitChecks
  import opened BatchState

  type Blob = seq<byte>

  // What replaying does

  function WriteBallot(t: Tx, v: Vote): Result<Tx, Error> {
    match Get(t, v.ballotIndex)
    case Err(_) => Add(t, v.ballotIndex, TreeLeafValues(v))
    case Ok(values) =>
      var _ :- DecodeLeaf(values);
      Update(t, v.ballotIndex, TreeLeafValues(v))
  }

  /** A vote ID that is already stored is an error here, unlike when staging a batch. */
  function ReplayVote(t: Tx, v: Vote): Result<Tx, Error> {
    var t' :- WriteBallot(t, v);
    if Get(t', v.voteID).Ok? then Err(Failed("vote ID already exists"))
    else Add(t', v.voteID, VOTE_ID_LEAF)
  }

  function ReplayVotes(t: Tx, votes: seq<Vote>): Result<Tx, Error> {
    if |votes| == 0 then Ok(t)
    else
      var t' :- ReplayVotes(t, votes[..|votes| - 1]);
      ReplayVote(t', votes[|votes| - 1])
  }

  function ReplayData(t: Tx, data: BlobData): Result<Tx, Error> {
    var t' :- ReplayVotes(t, data.votes);
    match SetBigInts(data.results)
    case Err(reason) => Err(Failed(reason))
    case Ok(results) => Update(t', KEY_RESULTS, BigInts(results))
  }

  function ReplayBlob(t: Tx, blob: Blob): Result<Tx, Error> {
    match Parse(blob)
    case Err(reason) => Err(Failed(reason))
    case Ok(data) => ReplayData(t, data)
  }

  /** Blobs in order; nil ones are skipped. */
  function ReplayBlobs(t: Tx, blobs: seq<Option<Blob>>): Result<Tx, Error> {
    if |blobs| == 0 then Ok(t)
    else
      var t' :- ReplayBlobs(t, blobs[..|blobs| - 1]);
      match blobs[|blobs| - 1]
      case None => Ok(t')
      case Some(blob) => ReplayBlob(t', blob)
  }

  /** Replaying from one root, accepted only if it ends at the expected root. */
  function ReplayFrom(t: Tx, rootBefore: Root, rootAfter: Root, blobs: seq<Option<Blob>>): Result<Tx, Error> {
    var from :- SetRoot(t, rootBefore);
    var to :- ReplayBlobs(from, blobs);
    if Root(to.leaves) != rootAfter then Err(Failed("restored state root mismatch")) else Ok(to)
  }

  lemma {:induction false} ReplayVotesStops(t: Tx, votes: seq<Vote>, n: nat)
    requires n <= |votes| && ReplayVotes(t, votes[..n]).Err?
    ensures ReplayVotes(t, votes).Err?
  {
    hide ReplayVote;
    if n < |votes| {
      var init := votes[..|votes| - 1];
      assert init[..n] == votes[..n];
      ReplayVotesStops(t, init, n);
    } else {
      assert votes[..n] == votes;
    }
  }

  lemma {:induction false} ReplayBlobsStops(t: Tx, blobs: seq<Option<Blob>>, n: nat)
    requires n <= |blobs| && ReplayBlobs(t, blobs[..n]).Err?
    ensures ReplayBlobs(t, blobs).Err?
  {
    hide ReplayBlob;
    if n < |blobs| {
      var init := blobs[..|blobs| - 1];
      assert init[..n] == blobs[..n];
      ReplayBlobsStops(t, init, n);
    } else {
      assert blobs[..n] == blobs;
    }
  }

  // The code

  /** A write transaction on a state tree. */
  class StateTreeTx {
    const state: State
    var tx: Option<Tx>

    constructor (state: State)
      ensures this.state == state && tx == Some(Tx(state.leaves, state.stored))
    {
      this.state := state;
      tx := Some(Tx(state.leaves, state.stored));
    }

    method SetRootAsBigInt(root: Option<Root>) returns (r: Result<(), Error>)
      requires tx.Some?
      modifies this
      ensures r.Ok? <==> root.Some? && SetRoot(old(tx).value, root.value).Ok?
      ensures tx == if r.Ok? then Some(SetRoot(old(tx).value, root.value).value) else old(tx)
    {
      if root.None? {
        return Err(Failed("nil state root"));
      }
      var moved := SetRoot(tx.value, root.value);
      if moved.Err? {
        return Err(moved.error);
      }
      tx := Some(moved.value);
      r := Ok(());
    }

    /** One vote: add or update its ballot leaf, then add its vote ID. */
    method ApplyVote(v: Vote) returns (r: Result<(), Error>)
      requires tx.Some?
      modifies this
      ensures r.Ok? <==> ReplayVote(old(tx).value, v).Ok?
      ensures tx.Some? && (r.Ok? ==> tx.value == ReplayVote(old(tx).value, v).value)
    {
      var found := Get(tx.value, v.ballotIndex);
      var written;
      if found.Err? {
        written := Add(tx.value, v.ballotIndex, TreeLeafValues(v));
      } else {
        var leaf := DecodeLeaf(found.value);
        if leaf.Err? {
          return Err(leaf.error);
        }
        written := Update(tx.value, v.ballotIndex, TreeLeafValues(v));
      }
      tx := Some(written.value);
      if Get(tx.value, v.voteID).Ok? {
        return Err(Failed("vote ID already exists"));
      }
      tx := Some(Add(tx.value, v.voteID, VOTE_ID_LEAF).value);
      r := Ok(());
    }

    method ApplyBlobData(data: BlobData) returns (r: Result<(), Error>)
      requires tx.Some?
      modifies this
      ensures r.Ok? <==> ReplayData(old(tx).value, data).Ok?
      ensures tx.Some? && (r.Ok? ==> tx.value == ReplayData(old(tx).value, data).value)
    {
      hide ReplayVote;
      for i := 0 to |data.votes|
        invariant tx.Some? && ReplayVotes(old(tx).value, data.votes[..i]) == Ok(tx.value)
      {
        assert data.votes[..i + 1][..i] == data.votes[..i];
        r := ApplyVote(data.votes[i]);
        if r.Err? {
          ReplayVotesStops(old(tx).value, data.votes, i + 1);
          return;
        }
      }
      assert data.votes[..|data.votes|] == data.votes;
      var results := SetBigInts(data.results);
      if results.Err? {
        return Err(Failed(results.error));
      }
      var updated := Update(tx.value, KEY_RESULTS, BigInts(results.value));
      if updated.Err? {
        return Err(updated.error);
      }
      tx := Some(updated.value);
      r := Ok(());
    }

    method ApplyBlobSidecar(blobs: seq<Option<Blob>>) returns (r: Result<(), Error>)
      requires tx.Some?
      modifies this
      ensures r.Ok? <==> ReplayBlobs(old(tx).value, blobs).Ok?
      ensures tx.Some? && (r.Ok? ==> tx.value == ReplayBlobs(old(tx).value, blobs).value)
    {
      hide ReplayData, Parse;
      for i := 0 to |blobs|
        invariant tx.Some? && ReplayBlobs(old(tx).value, blobs[..i]) == Ok(tx.value)
      {
        assert blobs[..i + 1][..i] == blobs[..i];
        if blobs[i].None? {
          continue;
        }
        var data := ParseBlobData(blobs[i].value);
        if data.Err? {
          ReplayBlobsStops(old(tx).value, blobs, i + 1);
          return Err(Failed(data.error));
        }
        r := ApplyBlobData(data.value);
        if r.Err? {
          ReplayBlobsStops(old(tx).value, blobs, i + 1);
          return;
        }
      }
      assert blobs[..|blobs|] == blobs;
      r := Ok(());
    }

    method Commit()
      requires tx.Some?
      modifies this, state
      ensures state.leaves == old(tx).value.leaves && state.stored == old(tx).value.stored && tx.None?
    {
      state.leaves, state.stored := tx.value.leaves, tx.value.stored;
      tx := None;
    }

    method Discard()
      modifies this
      ensures tx.None?
    {
      tx := None;
    }
  }

  /**
   Applies a sidecar from one root and commits only if it ends at the expected
   one; on any failure, a root mismatch included, the state is untouched.
   */
  method ApplyBlobSidecarFromRoot(state: State, rootBefore: Option<Root>, rootAfter: Option<Root>,
                                  sidecar: Option<seq<Option<Blob>>>)
    returns (r: Result<(), Error>)
    modifies state
    ensures r.Ok? <==> rootBefore.Some? && rootAfter.Some? && sidecar.Some?
                       && ReplayFrom(Tx(old(state.leaves), old(state.stored)),
                                     rootBefore.value, rootAfter.value, sidecar.value).Ok?
    ensures r.Ok? ==> Root(state.leaves) == rootAfter.value
                      && Tx(state.leaves, state.stored)
                         == ReplayFrom(Tx(old(state.leaves), old(state.stored)),
                                       rootBefore.value, rootAfter.value, sidecar.value).value
    ensures r.Err? ==> state.leaves == old(state.leaves) && state.stored == old(state.stored)
  {
    hide ReplayBlobs;
    if rootBefore.None? || rootAfter.None? || sidecar.None? {
      return Err(Failed("nil argument"));
    }
    var treeTx := new StateTreeTx(state);
    r := treeTx.SetRootAsBigInt(rootBefore);
    if r.Err? {
      treeTx.Discard();
      return;
    }
    r := treeTx.ApplyBlobSidecar(sidecar.value);
    if r.Err? {
      treeTx.Discard();
      return;
    }
    if Root(treeTx.tx.value.leaves) != rootAfter.value {
      treeTx.Discard();
      return Err(Failed("restored state root mismatch"));
    }
    treeTx.Commit();
  }

  // Replay refines commit

  /** Every ballot key holds a leaf that can be read, and the results are there. */
  ghost predicate Readable(leaves: Leaves) {
    && KEY_RESULTS in leaves
    && (forall k :: k in leaves && ValidBallotIndex(k) ==> DecodeLeaf(leaves[k]).Ok?)
  }

  lemma StagedVoteIsReadable(leaves: Leaves, v: Vote)
    requires Readable(leaves) && ValidVoteID(v.voteID) && ValidBallotIndex(v.ballotIndex)
    ensures Readable(StageVote(leaves, v))
  {
    hide DecodeLeaf, BigInts;
    LeafRoundTrip(v);
  }

  lemma {:induction false} StagedIsReadable(leaves: Leaves, votes: seq<Vote>)
    requires Readable(leaves) && KeysInRange(votes)
    ensures Readable(StageVotes(leaves, votes))
  {
    hide Readable, ValidVoteID, ValidBallotIndex;
    if |votes| > 0 {
      StagedIsReadable(leaves, votes[..|votes| - 1]);
      StagedVoteIsReadable(StageVotes(leaves, votes[..|votes| - 1]), votes[|votes| - 1]);
    }
  }

  /** One replayed vote succeeds exactly when its vote ID is new, and then stages the vote. */
  lemma ReplayedVote(t: Tx, v: Vote)
    requires Readable(t.leaves) && ValidVoteID(v.voteID) && ValidBallotIndex(v.ballotIndex)
    ensures ReplayVote(t, Carried(v)).Ok? <==> v.voteID !in t.leaves
    ensures ReplayVote(t, Carried(v)).Ok? ==> ReplayVote(t, Carried(v)).value.leaves == StageVote(t.leaves, v)
  {
    hide DecodeLeaf, BigInts;
    assert TreeLeafValues(Carried(v)) == TreeLeafValues(v);
  }

  /** The last vote ID is fresh exactly when no earlier write of the batch and no stored leaf has it. */
  lemma FreshStep(leaves: Leaves, votes: seq<Vote>)
    requires |votes| > 0 && KeysInRange(votes)
    ensures var init := votes[..|votes| - 1];
            FreshVoteIDs(leaves, votes) <==>
            FreshVoteIDs(leaves, init) && votes[|votes| - 1].voteID !in StageVotes(leaves, init)
  {
    var n := |votes| - 1;
    var init, v := votes[..n], votes[n];
    StagedKeys(leaves, init, v.voteID);
    assert forall i :: 0 <= i < n ==> init[i] == votes[i] && init[i].ballotIndex != v.voteID;
    if FreshVoteIDs(leaves, init) && v.voteID !in StageVotes(leaves, init) {
      forall i, j | 0 <= i < j < |votes| ensures votes[i].voteID != votes[j].voteID {
        if j == n {
          assert init[i].voteID != v.voteID;
        } else {
          assert init[i].voteID != init[j].voteID;
        }
      }
    }
  }

  lemma {:induction false} ReplayedVotes(t: Tx, votes: seq<Vote>)
    requires Readable(t.leaves) && KeysInRange(votes)
    ensures ReplayVotes(t, CarriedAll(votes)).Ok? <==> FreshVoteIDs(t.leaves, votes)
    ensures ReplayVotes(t, CarriedAll(votes)).Ok? ==>
            ReplayVotes(t, CarriedAll(votes)).value.leaves == StageVotes(t.leaves, votes)
  {
    hide Readable, ValidVoteID, ValidBallotIndex, ReplayVote, FreshVoteIDs, StageVote, Carried;
    var n := |votes| - 1;
    if n < 0 {
      assert FreshVoteIDs(t.leaves, votes) by {
        NothingIsFresh(t.leaves);
        assert votes == [];
      }
    } else {
      var init := votes[..n];
      assert CarriedAll(votes)[..n] == CarriedAll(init);
      ReplayedVotes(t, init);
      FreshStep(t.leaves, votes);
      StagedIsReadable(t.leaves, init);
      if ReplayVotes(t, CarriedAll(init)).Ok? {
        ReplayedVote(ReplayVotes(t, CarriedAll(init)).value, votes[n]);
      }
    }
  }

  lemma NothingIsFresh(leaves: Leaves)
    ensures FreshVoteIDs(leaves, [])
  {
  }

  /**
   Replaying a blob of results and votes succeeds exactly when all keys are in
   range and the vote IDs are new and pairwise distinct; it then stages the votes
   and writes the results, whatever they are.
   */
  lemma ReplayReaches(t: Tx, leaves: Leaves, votes: seq<Vote>, results: Ballot)
    requires Readable(leaves) && Root(leaves) in t.stored && |votes| <= VOTES_PER_BATCH
    requires Fits(BatchValues(results, votes))
    ensures
      var after := StageVotes(leaves, votes)[KEY_RESULTS := BigInts(results)];
      var r := ReplayFrom(t, Root(leaves), Root(after), [Some(BlobOf(BatchValues(results, votes)))]);
      && (r.Ok? <==> KeysInRange(votes) && FreshVoteIDs(leaves, votes))
      && (r.Ok? ==> r.value.leaves == after)
  {
    hide Readable, KeysInRange, FreshVoteIDs, BatchValues, Fits, BlobOf, BigInts, SetBigInts, StageVotes, ReplayVotes,
         Parse, CarriedAll;
    var blob := BlobOf(BatchValues(results, votes));
    BlobRoundTrip(results, votes);
    var from := SetRoot(t, Root(leaves)).value;
    ReplayOneBlob(from, blob);
    hide ReplayBlobs;
    if KeysInRange(votes) {
      assert Parse(blob).value == BlobData(BigInts(results), |votes|, CarriedAll(votes));
      ReplayedVotes(from, votes);
      StagedIsReadable(leaves, votes);
      CoordinatesRoundTrip(results, BigInts(results));
      ReadableHasResults(StageVotes(leaves, votes));
    }
  }

  /**
   For every accepted batch, replaying its blob from the root before it succeeds
   exactly when all keys are in range and the vote IDs are new and pairwise
   distinct; it then reaches the very leaves the batch commits.
   */
  lemma ReplayRefinesCommit(c: Curve, t: Tx, leaves: Leaves, votes: seq<Vote>)
    requires Readable(leaves) && Root(leaves) in t.stored && Accepts(c, leaves, votes)
    ensures
      var blob := BlobOf(BatchValues(BatchResults(c, leaves, votes), votes));
      var r := ReplayFrom(t, Root(leaves), Root(After(c, leaves, votes)), [Some(blob)]);
      && (r.Ok? <==> KeysInRange(votes) && FreshVoteIDs(leaves, votes))
      && (r.Ok? ==> r.value.leaves == After(c, leaves, votes))
  {
    hide Readable, KeysInRange, FreshVoteIDs, BatchValues, BlobOf, BatchResults, AllMatch, BigInts, ReplayFrom, StageVotes,
         LeafResults;
    ReplayReaches(t, leaves, votes, BatchResults(c, leaves, votes));
  }

  lemma {:induction false} VotesWriteNoResults(t: Tx, votes: seq<Vote>)
    requires KeysInRange(votes) && ReplayVotes(t, votes).Ok?
    ensures KEY_RESULTS in ReplayVotes(t, votes).value.leaves <==> KEY_RESULTS in t.leaves
  {
    hide DecodeLeaf, BigInts;
    if |votes| > 0 {
      var init := votes[..|votes| - 1];
      assert forall i :: 0 <= i < |init| ==> init[i] == votes[i];
      VotesWriteNoResults(t, init);
    }
  }

  /** Results are updated, never added: a state without them cannot be replayed upon. */
  lemma ReplayNeedsResults(t: Tx, data: BlobData)
    requires KeysInRange(data.votes)
    ensures ReplayData(t, data).Ok? ==> KEY_RESULTS in t.leaves && |data.results| == 32
  {
    hide BigInts;
    if ReplayVotes(t, data.votes).Ok? {
      VotesWriteNoResults(t, data.votes);
    }
  }

  /** A replay starts at a stored root and ends at the expected one, or fails. */
  lemma ReplayIsBound(t: Tx, rootBefore: Root, rootAfter: Root, blobs: seq<Option<Blob>>)
    ensures rootBefore !in t.stored ==> ReplayFrom(t, rootBefore, rootAfter, blobs).Err?
    ensures var r := ReplayFrom(t, rootBefore, rootAfter, blobs); r.Ok? ==> Root(r.value.leaves) == rootAfter
    ensures rootBefore in t.stored ==>
              var r := ReplayBlobs(t.(leaves := rootBefore.contents), blobs);
              ReplayFrom(t, rootBefore, rootAfter, blobs).Ok? <==> r.Ok? && Root(r.value.leaves) == rootAfter
  {
    hide ReplayBlobs;
  }

  lemma ReplayOneBlob(t: Tx, blob: Blob)
    ensures ReplayBlobs(t, [Some(blob)]) == ReplayBlob(t, blob)
  {
    hide ReplayBlob;
    assert [Some(blob)][..|[Some(blob)]| - 1] == [];
    assert ReplayBlobs(t, []) == Ok(t);
  }

  lemma ReadableHasResults(leaves: Leaves)
    requires Readable(leaves)
    ensures KEY_RESULTS in leaves
  {
  }
}
