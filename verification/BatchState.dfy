/** The state of one process, and the staged batches that change it. */
module BatchState {
  import opened Wrappers
  import opened Algebra
  import opened Params
  import opened Ballots
  import opened Tree
  import opened Votes
  import opened Bytes
  import opened Blobs
  import opened Staging

  function Written(leaves: Leaves, items: seq<(nat, seq<int>)>): Leaves {
    if |items| == 0 then leaves
    else Written(leaves, items[..|items| - 1])[items[|items| - 1].0 := items[|items| - 1].1]
  }

  lemma WrittenStep(leaves: Leaves, items: seq<(nat, seq<int>)>, n: nat)
    requires n < |items|
    ensures Written(leaves, items[..n + 1]) == Written(leaves, items[..n])[items[n].0 := items[n].1]
  {
    assert items[..n + 1][..n] == items[..n];
  }

  lemma WrittenNone(leaves: Leaves, items: seq<(nat, seq<int>)>)
    ensures Written(leaves, items[..0]) == leaves
  {
  }

  lemma FiveWrites(leaves: Leaves, items: seq<(nat, seq<int>)>)
    requires |items| == 5
    ensures Written(leaves, items) ==
            leaves[items[0].0 := items[0].1][items[1].0 := items[1].1][items[2].0 := items[2].1]
              [items[3].0 := items[3].1][items[4].0 := items[4].1]
  {
    assert items[..5] == items && items[..0] == [];
    WrittenStep(leaves, items, 0);
    WrittenStep(leaves, items, 1);
    WrittenStep(leaves, items, 2);
    WrittenStep(leaves, items, 3);
    WrittenStep(leaves, items, 4);
  }

  /** Adds the items in order; it succeeds exactly when none of their keys is taken. */
  method AddAll(from: Tx, items: seq<(nat, seq<int>)>) returns (r: Result<Tx, Error>)
    requires forall i, j :: 0 <= i < j < |items| ==> items[i].0 != items[j].0
    ensures r.Ok? <==> forall i :: 0 <= i < |items| ==> items[i].0 !in from.leaves
    ensures r.Ok? ==> r.value.leaves == Written(from.leaves, items) && from.stored <= r.value.stored
    ensures r.Ok? && |items| > 0 ==> Root(r.value.leaves) in r.value.stored
  {
    hide Written;
    var t := from;
    WrittenNone(from.leaves, items);
    for i := 0 to |items|
      invariant from.stored <= t.stored && (i > 0 ==> Root(t.leaves) in t.stored)
      invariant forall j :: 0 <= j < i ==> items[j].0 !in from.leaves
      invariant forall j :: i <= j < |items| ==> (items[j].0 in t.leaves <==> items[j].0 in from.leaves)
      invariant t.leaves == Written(from.leaves, items[..i])
    {
      WrittenStep(from.leaves, items, i);
      t :- Add(t, items[i].0, items[i].1);
    }
    assert items[..|items|] == items;
    r := Ok(t);
  }

  /** A state tree: the current leaves, and the roots whose nodes are in its database. */
  class State {
    const curve: Curve
    var leaves: Leaves
    var stored: set<Root>

    constructor (curve: Curve, leaves: Leaves, stored: set<Root>)
      ensures this.curve == curve && this.leaves == leaves && this.stored == stored
    {
      this.curve, this.leaves, this.stored := curve, leaves, stored;
    }

    /** Adds the configuration leaves; refused, and nothing changed, if any of them exists. */
    method Initialize(processID: int, censusOrigin: int, ballotMode: int, encryptionKey: seq<int>)
      returns (r: Result<(), string>)
      modifies this
      ensures r.Ok? <==> CONFIG_KEYS !! old(leaves).Keys
      ensures r.Ok? ==> leaves == Initialized(curve, old(leaves), processID, censusOrigin, ballotMode, encryptionKey)
                        && Root(leaves) in stored && old(stored) <= stored
      ensures r.Err? ==> leaves == old(leaves) && stored == old(stored)
    {
      hide BigInts, ZeroBallot, Written;
      var t := Tx(leaves, stored);
      if Get(t, KEY_PROCESS_ID).Ok? {
        assert KEY_PROCESS_ID in CONFIG_KEYS;
        return Err("state already initialized");
      }
      var items := [(KEY_PROCESS_ID, [processID]), (KEY_BALLOT_MODE, [ballotMode]), (KEY_ENCRYPTION_KEY, encryptionKey),
                    (KEY_RESULTS, BigInts(ZeroBallot(curve))), (KEY_CENSUS_ORIGIN, [censusOrigin])];
      var added := AddAll(t, items);
      assert CONFIG_KEYS == {items[0].0, items[1].0, items[2].0, items[3].0, items[4].0};
      FiveWrites(leaves, items);
      if added.Err? {
        return Err("could not set configuration key");
      }
      leaves, stored := added.value.leaves, added.value.stored;
      r := Ok(());
    }

    /**
     Stages a batch without committing it. It succeeds exactly for the accepted
     batches, leaves the state alone, and describes the whole staged batch.
     */
    method PrepareVotesBatch(votes: seq<Vote>) returns (r: Result<Batch, string>)
      ensures r.Ok? <==> Accepts(curve, leaves, votes)
      ensures r.Ok? ==> fresh(r.value) && r.value.state == this && r.value.base == leaves
                        && r.value.Prepared(votes) && stored <= r.value.tx.value.stored
    {
      hide Accepts, MetadataMatches, Batch.Prepared, Batch.Staging;
      var batch := new Batch(this);
      var added := batch.AddVotes(votes);
      if added.Err? {
        batch.Discard();
        return Err(added.error);
      }
      var prepared := batch.PrepareTransitions(votes);
      if prepared.Err? {
        batch.Discard();
        return Err(prepared.error);
      }
      r := Ok(batch);
    }

    /** Prepares and commits: the leaves become the staged ones, or nothing changes. */
    method AddVotesBatch(votes: seq<Vote>) returns (r: Result<(), string>)
      modifies this
      ensures r.Ok? <==> Accepts(curve, old(leaves), votes)
      ensures r.Ok? ==> leaves == After(curve, old(leaves), votes)
                        && old(stored) <= stored && Root(leaves) in stored
      ensures r.Err? ==> leaves == old(leaves) && stored == old(stored)
    {
      var batch := PrepareVotesBatch(votes);
      if batch.Err? {
        return Err(batch.error);
      }
      r := batch.value.Commit();
    }
  }

  /** A staged batch: its transaction, sums, counters, votes and witness data. */
  class Batch {
    const state: State
    var tx: Option<Tx>
    var committed: bool
    var discarded: bool
    var oldResults: Ballot
    var newResults: Ballot
    var allBallotsSum: Ballot
    var overwrittenSum: Ballot
    var votersCount: nat
    var overwrittenVotesCount: nat
    var votes: seq<Vote>
    var rootHashBefore: Option<Root>
    var rootHashAfter: Option<Root>
    var processProofs: seq<Proof>
    var ballotTransitions: seq<Transition>
    var voteIDTransitions: seq<Transition>
    var resultsTransition: Option<Transition>
    var blob: Option<seq<byte>>
    ghost var base: Leaves

    constructor (state: State)
      ensures this.state == state && base == state.leaves
      ensures tx == Some(Tx(state.leaves, state.stored)) && Staging([])
    {
      this.state := state;
      tx := Some(Tx(state.leaves, state.stored));
      committed, discarded := false, false;
      oldResults, newResults := ZeroBallot(state.curve), ZeroBallot(state.curve);
      allBallotsSum, overwrittenSum := ZeroBallot(state.curve), ZeroBallot(state.curve);
      votersCount, overwrittenVotesCount := 0, 0;
      votes := [];
      rootHashBefore, rootHashAfter, resultsTransition, blob := None, None, None, None;
      processProofs, ballotTransitions, voteIDTransitions := [], [], [];
      base := state.leaves;
    }

    /** The sums and counters account for exactly the votes `vs`; nothing is written yet. */
    ghost predicate Staging(vs: seq<Vote>)
      reads this
    {
      && tx.Some? && tx.value.leaves == base
      && !committed && !discarded
      && votes == RecordedAll(state.curve, base, vs)
      && allBallotsSum == AllSum(state.curve, vs)
      && overwrittenSum == OverwrittenSum(state.curve, base, vs)
      && votersCount == |vs|
      && overwrittenVotesCount == OverwrittenCount(base, vs)
      && ballotTransitions == [] && voteIDTransitions == []
    }

    /** The sums, counters and results of the votes `vs`. */
    ghost predicate Accounted(vs: seq<Vote>)
      reads this
    {
      && LeafResults(StageVotes(base, vs)).Ok?
      && votes == RecordedAll(state.curve, base, vs)
      && votersCount == |vs|
      && overwrittenVotesCount == OverwrittenCount(base, vs)
      && oldResults == LeafResults(StageVotes(base, vs)).value
      && newResults == BatchResults(state.curve, base, vs)
    }

    /** The proofs, the transitions and both roots. */
    ghost predicate Witnessed(vs: seq<Vote>)
      reads this
    {
      && LeafResults(StageVotes(base, vs)).Ok?
      && rootHashBefore == Some(Root(base))
      && rootHashAfter == Some(Root(After(state.curve, base, vs)))
      && |processProofs| == 4
      && Proves(processProofs[0], base, KEY_PROCESS_ID)
      && Proves(processProofs[1], base, KEY_CENSUS_ORIGIN)
      && Proves(processProofs[2], base, KEY_BALLOT_MODE)
      && Proves(processProofs[3], base, KEY_ENCRYPTION_KEY)
      && |ballotTransitions| == VOTES_PER_BATCH
      && Chain(base, vs, ballotTransitions, voteIDTransitions)
      && resultsTransition.Some?
      && Writes(resultsTransition.value, StageVotes(base, vs), KEY_RESULTS, BigInts(newResults))
    }

    /** The transaction holds the staged leaves. */
    ghost predicate Staged(vs: seq<Vote>)
      reads this
    {
      && LeafResults(StageVotes(base, vs)).Ok?
      && tx.Some? && tx.value.leaves == After(state.curve, base, vs) && Root(tx.value.leaves) in tx.value.stored
      && !committed && !discarded
    }

    /** Everything the batch holds once its transitions are prepared. */
    ghost predicate Prepared(vs: seq<Vote>)
      reads this
    {
      && Accepts(state.curve, base, vs)
      && Staged(vs) && Accounted(vs) && Witnessed(vs)
      && blob == Some(BlobOf(BatchValues(newResults, vs)))
    }

    /** Accounts for one vote; refused when the batch is full or the stored metadata differs. */
    method AddVote(v: Vote, ghost vs: seq<Vote>) returns (r: Result<(), string>)
      requires Staging(vs)
      modifies this
      ensures r.Ok? <==> |vs| < VOTES_PER_BATCH && MetadataMatches(base, v)
      ensures v.ballotIndex !in base ==> (r.Ok? <==> |vs| < 60)
      ensures v.ballotIndex in base && |base[v.ballotIndex]| == 34 ==>
                (r.Ok? <==> |vs| < 60 && HasOwner(base[v.ballotIndex], v))
      ensures tx == old(tx) && base == old(base)
      ensures Staging(if r.Ok? then vs + [v] else vs)
    {
      hide AddBallots, ZeroBallot, StoredLeaf, AllSum, OverwrittenSum, OverwrittenCount, RecordedAll;
      AccountingStep(state.curve, base, vs, v);
      OwnerOfStored(base, v);
      if |votes| >= VOTES_PER_BATCH {
        return Err("too many votes for this batch");
      }
      var overwritten := ZeroBallot(state.curve);
      match StoredLeaf(tx.value.leaves, v.ballotIndex) {
        case Some(oldLeaf) =>
          if v.address != Some(oldLeaf.address) || v.weight != Some(oldLeaf.weight) {
            return Err("stored ballot leaf metadata mismatch");
          }
          overwrittenSum := AddBallots(state.curve, overwrittenSum, oldLeaf.ballot);
          overwrittenVotesCount := overwrittenVotesCount + 1;
          overwritten := oldLeaf.ballot;
        case None =>
      }
      allBallotsSum := AddBallots(state.curve, allBallotsSum, v.reencryptedBallot);
      votersCount := votersCount + 1;
      votes := votes + [v.(overwrittenBallot := Some(overwritten))];
      r := Ok(());
    }

    /** Accounts for the votes in order, stopping at the first refused one. */
    method AddVotes(vs: seq<Vote>) returns (r: Result<(), string>)
      requires Staging([])
      modifies this
      ensures tx == old(tx) && base == old(base)
      ensures r.Ok? ==> Staging(vs) && |vs| <= VOTES_PER_BATCH && AllMatch(base, vs)
      ensures r.Err? ==> !Accepts(state.curve, base, vs)
    {
      hide Accepts, MetadataMatches, Batch.Staging;
      assert |vs| > 0 ==> vs[..0] == [];
      for i := 0 to |vs|
        invariant Staging(vs[..i]) && tx == old(tx) && base == old(base)
        invariant i <= VOTES_PER_BATCH && AllMatch(base, vs[..i])
      {
        var added := AddVote(vs[i], vs[..i]);
        if added.Err? {
          Refused(state.curve, base, vs, i);
          return added;
        }
        assert vs[..i + 1] == vs[..i] + [vs[i]];
      }
      assert vs[..|vs|] == vs;
      r := Ok(());
    }

    /** Adds or updates a key, returning the transition between the two proofs taken around the write. */
    method AddOrUpdate(key: nat, values: seq<int>) returns (t: Transition)
      requires tx.Some?
      modifies this`tx
      ensures tx == Some(Write(old(tx.value), key, values))
      ensures Writes(t, old(tx.value.leaves), key, values)
    {
      var before := GenerateProof(tx.value.leaves, key);
      var written := if Get(tx.value, key).Err? then Add(tx.value, key, values) else Update(tx.value, key, values);
      tx := Some(written.value);
      var after := GenerateProof(tx.value.leaves, key);
      WriteIsClassified(before, after, old(tx.value.leaves), key, values);
      t := FromProofPair(before, after);
    }

    /** Stages one vote: its ballot leaf, then its vote ID leaf. */
    method StageSlot(v: Vote) returns (ballot: Transition, voteID: Transition)
      requires tx.Some?
      modifies this`tx
      ensures tx.Some? && tx.value.leaves == StageVote(old(tx.value.leaves), v)
      ensures old(tx.value.stored) <= tx.value.stored
      ensures Writes(ballot, old(tx.value.leaves), v.ballotIndex, TreeLeafValues(v))
      ensures Writes(voteID, old(tx.value.leaves)[v.ballotIndex := TreeLeafValues(v)], v.voteID, VOTE_ID_LEAF)
    {
      ballot := AddOrUpdate(v.ballotIndex, TreeLeafValues(v));
      voteID := AddOrUpdate(v.voteID, VOTE_ID_LEAF);
    }

    /** Stages the slots of a batch: its votes in order, then padding. */
    method StageSlots(ghost vs: seq<Vote>)
      requires Staging(vs) && |vs| <= VOTES_PER_BATCH
      modifies this`tx, this`ballotTransitions, this`voteIDTransitions
      ensures tx.Some? && tx.value.leaves == StageVotes(base, vs) && old(tx.value.stored) <= tx.value.stored
      ensures |ballotTransitions| == VOTES_PER_BATCH
      ensures Chain(base, vs, ballotTransitions, voteIDTransitions)
    {
      hide StageVotes, Writes, TreeLeafValues, FromNoop, AllSum, OverwrittenSum, OverwrittenCount;
      StageNone(base);
      assert |vs| > 0 ==> vs[..0] == [];
      for i := 0 to VOTES_PER_BATCH
        invariant tx.Some? && old(tx.value.stored) <= tx.value.stored
        invariant Root(tx.value.leaves) == SlotRoot(base, vs, i)
        invariant |ballotTransitions| == i && Chain(base, vs, ballotTransitions, voteIDTransitions)
      {
        var ballot, voteID;
        if i < |votes| {
          assert TreeLeafValues(votes[i]) == TreeLeafValues(vs[i]) by {
            RecordedLeaf(state.curve, base, vs[i]);
          }
          ballot, voteID := StageSlot(votes[i]);
          StageStep(base, vs, i);
          assert i + 1 == |vs| ==> vs[..i + 1] == vs;
        } else {
          ballot := FromNoop(Root(tx.value.leaves));
          voteID := FromNoop(Root(tx.value.leaves));
        }
        assert Slot(base, vs, i, ballot, voteID);
        ballotTransitions, voteIDTransitions := ballotTransitions + [ballot], voteIDTransitions + [voteID];
      }
    }

    /** The process proofs, taken before anything is written. */
    method ProveProcess()
      requires tx.Some?
      modifies this`processProofs, this`rootHashBefore
      ensures rootHashBefore == Some(Root(tx.value.leaves))
      ensures |processProofs| == 4
      ensures Proves(processProofs[0], tx.value.leaves, KEY_PROCESS_ID)
      ensures Proves(processProofs[1], tx.value.leaves, KEY_CENSUS_ORIGIN)
      ensures Proves(processProofs[2], tx.value.leaves, KEY_BALLOT_MODE)
      ensures Proves(processProofs[3], tx.value.leaves, KEY_ENCRYPTION_KEY)
    {
      rootHashBefore := Some(Root(tx.value.leaves));
      var id := GenerateProof(tx.value.leaves, KEY_PROCESS_ID);
      var origin := GenerateProof(tx.value.leaves, KEY_CENSUS_ORIGIN);
      var mode := GenerateProof(tx.value.leaves, KEY_BALLOT_MODE);
      var key := GenerateProof(tx.value.leaves, KEY_ENCRYPTION_KEY);
      processProofs := [id, origin, mode, key];
    }

    /** Reads the results, adds the batch, subtracts what it overwrites, and stages the sum. */
    method StageResults(ghost vs: seq<Vote>) returns (r: Result<(), string>)
      requires tx.Some? && tx.value.leaves == StageVotes(base, vs)
      requires allBallotsSum == AllSum(state.curve, vs)
      requires overwrittenSum == OverwrittenSum(state.curve, base, vs)
      modifies this`tx, this`oldResults, this`newResults, this`resultsTransition, this`rootHashAfter
      ensures tx.Some? && old(tx.value.stored) <= tx.value.stored
      ensures r.Ok? <==> LeafResults(StageVotes(base, vs)).Ok?
      ensures r.Ok? ==>
        && oldResults == LeafResults(StageVotes(base, vs)).value
        && newResults == BatchResults(state.curve, base, vs)
        && tx.value.leaves == After(state.curve, base, vs) && Root(tx.value.leaves) in tx.value.stored
        && rootHashAfter == Some(Root(After(state.curve, base, vs)))
        && resultsTransition.Some?
        && Writes(resultsTransition.value, StageVotes(base, vs), KEY_RESULTS, BigInts(newResults))
    {
      hide Writes, AllSum, OverwrittenSum, AddBallots, NegBallot, BigInts, StageVotes;
      var fromTree := ResultsOf(tx.value);
      if fromTree.Err? {
        return Err("results not found in state");
      }
      oldResults := fromTree.value;
      newResults := AddBallots(state.curve, oldResults, allBallotsSum);
      newResults := AddBallots(state.curve, newResults, NegBallot(state.curve, overwrittenSum));
      var results := AddOrUpdate(KEY_RESULTS, BigInts(newResults));
      resultsTransition := Some(results);
      rootHashAfter := Some(Root(tx.value.leaves));
      r := Ok(());
    }

    /** Generates the proofs and stages every mutation. */
    method StageTransitions(ghost vs: seq<Vote>) returns (r: Result<(), string>)
      requires Staging(vs) && |vs| <= VOTES_PER_BATCH
      modifies this
      ensures base == old(base)
      ensures r.Ok? <==> LeafResults(StageVotes(base, vs)).Ok?
      ensures r.Ok? ==> Staged(vs) && Accounted(vs) && Witnessed(vs) && old(tx.value.stored) <= tx.value.stored
    {
      hide Proves, Writes, AllSum, OverwrittenSum, OverwrittenCount, AddBallots, NegBallot,
           BigInts, Chain, RecordedAll, StageVotes, ZeroBallot, LeafResults, BatchResults, After,
           SlotRoot;
      ProveProcess();
      StageSlots(vs);
      r := StageResults(vs);
    }

    /** Stages the batch and builds its blob. */
    method PrepareTransitions(ghost vs: seq<Vote>) returns (r: Result<(), string>)
      requires Staging(vs) && |vs| <= VOTES_PER_BATCH && AllMatch(base, vs)
      modifies this
      ensures base == old(base)
      ensures r.Ok? <==> Accepts(state.curve, base, vs)
      ensures r.Ok? ==> Prepared(vs) && old(tx.value.stored) <= tx.value.stored
    {
      hide Batch.Staging, AllMatch, BatchValues, Encodable, BlobOf, StageVotes, LeafResults, BatchResults, RecordedAll,
           Proves, Writes, Chain, LaidOut, Committable;
      r := StageTransitions(vs);
      if r.Err? {
        return;
      }
      var encoded := ComputeBlob(newResults, votes);
      assert BatchValues(newResults, votes) == BatchValues(newResults, vs) by {
        SameValues(state.curve, base, vs, newResults);
      }
      if encoded.Err? {
        return Err(encoded.error);
      }
      blob := Some(encoded.value);
      r := Ok(());
    }

    /** Publishes the staged leaves; a second commit, or one after a discard, is an error. */
    method Commit() returns (r: Result<(), string>)
      modifies this, state
      ensures r.Ok? <==> old(tx).Some?
      ensures r.Ok? ==> state.leaves == old(tx).value.leaves && state.stored == old(tx).value.stored
                        && tx.None? && committed && rootHashAfter.Some?
                        && (old(rootHashAfter).Some? ==> rootHashAfter == old(rootHashAfter))
      ensures r.Err? ==> state.leaves == old(state.leaves) && state.stored == old(state.stored)
    {
      if tx.None? {
        return Err(if discarded then "state batch was discarded" else "no active state batch transaction");
      }
      if rootHashAfter.None? {
        rootHashAfter := Some(Root(tx.value.leaves));
      }
      state.leaves, state.stored := tx.value.leaves, tx.value.stored;
      tx := None;
      committed := true;
      r := Ok(());
    }

    /** Drops an uncommitted batch; harmless after a commit or another discard. */
    method Discard()
      modifies this
      ensures tx.None? && committed == old(committed)
      ensures discarded == (old(discarded) || old(tx).Some?)
      ensures rootHashAfter == old(rootHashAfter)
    {
      if tx.None? {
        return;
      }
      tx := None;
      discarded := true;
    }

    /** The staged root while the transaction is open, the captured one after a commit. */
    method RootAsBigInt() returns (r: Result<Root, string>)
      ensures tx.Some? ==> r == Ok(Root(tx.value.leaves))
      ensures tx.None? ==> (r.Ok? <==> !discarded && committed && rootHashAfter.Some?)
      ensures tx.None? && r.Ok? ==> r.value == rootHashAfter.value
    {
      if tx.None? {
        if discarded {
          return Err("state batch was discarded");
        }
        if !committed {
          return Err("state batch transaction is not active");
        }
        if rootHashAfter.None? {
          return Err("state batch root hash after is not available");
        }
        return Ok(rootHashAfter.value);
      }
      r := Ok(Root(tx.value.leaves));
    }
  }
}
