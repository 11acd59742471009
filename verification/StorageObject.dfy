/** The storage object: each method takes the global lock and is one atomic step. */
module StorageObject {
  import opened Wrappers
  import opened Queues
  import opened Counters
  import opened Store

  /** Pending ballots are stored under their own vote ID. */
  predicate KeysMatch(db: Db) {
    forall v :: v in db.pending ==> db.pending[v].voteID == v
  }

  // One more step of each loop

  /** Removing one pending ballot: its reservation, its entry and its locks. */
  function RemoveOnePending(db: Db, b: PendingBallot): Db {
    db.(
      pending := db.pending - {b.voteID},
      reservedPending := db.reservedPending - {b.voteID},
      voteLocks := db.voteLocks - {b.voteID},
      addressLocks := db.addressLocks - {PendingLock(b)})
  }

  lemma WithoutPendingStep(db: Db, gone: set<VoteID>, v: VoteID)
    requires gone + {v} <= db.pending.Keys
    ensures WithoutPending(db, gone + {v}) == RemoveOnePending(WithoutPending(db, gone), db.pending[v])
  {
    var whole, part := WithoutPending(db, gone + {v}), RemoveOnePending(WithoutPending(db, gone), db.pending[v]);
    assert IDsOf(db, gone + {v}) == IDsOf(db, gone) + {db.pending[v].voteID};
    assert whole.pending == part.pending;
    assert whole.reservedPending == part.reservedPending;
    assert whole.voteLocks == part.voteLocks;
    assert whole.addressLocks == part.addressLocks;
  }

  lemma WithoutPendingNone(db: Db)
    ensures WithoutPending(db, {}) == db
  {
    var part := WithoutPending(db, {});
    assert IDsOf(db, {}) == {};
    assert part.pending == db.pending && part.reservedPending == db.reservedPending;
    assert part.voteLocks == db.voteLocks && part.addressLocks == db.addressLocks;
  }

  lemma WithoutAggregatedStep(db: Db, gone: set<AggregatorBatch>, b: AggregatorBatch)
    ensures WithoutAggregated(db, gone + {b}) == WithoutAggregated(WithoutAggregated(db, gone), {b})
  {
    var whole, part := WithoutAggregated(db, gone + {b}), WithoutAggregated(WithoutAggregated(db, gone), {b});
    assert whole.aggregated == part.aggregated && whole.reservedAggregated == part.reservedAggregated;
  }

  lemma WithoutTransitionsStep(db: Db, gone: set<TransitionBatch>, t: TransitionBatch)
    ensures WithoutTransitions(db, gone + {t}) == WithoutTransitions(WithoutTransitions(db, gone), {t})
  {
    var whole, part := WithoutTransitions(db, gone + {t}), WithoutTransitions(WithoutTransitions(db, gone), {t});
    assert whole.transitions == part.transitions && whole.reservedTransitions == part.reservedTransitions;
  }

  lemma WithoutBatchesNone(db: Db)
    ensures WithoutAggregated(db, {}) == db && WithoutTransitions(db, {}) == db
  {
    var a, t := WithoutAggregated(db, {}), WithoutTransitions(db, {});
    assert a.aggregated == db.aggregated && a.reservedAggregated == db.reservedAggregated;
    assert t.transitions == db.transitions && t.reservedTransitions == db.reservedTransitions;
  }

  lemma IsPendingOf(db: Db, p: ProcessID, entries: set<VoteID>)
    requires entries == set v | v in db.pending && db.pending[v].processID == p
    ensures entries == PendingOf(db, p) <= db.pending.Keys
  {
  }

  /** Some ballots of a process removed, each taken off the pending counter. */
  function Discarded(db: Db, p: ProcessID, gone: set<VoteID>): Db
    requires gone <= db.pending.Keys
  {
    WithoutPending(db, gone).(books := Discounted(db.books, p, |gone|))
  }

  lemma DiscountNone(b: Books, p: ProcessID)
    ensures Discounted(b, p, 0) == b
  {
  }

  lemma DiscardStep(db: Db, p: ProcessID, gone: set<VoteID>, v: VoteID)
    requires gone + {v} <= db.pending.Keys && v !in gone
    ensures var part := RemoveOnePending(Discarded(db, p, gone), db.pending[v]);
            Discarded(db, p, gone + {v}) == part.(books := Updated(part.books, p, [PendingVotes(-1)]))
  {
    hide Updated, WithoutPending;
    WithoutPendingStep(db, gone, v);
    assert |gone + {v}| == |gone| + 1;
  }

  /** Removing one verified ballot: its reservation, its entry, and its locks if it was there. */
  function RemoveOneVerified(db: Db, k: VerifiedKey): Db {
    var known := k in db.verified;
    db.(
      verified := db.verified - {k},
      reservedVerified := db.reservedVerified - {k},
      voteLocks := if known then db.voteLocks - {db.verified[k].voteID} else db.voteLocks,
      addressLocks := if known then db.addressLocks - {LockOf(db.verified[k])} else db.addressLocks)
  }

  lemma WithoutVerifiedStep(db: Db, gone: set<VerifiedKey>, k: VerifiedKey)
    ensures WithoutVerified(db, gone + {k}) == RemoveOneVerified(WithoutVerified(db, gone), k)
  {
    var whole, part := WithoutVerified(db, gone + {k}), RemoveOneVerified(WithoutVerified(db, gone), k);
    assert whole.verified == part.verified;
    assert whole.reservedVerified == part.reservedVerified;
    assert whole.voteLocks == part.voteLocks;
    assert whole.addressLocks == part.addressLocks;
  }

  lemma WithoutVerifiedNone(db: Db)
    ensures WithoutVerified(db, {}) == db
  {
    var part := WithoutVerified(db, {});
    assert part.verified == db.verified && part.reservedVerified == db.reservedVerified;
    assert part.voteLocks == db.voteLocks && part.addressLocks == db.addressLocks;
  }

  lemma RemoveOneIsWithout(db: Db, k: VerifiedKey)
    ensures RemoveOneVerified(db, k) == WithoutVerified(db, {k})
  {
    WithoutVerifiedNone(db);
    WithoutVerifiedStep(db, {}, k);
    assert {} + {k} == {k};
  }

  /** Marking a ballot first and dropping it then is what failing it does. */
  lemma DropIsWithout(db: Db, marked: Db, k: VerifiedKey)
    requires k in db.verified && marked == db.(statuses := marked.statuses)
    ensures RemoveOneVerified(marked, k) == WithoutVerified(db, {k}).(statuses := marked.statuses)
  {
    RemoveOneIsWithout(db, k);
  }

  lemma FailKeysNone(m: Statuses, kept: set<Status>)
    ensures FailKeys(m, {}, kept) == m
  {
    assert m.Keys + {} == m.Keys;
  }

  lemma FailKeysStep(m: Statuses, keys: set<VerifiedKey>, k: VerifiedKey, kept: set<Status>)
    ensures FailKeys(FailKeys(m, keys, kept), {k}, kept) == FailKeys(m, keys + {k}, kept)
  {
    assert FailKeys(FailKeys(m, keys, kept), {k}, kept).Keys == FailKeys(m, keys + {k}, kept).Keys;
  }

  lemma FailKeysJoin(m: Statuses, keys: set<VerifiedKey>, more: set<VerifiedKey>, kept: set<Status>)
    ensures FailKeys(FailKeys(m, keys, kept), more, kept) == FailKeys(m, keys + more, kept)
  {
    assert FailKeys(FailKeys(m, keys, kept), more, kept).Keys == FailKeys(m, keys + more, kept).Keys;
  }

  function StatusKeys(p: ProcessID, ballots: seq<AggregatorBallot>): set<VerifiedKey> {
    set b | b in ballots :: VerifiedKey(p, b.voteID)
  }

  ghost function BatchKeys(batches: set<AggregatorBatch>): set<VerifiedKey> {
    set b, a | b in batches && a in b.ballots :: VerifiedKey(b.processID, a.voteID)
  }

  ghost function BatchVotes(batches: set<AggregatorBatch>): set<VoteID> {
    set b, a | b in batches && a in b.ballots :: a.voteID
  }

  lemma BatchKeysNone()
    ensures BatchKeys({}) == {} && BatchVotes({}) == {}
  {
  }

  lemma BatchKeysStep(batches: set<AggregatorBatch>, b: AggregatorBatch)
    ensures BatchKeys(batches + {b}) == BatchKeys(batches) + StatusKeys(b.processID, b.ballots)
    ensures BatchVotes(batches + {b}) == BatchVotes(batches) + VoteIDs(b.ballots)
  {
  }

  ghost function TransitionKeys(batches: set<TransitionBatch>): set<VerifiedKey> {
    set t, a | t in batches && a in t.ballots :: VerifiedKey(t.processID, a.voteID)
  }

  ghost function TransitionVotes(batches: set<TransitionBatch>): set<VoteID> {
    set t, a | t in batches && a in t.ballots :: a.voteID
  }

  lemma TransitionKeysNone()
    ensures TransitionKeys({}) == {} && TransitionVotes({}) == {}
  {
  }

  lemma TransitionKeysStep(batches: set<TransitionBatch>, t: TransitionBatch)
    ensures TransitionKeys(batches + {t}) == TransitionKeys(batches) + StatusKeys(t.processID, t.ballots)
    ensures TransitionVotes(batches + {t}) == TransitionVotes(batches) + VoteIDs(t.ballots)
  {
  }

  lemma {:induction false} PostedJoins(b: Books, first: seq<(ProcessID, seq<Update>)>, second: seq<(ProcessID, seq<Update>)>)
    ensures Posted(b, first + second) == Posted(Posted(b, first), second)
  {
    if |second| == 0 {
      assert first + second == first;
    } else {
      var init := second[..|second| - 1];
      PostedJoins(b, first, init);
      assert (first + second)[..|first + second| - 1] == first + init;
    }
  }

  lemma PostedStep(b: Books, entries: seq<(ProcessID, seq<Update>)>, p: ProcessID, us: seq<Update>)
    ensures Posted(b, entries + [(p, us)]) == Updated(Posted(b, entries), p, us)
  {
    assert (entries + [(p, us)])[..|entries|] == entries;
  }

  lemma FailBooksNone(b: Books, c: Counts)
    ensures FailBooks(b, c, []) == b
  {
  }

  lemma FailBooksStep(b: Books, c: Counts, order: seq<ProcessID>, p: ProcessID)
    requires p in c
    ensures FailBooks(b, c, order + [p]) ==
            if c[p] > 0 then Updated(FailBooks(b, c, order), p, [VerifiedVotes(-c[p]), CurrentBatchSize(-c[p])])
            else FailBooks(b, c, order)
  {
    assert (order + [p])[..|order|] == order;
  }

  lemma {:induction false} FailAggregatedKeepsBooks(db: Db, batch: AggregatorBatch, n: nat)
    requires n <= |batch.ballots|
    ensures FailAggregated(db, batch, n).0.books == db.books
  {
    if n > 0 {
      FailAggregatedKeepsBooks(db, batch, n - 1);
    }
  }

  lemma VoteIDsStep(ballots: seq<AggregatorBallot>, i: nat)
    requires i < |ballots|
    ensures VoteIDs(ballots[..i + 1]) == VoteIDs(ballots[..i]) + {ballots[i].voteID}
  {
    assert forall b :: b in ballots[..i + 1] <==> b in ballots[..i] || b == ballots[i];
  }

  lemma SetStatusesStep(m: Statuses, p: ProcessID, ballots: seq<AggregatorBallot>, s: Status, i: nat)
    requires i < |ballots|
    ensures SetStatuses(m, p, ballots[..i + 1], s) ==
            SetStatus(SetStatuses(m, p, ballots[..i], s), VerifiedKey(p, ballots[i].voteID), s)
  {
    assert ballots[..i + 1][..i] == ballots[..i];
  }

  /** The key-value database, one component per prefix. */
  datatype Database = Database(
    pending: map<VoteID, PendingBallot>,
    verified: map<VerifiedKey, VerifiedBallot>,
    aggregated: set<AggregatorBatch>,
    pendingAgg: map<ProcessID, AggregatorBatch>,
    transitions: set<TransitionBatch>,
    reservedPending: set<VoteID>,
    reservedVerified: set<VerifiedKey>,
    reservedAggregated: set<AggregatorBatch>,
    reservedTransitions: set<TransitionBatch>,
    statuses: Statuses,
    pendingTx: set<ProcessID>,
    info: map<ProcessID, ProcessInfo>,
    books: Books)

  class Storage {
    var db: Database
    var voteLocks: set<VoteID>
    var addressLocks: set<AddressLock>

    constructor ()
      ensures Snapshot() == EMPTY
    {
      db := Database(map[], map[], {}, map[], {}, {}, {}, {}, {}, map[], {}, map[], Books(map[], NO_TOTALS));
      voteLocks, addressLocks := {}, {};
    }

    /** The database and the two lock maps in memory. */
    function Snapshot(): Db
      reads this
    {
      Db(db.pending, db.verified, db.aggregated, db.pendingAgg, db.transitions,
         db.reservedPending, db.reservedVerified, db.reservedAggregated, db.reservedTransitions,
         voteLocks, addressLocks, db.statuses, db.pendingTx, db.info, db.books)
    }

    // Helpers

    method UpdateProcessStats(p: ProcessID, us: seq<Update>) returns (r: Result<(), string>)
      modifies this`db
      ensures r.Ok? <==> UpdateStats(old(db).books, p, us).Ok?
      ensures r.Err? ==> r.error == UpdateStats(old(db).books, p, us).error
      ensures db == old(db).(books := Updated(old(db).books, p, us))
    {
      hide ValidProcessID;
      var updated := ApplyUpdates(db.books, p, us);
      if updated.Err? {
        return Err(updated.error);
      }
      db := db.(books := updated.value);
      r := Ok(());
    }

    method SetVoteIDStatus(p: ProcessID, v: VoteID, s: Status)
      modifies this`db
      ensures db == old(db).(statuses := SetStatus(old(db).statuses, VerifiedKey(p, v), s))
    {
      var k := VerifiedKey(p, v);
      if k in db.statuses && db.statuses[k] == StatusDone {
        return;
      }
      db := db.(statuses := db.statuses[k := s]);
    }

    method SetAllStatuses(p: ProcessID, ballots: seq<AggregatorBallot>, s: Status)
      modifies this`db
      ensures db == old(db).(statuses := SetStatuses(old(db).statuses, p, ballots, s))
    {
      for i := 0 to |ballots|
        invariant db == old(db).(statuses := SetStatuses(old(db).statuses, p, ballots[..i], s))
      {
        SetVoteIDStatus(p, ballots[i].voteID, s);
        SetStatusesStep(old(db).statuses, p, ballots, s, i);
      }
      assert ballots[..|ballots|] == ballots;
    }

    method RemoveVerifiedBallot(k: VerifiedKey)
      modifies this`db
      ensures db == old(db).(verified := old(db).verified - {k}, reservedVerified := old(db).reservedVerified - {k})
    {
      db := db.(reservedVerified := db.reservedVerified - {k});
      db := db.(verified := db.verified - {k});
    }

    // Pending ballots

    method PushPendingBallot(b: PendingBallot) returns (r: Result<(), Error>)
      modifies this
      ensures Outcome(Snapshot(), r) == PushPending(old(Snapshot()), b)
    {
      hide Updated, SetStatus;
      if b.voteID in voteLocks {
        return Err(VoteIDProcessing);
      }
      if PendingLock(b) in addressLocks {
        return Err(AddressProcessing);
      }
      addressLocks := addressLocks + {PendingLock(b)};
      voteLocks := voteLocks + {b.voteID};
      if b.voteID in db.pending {
        voteLocks := voteLocks - {b.voteID};
        addressLocks := addressLocks - {PendingLock(b)};
        assert voteLocks == old(voteLocks) && addressLocks == old(addressLocks);
        return Err(BallotAlreadyExists);
      }
      db := db.(pending := db.pending[b.voteID := b]);
      var logged := UpdateProcessStats(b.processID, [PendingVotes(1)]);
      SetVoteIDStatus(b.processID, b.voteID, StatusPending);
      r := Ok(());
    }

    /**
     Hands out a pending ballot that is not reserved, and reserves it under its
     own vote ID; with every ballot stored under its vote ID there is none left
     only if all are reserved.
     */
    method NextPendingBallot() returns (r: Result<PendingBallot, Error>)
      modifies this`db
      ensures r.Ok? ==> r.value.voteID !in old(db).reservedPending
                        && Snapshot() == ReservePending(old(Snapshot()), r.value.voteID)
      ensures r.Ok? ==> exists v :: v in old(db).pending && v !in old(db).reservedPending && old(db).pending[v] == r.value
      ensures r.Err? ==> r.error == NoMoreElements && Snapshot() == old(Snapshot())
      ensures KeysMatch(old(Snapshot())) ==> (r.Err? <==> old(db).pending.Keys <= old(db).reservedPending)
    {
      var free := set v | v in db.pending && v !in db.reservedPending;
      assert forall v :: v in db.pending && v !in db.reservedPending ==> v in free;
      if free == {} {
        return Err(NoMoreElements);
      }
      var v :| v in free;
      var b := db.pending[v];
      if b.voteID in db.reservedPending {
        return Err(NoMoreElements);
      }
      db := db.(reservedPending := db.reservedPending + {b.voteID});
      r := Ok(b);
    }

    method RemovePendingBallot(p: ProcessID, v: VoteID)
      modifies this
      ensures Snapshot() == RemovePending(old(Snapshot()), p, v)
    {
      hide Updated, SetStatus;
      var ballot := if v in db.pending then Some(db.pending[v]) else None;
      db := db.(reservedPending := db.reservedPending - {v});
      db := db.(pending := db.pending - {v});
      var logged := UpdateProcessStats(p, [PendingVotes(-1)]);
      if ballot.Some? {
        voteLocks := voteLocks - {ballot.value.voteID};
        addressLocks := addressLocks - {PendingLock(ballot.value)};
      }
      SetVoteIDStatus(p, v, StatusError);
    }

    method RemovePendingBallotsByProcess(p: ProcessID)
      modifies this
      ensures Snapshot() == RemovePendingByProcess(old(Snapshot()), p)
    {
      hide Updated, WithoutPending, RemoveOnePending, Discounted, PendingOf;
      ghost var before := Snapshot();
      var ballots := db.pending;
      var toRemove := set v | v in ballots && ballots[v].processID == p;
      IsPendingOf(before, p, toRemove);
      ghost var gone: set<VoteID> := {};
      WithoutPendingNone(before);
      DiscountNone(before.books, p);
      while toRemove != {}
        invariant gone !! toRemove && gone + toRemove == PendingOf(before, p) <= before.pending.Keys
        invariant Snapshot() == Discarded(before, p, gone)
        decreases |toRemove|
      {
        var v :| v in toRemove;
        DiscardStep(before, p, gone, v);
        DropPending(ballots[v]);
        var logged := UpdateProcessStats(p, [PendingVotes(-1)]);
        toRemove := toRemove - {v};
        gone := gone + {v};
      }
      assert gone == PendingOf(before, p);
    }

    /** Removes one pending ballot and releases its locks. */
    method DropPending(ballot: PendingBallot)
      modifies this
      ensures Snapshot() == RemoveOnePending(old(Snapshot()), ballot)
    {
      db := db.(reservedPending := db.reservedPending - {ballot.voteID});
      db := db.(pending := db.pending - {ballot.voteID});
      voteLocks := voteLocks - {ballot.voteID};
      addressLocks := addressLocks - {PendingLock(ballot)};
    }

    method ReleasePendingBallotReservation(v: VoteID)
      modifies this`db
      ensures Snapshot() == ReleasePending(old(Snapshot()), v)
    {
      db := db.(reservedPending := db.reservedPending - {v});
    }

    // Verified ballots

    method MarkBallotVerified(v: VoteID, vb: Option<VerifiedBallot>) returns (r: Result<(), Error>)
      modifies this
      ensures Outcome(Snapshot(), r) == MarkVerified(old(Snapshot()), v, vb)
    {
      hide ValidProcessID, UpdateStats, SetStatus;
      if vb.None? {
        return Err(Failure("verified ballot is nil"));
      }
      var p := vb.value.processID;
      var pendingBallotFound := true;
      if v !in db.pending {
        if !ValidProcessID(p) {
          return Err(Failure("invalid process ID"));
        }
        pendingBallotFound := false;
      } else {
        p := db.pending[v].processID;
      }
      db := db.(verified := db.verified[VerifiedKey(p, v) := vb.value.(processID := p)]);
      db := db.(reservedPending := db.reservedPending - {v});
      var updates := [VerifiedVotes(1), CurrentBatchSize(1)];
      if pendingBallotFound {
        db := db.(pending := db.pending - {v});
        updates := updates + [PendingVotes(-1)];
      }
      assert db.pending == old(db.pending) - {v};
      assert updates == [VerifiedVotes(1), CurrentBatchSize(1)] + if pendingBallotFound then [PendingVotes(-1)] else [];
      var updated := UpdateProcessStats(p, updates);
      if updated.Err? {
        return Err(Failure(updated.error));
      }
      SetVoteIDStatus(p, v, StatusVerified);
      r := Ok(());
    }

    /**
     At most n unreserved ballots of the process, no two from one address, each
     reserved on the way out; fewer than n only if every unreserved ballot left
     shares an address with a returned one.
     */
    method PullVerifiedBallots(p: ProcessID, n: nat)
      returns (r: Result<(seq<VerifiedBallot>, seq<VerifiedKey>), Error>)
      modifies this`db
      ensures r.Ok? ==> Pulled(old(Snapshot()), p, n, r.value.0, r.value.1)
                        && Snapshot() == ReserveVerified(old(Snapshot()), set k | k in r.value.1)
      ensures r.Err? ==> r.error == NotFound && Snapshot() == old(Snapshot())
      ensures r.Err? <==> n > 0 && VerifiedOf(old(Snapshot()), p) <= old(db.reservedVerified)
    {
      if n == 0 {
        assert db.reservedVerified + {} == db.reservedVerified;
        return Ok(([], []));
      }
      var res, keys := CollectVerified(p, n);
      ReserveAll(keys);
      if |res| == 0 {
        assert (set k | k in keys) == {};
        return Err(NotFound);
      }
      assert keys[0] in VerifiedOf(old(Snapshot()), p);
      r := Ok((res, keys));
    }

    /** The entries a pull returns, before any of them is reserved. */
    method CollectVerified(p: ProcessID, n: nat) returns (res: seq<VerifiedBallot>, keys: seq<VerifiedKey>)
      requires n > 0
      ensures Pulled(Snapshot(), p, n, res, keys)
      ensures |res| == 0 <==> VerifiedOf(Snapshot(), p) <= db.reservedVerified
    {
      var addresses: set<Option<int>> := {};
      res, keys := [], [];
      var rest := set k | k in db.verified && k.processID == p;
      while rest != {} && |res| < n
        invariant rest <= VerifiedOf(Snapshot(), p)
        invariant Collected(Snapshot(), p, res, keys, addresses) && |res| <= n
        invariant Covered(Snapshot(), p, rest, addresses)
        invariant forall k :: k in keys ==> k !in rest
        decreases |rest|
      {
        var k :| k in rest;
        rest := rest - {k};
        if k in db.reservedVerified {
          continue;
        }
        var vb := db.verified[k];
        if vb.address in addresses {
          continue;
        }
        CollectedStep(Snapshot(), p, res, keys, addresses, k);
        addresses := addresses + {vb.address};
        res, keys := res + [vb], keys + [k];
      }
      CollectedIsPulled(Snapshot(), p, n, res, keys, addresses, rest);
    }

    method ReserveAll(keys: seq<VerifiedKey>)
      modifies this`db
      ensures db == old(db).(reservedVerified := old(db).reservedVerified + set k | k in keys)
    {
      for i := 0 to |keys|
        invariant db == old(db).(reservedVerified := old(db).reservedVerified + set k | k in keys[..i])
      {
        db := db.(reservedVerified := db.reservedVerified + {keys[i]});
        assert forall k :: k in keys[..i + 1] <==> k in keys[..i] || k == keys[i];
      }
      assert keys[..|keys|] == keys;
    }

    method ReleaseVerifiedBallotReservations(keys: seq<VerifiedKey>)
      modifies this`db
      ensures Snapshot() == ReleaseVerified(old(Snapshot()), keys)
    {
      for i := 0 to |keys|
        invariant db == old(db).(reservedVerified := old(db).reservedVerified - set k | k in keys[..i])
      {
        db := db.(reservedVerified := db.reservedVerified - {keys[i]});
        assert forall k :: k in keys[..i + 1] <==> k in keys[..i] || k == keys[i];
      }
      assert keys[..|keys|] == keys;
    }

    /** Removes one verified ballot and releases its locks. */
    method DropVerified(k: VerifiedKey)
      modifies this`db, this`voteLocks, this`addressLocks
      ensures Snapshot() == RemoveOneVerified(old(Snapshot()), k)
    {
      if k in db.verified {
        voteLocks := voteLocks - {db.verified[k].voteID};
        addressLocks := addressLocks - {LockOf(db.verified[k])};
      }
      RemoveVerifiedBallot(k);
    }

    method RemoveVerifiedBallotsByProcess(p: ProcessID)
      modifies this
      ensures Snapshot() == RemoveVerifiedByProcess(old(Snapshot()), p)
    {
      hide WithoutVerified, RemoveOneVerified;
      ghost var before := Snapshot();
      var toRemove := set k | k in db.verified && k.processID == p;
      ghost var gone: set<VerifiedKey> := {};
      WithoutVerifiedNone(before);
      while toRemove != {}
        invariant gone !! toRemove && gone + toRemove == VerifiedOf(before, p)
        invariant Snapshot() == WithoutVerified(before, gone)
        decreases |toRemove|
      {
        var k :| k in toRemove;
        WithoutVerifiedStep(before, gone, k);
        DropVerified(k);
        toRemove := toRemove - {k};
        gone := gone + {k};
      }
      assert gone == VerifiedOf(before, p);
    }

    method MarkVerifiedBallotsDone(keys: seq<VerifiedKey>)
      modifies this
      ensures Snapshot() == VerifiedDone(old(Snapshot()), keys)
    {
      hide WithoutVerified, RemoveOneVerified;
      ghost var before := Snapshot();
      ghost var gone: set<VerifiedKey> := {};
      WithoutVerifiedNone(before);
      for i := 0 to |keys|
        invariant gone == set k | k in keys[..i]
        invariant Snapshot() == WithoutVerified(before, gone)
      {
        WithoutVerifiedStep(before, gone, keys[i]);
        DropVerified(keys[i]);
        gone := gone + {keys[i]};
        assert forall k :: k in keys[..i + 1] <==> k in keys[..i] || k == keys[i];
      }
      assert keys[..|keys|] == keys;
    }

    /**
     Fails the given verified ballots; the counters of each process concerned are
     settled at the end, in an order that is left open.
     */
    method MarkVerifiedBallotsFailed(keys: seq<VerifiedKey>) returns (ghost order: seq<ProcessID>)
      modifies this
      ensures Snapshot() == VerifiedFailed(old(Snapshot()), keys, order)
      ensures forall p :: p in order <==> p in FailAllVerified(old(Snapshot()), keys).1
      ensures forall i, j :: 0 <= i < j < |order| ==> order[i] != order[j]
    {
      hide WithoutVerified, RemoveOneVerified, SetStatus, StatusOf, Updated, FailVerified, FailCounts, FailBooks;
      ghost var before := Snapshot();
      var counts: Counts := map[];
      for i := 0 to |keys|
        invariant (Snapshot(), counts) == FailAllVerified(before, keys[..i])
      {
        assert keys[..i + 1][..i] == keys[..i];
        counts := FailOne(keys[i], counts);
      }
      assert keys[..|keys|] == keys;
      var processes := counts.Keys;
      order := [];
      ghost var failed := db.books;
      FailBooksNone(failed, counts);
      while processes != {}
        invariant forall p :: p in counts <==> p in order || p in processes
        invariant forall p :: p in order ==> p !in processes
        invariant forall i, j :: 0 <= i < j < |order| ==> order[i] != order[j]
        invariant Snapshot() == FailAllVerified(before, keys).0.(books := FailBooks(failed, counts, order))
        decreases |processes|
      {
        var p :| p in processes;
        processes := processes - {p};
        FailBooksStep(failed, counts, order, p);
        if counts[p] > 0 {
          var logged := UpdateProcessStats(p, [VerifiedVotes(-counts[p]), CurrentBatchSize(-counts[p])]);
        }
        order := order + [p];
      }
    }

    method FailOne(k: VerifiedKey, c: Counts) returns (counts: Counts)
      modifies this
      ensures Snapshot() == FailVerified(old(Snapshot()), k) && counts == FailCounts(old(Snapshot()), c, k)
    {
      hide WithoutVerified, RemoveOneVerified, SetStatus, StatusOf;
      counts := c;
      if k !in db.verified {
        return;
      }
      var ballot := db.verified[k];
      var current := StatusOf(Snapshot(), VerifiedKey(ballot.processID, ballot.voteID));
      if current == Ok(StatusVerified) {
        counts := CountOne(counts, ballot.processID);
      }
      SetVoteIDStatus(ballot.processID, ballot.voteID, StatusError);
      ghost var marked := Snapshot();
      DropVerified(k);
      DropIsWithout(old(Snapshot()), marked, k);
    }

    // Aggregated batches

    method PushAggregatorBatch(batch: AggregatorBatch) returns (r: Result<(), Error>)
      modifies this
      ensures Outcome(Snapshot(), r) == PushAggregator(old(Snapshot()), batch)
    {
      hide ValidProcessID, UpdateStats, SetStatuses;
      db := db.(aggregated := db.aggregated + {batch});
      var updated := UpdateProcessStats(batch.processID,
        [AggregatedVotes(|batch.ballots|), LastBatchSize(|batch.ballots|), CurrentBatchSize(-|batch.ballots|)]);
      if updated.Err? {
        return Err(Failure(updated.error));
      }
      SetAllStatuses(batch.processID, batch.ballots, StatusAggregated);
      r := Ok(());
    }

    method RemoveAggregatorBatchesByProcess(p: ProcessID)
      modifies this
      ensures Snapshot() == RemoveAggregatorByProcess(old(Snapshot()), p)
    {
      hide WithoutAggregated;
      ghost var before := Snapshot();
      var toRemove := set b | b in db.aggregated && b.processID == p;
      ghost var gone: set<AggregatorBatch> := {};
      ghost var all := toRemove;
      WithoutBatchesNone(before);
      while toRemove != {}
        invariant gone + toRemove == all && Snapshot() == WithoutAggregated(before, gone)
        decreases |toRemove|
      {
        var b :| b in toRemove;
        MarkAggregatorBatchDone(b);
        WithoutAggregatedStep(before, gone, b);
        toRemove := toRemove - {b};
        gone := gone + {b};
      }
    }

    method MarkAggregatorBatchFailed(batch: AggregatorBatch) returns (r: Result<(), Error>)
      modifies this
      ensures Outcome(Snapshot(), r) == AggregatorFailed(old(Snapshot()), batch)
    {
      hide SetStatus, StatusOf, Updated;
      if batch !in db.aggregated {
        return Err(NotFound);
      }
      ghost var before := Snapshot();
      var validAggregatedCount := 0;
      for i := 0 to |batch.ballots|
        invariant (Snapshot(), validAggregatedCount) == FailAggregated(before, batch, i)
      {
        var k := VerifiedKey(batch.processID, batch.ballots[i].voteID);
        var current := StatusOf(Snapshot(), k);
        if current.Err? || current == Ok(StatusAggregated) {
          validAggregatedCount := validAggregatedCount + 1;
        }
        voteLocks := voteLocks - {k.voteID};
        SetVoteIDStatus(k.processID, k.voteID, StatusError);
      }
      FailAggregatedKeepsBooks(before, batch, |batch.ballots|);
      if validAggregatedCount > 0 {
        var logged := UpdateProcessStats(batch.processID,
          [AggregatedVotes(-validAggregatedCount), CurrentBatchSize(validAggregatedCount)]);
      }
      db := db.(reservedAggregated := db.reservedAggregated - {batch});
      db := db.(aggregated := db.aggregated - {batch});
      r := Ok(());
    }

    /** Hands out any batch of the process that is neither reserved nor cooling down, and reserves it. */
    method NextAggregatorBatch(p: ProcessID, now: int) returns (r: Result<AggregatorBatch, Error>)
      modifies this`db
      ensures r.Ok? ==> r.value in old(db).aggregated && r.value !in old(db).reservedAggregated
                        && r.value.processID == p && Rested(r.value, now)
                        && Snapshot() == ReserveAggregated(old(Snapshot()), r.value)
      ensures r.Err? ==> r.error == NoMoreElements && Snapshot() == old(Snapshot())
                         && forall b :: b in db.aggregated && b.processID == p ==>
                                          b in db.reservedAggregated || !Rested(b, now)
    {
      hide Cooldown;
      var free := set b | b in db.aggregated && b.processID == p && b !in db.reservedAggregated && Rested(b, now);
      if free == {} {
        assert forall b :: b in db.aggregated && b.processID == p && b !in db.reservedAggregated && Rested(b, now) ==> b in free;
        return Err(NoMoreElements);
      }
      var b :| b in free;
      db := db.(reservedAggregated := db.reservedAggregated + {b});
      r := Ok(b);
    }

    method MarkAggregatorBatchPending(batch: AggregatorBatch) returns (r: Result<(), Error>)
      modifies this`db
      ensures Outcome(Snapshot(), r) == MarkPending(old(Snapshot()), batch)
    {
      if batch.processID in db.pendingAgg {
        return Err(KeyAlreadyExists);
      }
      db := db.(pendingAgg := db.pendingAgg[batch.processID := batch]);
      r := Ok(());
    }

    method MarkAggregatorBatchDone(batch: AggregatorBatch)
      modifies this`db
      ensures Snapshot() == AggregatorDone(old(Snapshot()), batch)
    {
      db := db.(reservedAggregated := db.reservedAggregated - {batch});
      db := db.(aggregated := db.aggregated - {batch});
    }

    // State transitions

    method PushStateTransitionBatch(t: TransitionBatch) returns (r: Result<(), Error>)
      modifies this
      ensures Outcome(Snapshot(), r) == PushTransition(old(Snapshot()), t)
    {
      hide ValidProcessID, UpdateStats, SetStatuses;
      db := db.(transitions := db.transitions + {t});
      var updated := UpdateProcessStats(t.processID, [StateTransitions(1)]);
      if updated.Err? {
        return Err(Failure(updated.error));
      }
      SetAllStatuses(t.processID, t.ballots, StatusProcessed);
      r := Ok(());
    }

    method NextStateTransitionBatch(p: ProcessID) returns (r: Result<TransitionBatch, Error>)
      modifies this`db
      ensures r.Ok? ==> r.value in old(db).transitions && r.value !in old(db).reservedTransitions
                        && r.value.processID == p && Snapshot() == ReserveTransition(old(Snapshot()), r.value)
      ensures r.Err? ==> r.error == NoMoreElements && Snapshot() == old(Snapshot())
                         && forall t :: t in db.transitions && t.processID == p ==> t in db.reservedTransitions
    {
      var free := set t | t in db.transitions && t.processID == p && t !in db.reservedTransitions;
      if free == {} {
        assert forall t :: t in db.transitions && t.processID == p && t !in db.reservedTransitions ==> t in free;
        return Err(NoMoreElements);
      }
      var t :| t in free;
      db := db.(reservedTransitions := db.reservedTransitions + {t});
      r := Ok(t);
    }

    method RemoveStateTransitionBatch(t: TransitionBatch)
      modifies this`db
      ensures Snapshot() == WithoutTransitions(old(Snapshot()), {t})
    {
      db := db.(reservedTransitions := db.reservedTransitions - {t});
      db := db.(transitions := db.transitions - {t});
    }

    method RemoveStateTransitionBatchesByProcess(p: ProcessID)
      modifies this
      ensures Snapshot() == RemoveTransitionsByProcess(old(Snapshot()), p)
    {
      hide WithoutTransitions;
      ghost var before := Snapshot();
      var toRemove := set t | t in db.transitions && t.processID == p;
      ghost var gone: set<TransitionBatch> := {};
      ghost var all := toRemove;
      WithoutBatchesNone(before);
      while toRemove != {}
        invariant gone + toRemove == all && Snapshot() == WithoutTransitions(before, gone)
        decreases |toRemove|
      {
        var t :| t in toRemove;
        RemoveStateTransitionBatch(t);
        WithoutTransitionsStep(before, gone, t);
        toRemove := toRemove - {t};
        gone := gone + {t};
      }
    }

    method MarkVoteIDsDone(p: ProcessID, ids: seq<VoteID>)
      modifies this`db
      ensures db == old(db).(statuses := StatusesDone(old(db).statuses, p, ids))
    {
      for i := 0 to |ids|
        invariant db == old(db).(statuses := StatusesDone(old(db).statuses, p, ids[..i]))
      {
        assert ids[..i + 1][..i] == ids[..i];
        db := db.(statuses := db.statuses[VerifiedKey(p, ids[i]) := StatusDone]);
      }
      assert ids[..|ids|] == ids;
    }

    method MarkStateTransitionBatchDone(t: TransitionBatch, p: ProcessID)
      modifies this
      ensures Snapshot() == TransitionDone(old(Snapshot()), t, p)
    {
      hide Updated, StatusesDone;
      if t in db.transitions {
        var voteIDs: seq<VoteID> := [];
        for i := 0 to |t.ballots|
          invariant voteIDs == IDList(t.ballots)[..i] && db == old(db) && addressLocks == old(addressLocks)
          invariant voteLocks == old(voteLocks) - VoteIDs(t.ballots[..i])
        {
          voteIDs := voteIDs + [t.ballots[i].voteID];
          voteLocks := voteLocks - {t.ballots[i].voteID};
          VoteIDsStep(t.ballots, i);
        }
        assert t.ballots[..|t.ballots|] == t.ballots && voteIDs == IDList(t.ballots);
        MarkVoteIDsDone(p, voteIDs);
      }
      RemoveStateTransitionBatch(t);
      db := db.(pendingAgg := db.pendingAgg - {p});
      var logged := UpdateProcessStats(p, [SettledStateTransitions(1), LastTransitionDate]);
    }

    method MarkStateTransitionBatchOutdated(t: TransitionBatch) returns (r: Result<(), Error>)
      modifies this
      ensures Outcome(Snapshot(), r) == TransitionOutdated(old(Snapshot()), t)
    {
      hide ValidProcessID, PushAggregator;
      r := Ok(());
      if t !in db.transitions {
        db := db.(reservedTransitions := db.reservedTransitions - {t});
        return;
      }
      RemoveStateTransitionBatch(t);
      if ValidProcessID(t.processID) {
        db := db.(pendingTx := db.pendingTx - {t.processID});
        if t.processID in db.pendingAgg {
          var pendingBatch := db.pendingAgg[t.processID];
          db := db.(pendingAgg := db.pendingAgg - {t.processID});
          r := PushAggregatorBatch(pendingBatch);
          if r.Err? {
            return;
          }
        }
      }
      if t.batchID.Some? {
        db := db.(reservedAggregated := db.reservedAggregated - {t.batchID.value});
      }
      assert r.value == ();
    }

    /** Decides what becomes of a failed transition whose batch is still pending. */
    method RetryPending(t: TransitionBatch, p: ProcessID, batch: AggregatorBatch, now: int) returns (r: Result<(), Error>)
      modifies this
      ensures Outcome(Snapshot(), r) == Retry(old(Snapshot()), t, p, batch, now)
    {
      hide PushAggregator, SetStatuses, Unconfirmed, Confirmed;
      if batch.attempts + 1 >= MAX_STATE_TRANSITION_ATTEMPTS {
        SetAllStatuses(p, t.ballots, StatusError);
        return Ok(());
      }
      if t.processID !in db.info {
        return Err(Failure("failed to get process for validation"));
      }
      var process := db.info[t.processID];
      if !Accepting(process) {
        SetAllStatuses(t.processID, t.ballots, StatusError);
        return Ok(());
      }
      if !process.hasRoot {
        assert false;
      }
      if process.confirmed.None? {
        return Err(Failure("failed to load state"));
      }
      var validBallots := FilterConfirmed(t, process.confirmed.value);
      if |validBallots| == 0 {
        return Ok(());
      }
      r := PushAggregatorBatch(Retried(batch, validBallots, now));
    }

    /** Fails the votes that are already in the confirmed state, and returns the others. */
    method FilterConfirmed(t: TransitionBatch, ids: set<VoteID>) returns (valid: seq<AggregatorBallot>)
      modifies this`db
      ensures valid == Unconfirmed(t.ballots, ids)
      ensures db == old(db).(statuses :=
                SetStatuses(old(db).statuses, t.processID, Confirmed(t.ballots, ids), StatusError))
    {
      hide SetStatus;
      valid := [];
      for i := 0 to |t.ballots|
        invariant valid == Unconfirmed(t.ballots[..i], ids)
        invariant db == old(db).(statuses :=
                    SetStatuses(old(db).statuses, t.processID, Confirmed(t.ballots[..i], ids), StatusError))
      {
        assert t.ballots[..i + 1][..i] == t.ballots[..i];
        var v := t.ballots[i];
        if v.voteID in ids {
          ghost var c := Confirmed(t.ballots[..i], ids);
          assert (c + [v])[..|c|] == c;
          SetVoteIDStatus(t.processID, v.voteID, StatusError);
        } else {
          valid := valid + [v];
        }
      }
      assert t.ballots[..|t.ballots|] == t.ballots;
    }

    method MarkStateTransitionBatchFailed(t: TransitionBatch, p: ProcessID, now: int) returns (r: Result<(), Error>)
      modifies this
      ensures Outcome(Snapshot(), r) == TransitionFailed(old(Snapshot()), t, p, now)
    {
      hide Retry, SetStatuses;
      if t !in db.transitions {
        return Ok(());
      }
      if p in db.pendingAgg {
        var pendingBatch := db.pendingAgg[p];
        db := db.(pendingAgg := db.pendingAgg - {p});
        r := RetryPending(t, p, pendingBatch, now);
      } else {
        SetAllStatuses(p, t.ballots, StatusError);
        r := Ok(());
      }
      RemoveStateTransitionBatch(t);
      db := db.(pendingTx := db.pendingTx - {p});
    }

    method SetPendingTx(p: ProcessID)
      modifies this`db
      ensures Snapshot() == Store.SetPendingTx(old(Snapshot()), p)
    {
      if p in db.pendingTx {
        assert db.pendingTx + {p} == db.pendingTx;
        return;
      }
      db := db.(pendingTx := db.pendingTx + {p});
    }

    method PrunePendingTx(p: ProcessID)
      modifies this`db
      ensures Snapshot() == Store.PrunePendingTx(old(Snapshot()), p)
    {
      db := db.(pendingTx := db.pendingTx - {p});
    }

    // Cleaning up and restarting

    method MarkProcessVoteIDsTimeout(p: ProcessID)
      modifies this`db
      ensures db == old(db).(statuses := TimedOut(old(db).statuses, p))
    {
      var keys := set k | k in db.statuses && k.processID == p;
      while keys != {}
        invariant db == old(db).(statuses := db.statuses) && db.statuses.Keys == old(db).statuses.Keys
        invariant forall k :: k in db.statuses ==>
                    db.statuses[k] == if k in keys then old(db).statuses[k] else TimedOut(old(db).statuses, p)[k]
        invariant forall k :: k in keys ==> k in db.statuses && k.processID == p
        decreases |keys|
      {
        var k :| k in keys;
        keys := keys - {k};
        if db.statuses[k] != StatusDone {
          db := db.(statuses := db.statuses[k := StatusTimeout]);
        }
      }
      assert db.statuses == TimedOut(old(db).statuses, p);
    }

    method CleanPendingBallotsForProcess(p: ProcessID)
      modifies this
      ensures Snapshot() == WithoutPending(old(Snapshot()), PendingOf(old(Snapshot()), p))
    {
      hide WithoutPending, RemoveOnePending, PendingOf;
      ghost var before := Snapshot();
      var ballots := db.pending;
      var toRemove := set v | v in ballots && ballots[v].processID == p;
      IsPendingOf(before, p, toRemove);
      ghost var gone: set<VoteID> := {};
      WithoutPendingNone(before);
      while toRemove != {}
        invariant gone !! toRemove && gone + toRemove == PendingOf(before, p) <= before.pending.Keys
        invariant Snapshot() == WithoutPending(before, gone)
        decreases |toRemove|
      {
        var v :| v in toRemove;
        WithoutPendingStep(before, gone, v);
        DropPending(ballots[v]);
        toRemove := toRemove - {v};
        gone := gone + {v};
      }
      assert gone == PendingOf(before, p);
    }

    method CleanupEndedProcess(p: ProcessID)
      modifies this
      ensures Snapshot() == CleanupEnded(old(Snapshot()), p)
    {
      hide PendingOf, TimedOut;
      CleanPendingBallotsForProcess(p);
      RemoveVerifiedBallotsByProcess(p);
      RemoveAggregatorBatchesByProcess(p);
      RemoveStateTransitionBatchesByProcess(p);
      MarkProcessVoteIDsTimeout(p);
    }

    /** Fails the status of one vote unless it is one of the kept ones, as read. */
    method FailUnlessKept(k: VerifiedKey, kept: set<Status>)
      requires StatusDone in kept && (StatusSettled in kept || kept == {StatusDone})
      modifies this`db
      ensures db == old(db).(statuses := FailKeys(old(db).statuses, {k}, kept))
    {
      var current := StatusOf(Snapshot(), k);
      if current.Err? || current.value !in kept {
        SetVoteIDStatus(k.processID, k.voteID, StatusError);
      }
      assert db.statuses == FailKeys(old(db).statuses, {k}, kept);
    }

    /** Takes counted entries off the counters, one process after the other. */
    method PostCounts(counts: map<ProcessID, seq<Update>>) returns (ghost entries: seq<(ProcessID, seq<Update>)>)
      modifies this`db
      ensures db == old(db).(books := Posted(old(db).books, entries))
    {
      hide Updated;
      entries := [];
      var processes := counts.Keys;
      while processes != {}
        invariant processes <= counts.Keys
        invariant db == old(db).(books := Posted(old(db).books, entries))
        decreases |processes|
      {
        var p :| p in processes;
        processes := processes - {p};
        var logged := UpdateProcessStats(p, counts[p]);
        PostedStep(old(db).books, entries, p, counts[p]);
        entries := entries + [(p, counts[p])];
      }
    }

    /** Fails and drops every verified ballot; which entries that makes in the books is left open. */
    method CleanAllVerifiedBallots() returns (ghost entries: seq<(ProcessID, seq<Update>)>)
      modifies this
      ensures Snapshot() == CleanedVerified(old(Snapshot())).(books := Posted(old(db).books, entries))
    {
      hide FailKeys, Posted, StatusOf;
      ghost var before := Snapshot();
      var counts: Counts := map[];
      var keys := db.verified.Keys;
      ghost var failed: set<VerifiedKey> := {};
      FailKeysNone(db.statuses, KEPT_VERIFIED);
      while keys != {}
        invariant keys <= before.verified.Keys
        invariant failed == set k | k in before.verified && k !in keys ::
                              VerifiedKey(before.verified[k].processID, before.verified[k].voteID)
        invariant db == old(db).(statuses := FailKeys(before.statuses, failed, KEPT_VERIFIED))
        invariant voteLocks == before.voteLocks - set k | k in before.verified && k !in keys :: before.verified[k].voteID
        invariant addressLocks == before.addressLocks - set k | k in before.verified && k !in keys :: LockOf(before.verified[k])
        decreases |keys|
      {
        var k :| k in keys;
        keys := keys - {k};
        var ballot := db.verified[k];
        var status := VerifiedKey(ballot.processID, ballot.voteID);
        var current := StatusOf(Snapshot(), status);
        if current.Err? || current == Ok(StatusVerified) {
          counts := CountOne(counts, ballot.processID);
        }
        FailUnlessKept(status, KEPT_VERIFIED);
        FailKeysStep(before.statuses, failed, status, KEPT_VERIFIED);
        voteLocks := voteLocks - {ballot.voteID};
        addressLocks := addressLocks - {LockOf(ballot)};
        failed := failed + {status};
      }
      assert failed == VerifiedStatusKeys(before);
      assert voteLocks == before.voteLocks - VotesOfVerified(before);
      assert addressLocks == before.addressLocks - LocksOfVerified(before);
      db := db.(reservedVerified := db.reservedVerified - db.verified.Keys, verified := map[]);
      entries := PostCounts(map p | p in counts :: [VerifiedVotes(-counts[p]), CurrentBatchSize(-counts[p])]);
    }

    /** Fails the ballots of one batch and releases their votes, counting those with the given status or none. */
    method FailBatch(p: ProcessID, ballots: seq<AggregatorBallot>, counted: Status, kept: set<Status>) returns (n: nat)
      requires StatusDone in kept && (StatusSettled in kept || kept == {StatusDone})
      modifies this`db, this`voteLocks
      ensures db == old(db).(statuses := FailKeys(old(db).statuses, StatusKeys(p, ballots), kept))
      ensures voteLocks == old(voteLocks) - VoteIDs(ballots)
    {
      hide FailKeys, StatusOf;
      n := 0;
      FailKeysNone(db.statuses, kept);
      assert StatusKeys(p, ballots[..0]) == {};
      for i := 0 to |ballots|
        invariant db == old(db).(statuses := FailKeys(old(db).statuses, StatusKeys(p, ballots[..i]), kept))
        invariant voteLocks == old(voteLocks) - VoteIDs(ballots[..i])
      {
        var k := VerifiedKey(p, ballots[i].voteID);
        var current := StatusOf(Snapshot(), k);
        if current.Err? || current == Ok(counted) {
          n := n + 1;
        }
        FailUnlessKept(k, kept);
        FailKeysStep(old(db).statuses, StatusKeys(p, ballots[..i]), k, kept);
        voteLocks := voteLocks - {k.voteID};
        VoteIDsStep(ballots, i);
        assert forall b :: b in ballots[..i + 1] <==> b in ballots[..i] || b == ballots[i];
        assert StatusKeys(p, ballots[..i + 1]) == StatusKeys(p, ballots[..i]) + {k};
      }
      assert ballots[..|ballots|] == ballots;
    }

    method CleanAllAggregatedBatches() returns (ghost entries: seq<(ProcessID, seq<Update>)>)
      modifies this
      ensures Snapshot() == CleanedAggregated(old(Snapshot())).(books := Posted(old(db).books, entries))
    {
      hide FailKeys, Posted, StatusKeys, VoteIDs;
      ghost var before := Snapshot();
      var counts: Counts := map[];
      var batches := db.aggregated;
      ghost var done: set<AggregatorBatch> := {};
      FailKeysNone(db.statuses, KEPT_AGGREGATED);
      BatchKeysNone();
      while batches != {}
        invariant done + batches == before.aggregated
        invariant db == old(db).(statuses := FailKeys(before.statuses, BatchKeys(done), KEPT_AGGREGATED))
        invariant voteLocks == before.voteLocks - BatchVotes(done) && addressLocks == before.addressLocks
        decreases |batches|
      {
        var b :| b in batches;
        batches := batches - {b};
        var n := FailBatch(b.processID, b.ballots, StatusAggregated, KEPT_AGGREGATED);
        counts := counts[b.processID := n + if b.processID in counts then counts[b.processID] else 0];
        FailKeysJoin(before.statuses, BatchKeys(done), StatusKeys(b.processID, b.ballots), KEPT_AGGREGATED);
        BatchKeysStep(done, b);
        done := done + {b};
      }
      assert BatchKeys(done) == AggregatedStatusKeys(before) && BatchVotes(done) == VotesOfAggregated(before);
      db := db.(reservedAggregated := db.reservedAggregated - db.aggregated, aggregated := {});
      entries := PostCounts(map p | p in counts && counts[p] > 0 :: [AggregatedVotes(-counts[p]), CurrentBatchSize(-counts[p])]);
    }

    method CleanAllStateTransitions() returns (ghost entries: seq<(ProcessID, seq<Update>)>)
      modifies this
      ensures Snapshot() == CleanedTransitions(old(Snapshot())).(books := Posted(old(db).books, entries))
    {
      hide FailKeys, Posted, StatusKeys, VoteIDs, StatusOf;
      ghost var before := Snapshot();
      var counts: Counts := map[];
      var batches := db.transitions;
      ghost var done: set<TransitionBatch> := {};
      FailKeysNone(db.statuses, KEPT_TRANSITIONS);
      TransitionKeysNone();
      while batches != {}
        invariant done + batches == before.transitions
        invariant db == old(db).(statuses := FailKeys(before.statuses, TransitionKeys(done), KEPT_TRANSITIONS))
        invariant voteLocks == before.voteLocks - TransitionVotes(done) && addressLocks == before.addressLocks
        decreases |batches|
      {
        var t :| t in batches;
        batches := batches - {t};
        if |t.ballots| > 0 {
          var current := StatusOf(Snapshot(), VerifiedKey(t.processID, t.ballots[0].voteID));
          if current.Err? || current == Ok(StatusProcessed) {
            counts := CountOne(counts, t.processID);
          }
        }
        var n := FailBatch(t.processID, t.ballots, StatusProcessed, KEPT_TRANSITIONS);
        FailKeysJoin(before.statuses, TransitionKeys(done), StatusKeys(t.processID, t.ballots), KEPT_TRANSITIONS);
        TransitionKeysStep(done, t);
        done := done + {t};
      }
      assert TransitionKeys(done) == TransitionStatusKeys(before) && TransitionVotes(done) == VotesOfTransitions(before);
      db := db.(reservedTransitions := db.reservedTransitions - db.transitions, transitions := {});
      entries := PostCounts(map p | p in counts :: [StateTransitions(-counts[p])]);
    }

    method CleanAllPending() returns (ghost entries: seq<(ProcessID, seq<Update>)>)
      modifies this
      ensures Snapshot() == CleanedAll(old(Snapshot()), entries)
    {
      hide FailKeys, Posted;
      ghost var books := db.books;
      ghost var verified := CleanAllVerifiedBallots();
      ghost var aggregated := CleanAllAggregatedBatches();
      ghost var transitions := CleanAllStateTransitions();
      entries := verified + aggregated + transitions;
      PostedJoins(books, verified, aggregated);
      PostedJoins(books, verified + aggregated, transitions);
    }

    /** What a new process of the node starts from: the database as it was, and the locks rebuilt. */
    method Recover()
      modifies this
      ensures Snapshot() == Recovered(old(Snapshot()))
    {
      voteLocks, addressLocks := {}, {};
      db := db.(reservedPending := {}, reservedVerified := {}, reservedAggregated := {}, reservedTransitions := {});
      LockVerified();
      LockAggregated();
    }

    method LockVerified()
      modifies this`voteLocks, this`addressLocks
      ensures voteLocks == old(voteLocks) + VotesOfVerified(old(Snapshot()))
      ensures addressLocks == old(addressLocks) + LocksOfVerified(old(Snapshot()))
    {
      var keys := db.verified.Keys;
      while keys != {}
        invariant keys <= db.verified.Keys
        invariant voteLocks == old(voteLocks) + set k | k in db.verified && k !in keys :: db.verified[k].voteID
        invariant addressLocks == old(addressLocks) + set k | k in db.verified && k !in keys :: LockOf(db.verified[k])
        decreases |keys|
      {
        var k :| k in keys;
        keys := keys - {k};
        voteLocks := voteLocks + {db.verified[k].voteID};
        addressLocks := addressLocks + {LockOf(db.verified[k])};
      }
    }

    method LockAggregated()
      modifies this`voteLocks, this`addressLocks
      ensures voteLocks == old(voteLocks) + VotesOfAggregated(old(Snapshot()))
      ensures addressLocks == old(addressLocks) + LocksOfAggregated(old(Snapshot()))
    {
      var batches := db.aggregated;
      ghost var done: set<AggregatorBatch> := {};
      while batches != {}
        invariant done + batches == db.aggregated
        invariant voteLocks == old(voteLocks) + set b, a | b in done && a in b.ballots :: a.voteID
        invariant addressLocks == old(addressLocks) + set b, a | b in done && a in b.ballots :: (b.processID, a.address)
        decreases |batches|
      {
        var b :| b in batches;
        batches := batches - {b};
        LockBatch(b);
        done := done + {b};
      }
    }

    /** Locks the votes and the addresses of a batch. */
    method LockBatch(b: AggregatorBatch)
      modifies this`voteLocks, this`addressLocks
      ensures voteLocks == old(voteLocks) + set a | a in b.ballots :: a.voteID
      ensures addressLocks == old(addressLocks) + set a | a in b.ballots :: (b.processID, a.address)
    {
      for i := 0 to |b.ballots|
        invariant voteLocks == old(voteLocks) + set a | a in b.ballots[..i] :: a.voteID
        invariant addressLocks == old(addressLocks) + set a | a in b.ballots[..i] :: (b.processID, a.address)
      {
        voteLocks := voteLocks + {b.ballots[i].voteID};
        addressLocks := addressLocks + {(b.processID, b.ballots[i].address)};
        assert forall a :: a in b.ballots[..i + 1] <==> a in b.ballots[..i] || a == b.ballots[i];
      }
      assert b.ballots[..|b.ballots|] == b.ballots;
    }
  }

  /** What a pull may return. */
  ghost predicate Pulled(db: Db, p: ProcessID, n: nat, res: seq<VerifiedBallot>, keys: seq<VerifiedKey>) {
    && |res| == |keys| <= n
    && (forall i :: 0 <= i < |keys| ==>
          && keys[i] in db.verified && keys[i].processID == p && keys[i] !in db.reservedVerified
          && res[i] == db.verified[keys[i]])
    && (forall i, j :: 0 <= i < j < |keys| ==> res[i].address != res[j].address && keys[i] != keys[j])
    && (|res| < n ==> forall k :: k in VerifiedOf(db, p) && k !in db.reservedVerified ==>
          exists i :: 0 <= i < |res| && res[i].address == db.verified[k].address)
  }

  /** The lists of a pull while it goes on, and the addresses seen. */
  ghost predicate Collected(db: Db, p: ProcessID, res: seq<VerifiedBallot>, keys: seq<VerifiedKey>,
                            addresses: set<Option<int>>) {
    && |res| == |keys|
    && (forall i :: 0 <= i < |keys| ==>
          && keys[i] in db.verified && keys[i].processID == p && keys[i] !in db.reservedVerified
          && res[i] == db.verified[keys[i]] && res[i].address in addresses)
    && (forall i, j :: 0 <= i < j < |keys| ==> res[i].address != res[j].address && keys[i] != keys[j])
    && (forall a :: a in addresses ==> exists i :: 0 <= i < |res| && res[i].address == a)
  }

  /** Every unreserved ballot looked at has its address among those seen. */
  ghost predicate Covered(db: Db, p: ProcessID, rest: set<VerifiedKey>, addresses: set<Option<int>>) {
    forall k :: k in VerifiedOf(db, p) && k !in rest && k !in db.reservedVerified ==> db.verified[k].address in addresses
  }

  lemma CollectedStep(db: Db, p: ProcessID, res: seq<VerifiedBallot>, keys: seq<VerifiedKey>,
                      addresses: set<Option<int>>, k: VerifiedKey)
    requires Collected(db, p, res, keys, addresses)
    requires k in db.verified && k.processID == p && k !in db.reservedVerified
    requires k !in keys && db.verified[k].address !in addresses
    ensures Collected(db, p, res + [db.verified[k]], keys + [k], addresses + {db.verified[k].address})
  {
    var res' := res + [db.verified[k]];
    forall a | a in addresses + {db.verified[k].address} ensures exists i :: 0 <= i < |res'| && res'[i].address == a {
      if a in addresses {
        var i :| 0 <= i < |res| && res[i].address == a;
        assert res'[i].address == a;
      } else {
        assert res'[|res|].address == a;
      }
    }
  }

  lemma CollectedIsPulled(db: Db, p: ProcessID, n: nat, res: seq<VerifiedBallot>, keys: seq<VerifiedKey>,
                          addresses: set<Option<int>>, rest: set<VerifiedKey>)
    requires Collected(db, p, res, keys, addresses) && Covered(db, p, rest, addresses)
    requires |res| <= n && 0 < n && (|res| < n ==> rest == {})
    ensures Pulled(db, p, n, res, keys)
    ensures |res| == 0 <==> VerifiedOf(db, p) <= db.reservedVerified
  {
    if |res| > 0 {
      assert keys[0] in VerifiedOf(db, p);
    }
  }
}
