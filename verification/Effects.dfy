/**
 What each storage operation does to the statuses, the counters, the queues and
 the locks, vote by vote and column by column.
 */
module Effects {
  import opened Wrappers
  import opened Packing
  import opened Queues
  import opened Counters
  import opened Store
  import opened StorageObject
  import Protocol

  // Statuses

  /** The votes get the status unless they were done; every other vote keeps its own. */
  ghost predicate Marked(m: Statuses, votes: set<VerifiedKey>, to: Status, m': Statuses) {
    && m'.Keys == m.Keys + votes
    && (forall k :: k in m' ==>
          if k !in votes then m'[k] == m[k]
          else if k in m && m[k] == StatusDone then m'[k] == StatusDone
          else m'[k] == to)
  }

  function VotesOf(p: ProcessID, ballots: seq<AggregatorBallot>): set<VerifiedKey> {
    set b | b in ballots :: VerifiedKey(p, b.voteID)
  }

  lemma OneIsMarked(m: Statuses, k: VerifiedKey, to: Status)
    ensures Marked(m, {k}, to, SetStatus(m, k, to))
  {
  }

  lemma OneMoreIsMarked(m: Statuses, votes: set<VerifiedKey>, to: Status, m': Statuses, k: VerifiedKey)
    requires Marked(m, votes, to, m')
    ensures Marked(m, votes + {k}, to, SetStatus(m', k, to))
  {
  }

  lemma {:induction false} BallotsAreMarked(m: Statuses, p: ProcessID, ballots: seq<AggregatorBallot>, to: Status)
    ensures Marked(m, VotesOf(p, ballots), to, SetStatuses(m, p, ballots, to))
  {
    if |ballots| > 0 {
      var init, last := ballots[..|ballots| - 1], ballots[|ballots| - 1];
      BallotsAreMarked(m, p, init, to);
      OneMoreVote(p, init, last);
      assert ballots == init + [last];
      hide Marked, VotesOf;
      OneMoreIsMarked(m, VotesOf(p, init), to, SetStatuses(m, p, init, to), VerifiedKey(p, last.voteID));
    }
  }

  lemma OneMoreVote(p: ProcessID, ballots: seq<AggregatorBallot>, b: AggregatorBallot)
    ensures VotesOf(p, ballots + [b]) == VotesOf(p, ballots) + {VerifiedKey(p, b.voteID)}
    ensures VoteIDs(ballots + [b]) == VoteIDs(ballots) + {b.voteID}
  {
  }

  lemma {:induction false} ListIsMarkedDone(m: Statuses, p: ProcessID, ids: seq<VoteID>)
    ensures Marked(m, (set v | v in ids :: VerifiedKey(p, v)), StatusDone, StatusesDone(m, p, ids))
  {
    if |ids| > 0 {
      var init, last := ids[..|ids| - 1], ids[|ids| - 1];
      ListIsMarkedDone(m, p, init);
      assert ids == init + [last];
      assert (set v | v in ids :: VerifiedKey(p, v)) == (set v | v in init :: VerifiedKey(p, v)) + {VerifiedKey(p, last)};
    }
  }

  /** What is read of a vote: settled exactly if it is done and in the loaded confirmed state, nothing if its process is gone. */
  lemma StatusAsRead(db: Db, k: VerifiedKey)
    ensures var r, known := StatusOf(db, k), k in db.statuses;
            && (r.Err? <==> !known || (db.statuses[k] == StatusDone && k.processID !in db.info))
            && (r.Err? ==> r.error == NotFound)
            && (known && db.statuses[k] != StatusDone ==> r == Ok(db.statuses[k]))
            && (known && db.statuses[k] == StatusDone && k.processID in db.info ==>
                  var confirmed := db.info[k.processID].confirmed;
                  r == Ok(if confirmed.Some? && k.voteID in confirmed.value then StatusSettled else StatusDone))
  {
  }

  // Counters

  /** By how much the columns of a process move; `last` is the size of its last batch, if there is a new one. */
  datatype Change = Change(stateTransitions: int, settled: int, aggregated: int, verified: int, pending: int, current: int,
                           last: Option<nat>)

  const STILL: Change := Change(0, 0, 0, 0, 0, 0, None)

  /** A clamped counter moves by d but not below zero; without a change it may also stay as it is. */
  predicate Steps(was: int, d: int, now: int) {
    (if was + d < 0 then now == 0 else now == was + d) || (d == 0 && now == was)
  }

  /** The process moves by the change, the totals by as much as it really moved, and no other process moves. */
  ghost predicate Booked(b: Books, p: ProcessID, ch: Change, b': Books) {
    && p in b.stats && b'.stats.Keys == b.stats.Keys
    && (forall q :: q in b.stats && q != p ==> b'.stats[q] == b.stats[q])
    && (var s, s', t, t' := b.stats[p], b'.stats[p], b.totals, b'.totals;
        && s'.stateTransitions == s.stateTransitions + ch.stateTransitions
        && t'.stateTransitions == t.stateTransitions + ch.stateTransitions
        && s'.settled == s.settled + ch.settled && t'.settled == t.settled + ch.settled
        && s'.aggregated == s.aggregated + ch.aggregated && t'.aggregated == t.aggregated + ch.aggregated
        && s'.verified == s.verified + ch.verified && t'.verified == t.verified + ch.verified
        && Steps(s.pending, ch.pending, s'.pending)
        && t'.pending - t.pending == s'.pending - s.pending
        && Steps(s.currentBatchSize, ch.current, s'.currentBatchSize)
        && s'.lastBatchSize == match ch.last case Some(n) => n case None => s.lastBatchSize)
  }

  /** The process has a valid identifier and counters to move. */
  predicate HasBooks(b: Books, p: ProcessID) {
    ValidProcessID(p) && p in b.stats
  }

  lemma AppliedStep(s: Stats, t: Totals, us: seq<Update>, u: Update)
    ensures CountedAll(s, us + [u]) == Counted(CountedAll(s, us), u)
    ensures TotalledAll(t, s, us + [u]) == Totalled(TotalledAll(t, s, us), CountedAll(s, us), u)
  {
    assert (us + [u])[..|us|] == us;
  }

  lemma OneUpdate(b: Books, p: ProcessID, u: Update)
    requires HasBooks(b, p)
    ensures UpdateStats(b, p, [u]) == Ok(Books(b.stats[p := Counted(b.stats[p], u)], Totalled(b.totals, b.stats[p], u)))
  {
    hide ValidProcessID, Counted, Totalled;
    AppliedStep(b.stats[p], b.totals, [], u);
    assert [] + [u] == [u];
  }

  lemma TwoUpdates(b: Books, p: ProcessID, u: Update, v: Update)
    requires HasBooks(b, p)
    ensures var s := Counted(b.stats[p], u);
            UpdateStats(b, p, [u, v])
            == Ok(Books(b.stats[p := Counted(s, v)], Totalled(Totalled(b.totals, b.stats[p], u), s, v)))
  {
    hide ValidProcessID, Counted, Totalled;
    OneUpdate(b, p, u);
    AppliedStep(b.stats[p], b.totals, [u], v);
    assert [u] + [v] == [u, v];
  }

  lemma ThreeUpdates(b: Books, p: ProcessID, u: Update, v: Update, w: Update)
    requires HasBooks(b, p)
    ensures var s, t := Counted(b.stats[p], u), Totalled(b.totals, b.stats[p], u);
            UpdateStats(b, p, [u, v, w])
            == Ok(Books(b.stats[p := Counted(Counted(s, v), w)], Totalled(Totalled(t, s, v), Counted(s, v), w)))
  {
    hide ValidProcessID, Counted, Totalled;
    TwoUpdates(b, p, u, v);
    AppliedStep(b.stats[p], b.totals, [u, v], w);
    assert [u, v] + [w] == [u, v, w];
  }

  lemma UncountedStay(b: Books, p: ProcessID, us: seq<Update>)
    requires !HasBooks(b, p) && us != []
    ensures UpdateStats(b, p, us).Err? && Updated(b, p, us) == b
  {
    hide ValidProcessID;
  }

  // Ballots

  /** An accepted ballot is pending, in the queue and in its status, and counted once. */
  lemma PushedIsPending(db: Db, b: PendingBallot)
    requires b.voteID !in db.voteLocks && (b.processID, b.address) !in db.addressLocks && b.voteID !in db.pending
    ensures var o := PushPending(db, b);
            && o.r.Ok? && o.db.pending == db.pending[b.voteID := b]
            && Marked(db.statuses, {VerifiedKey(b.processID, b.voteID)}, StatusPending, o.db.statuses)
            && o.db.voteLocks == db.voteLocks + {b.voteID} && o.db.addressLocks == db.addressLocks + {(b.processID, b.address)}
            && (if HasBooks(db.books, b.processID) then Booked(db.books, b.processID, STILL.(pending := 1), o.db.books)
                else o.db.books == db.books)
  {
    hide ValidProcessID, UpdateStats;
    OneIsMarked(db.statuses, VerifiedKey(b.processID, b.voteID), StatusPending);
    if HasBooks(db.books, b.processID) {
      OneUpdate(db.books, b.processID, PendingVotes(1));
    } else {
      UncountedStay(db.books, b.processID, [PendingVotes(1)]);
    }
  }

  /** A removed ballot leaves queue, reservation and locks, is in error, and is counted off. */
  lemma RemovedIsInError(db: Db, p: ProcessID, v: VoteID)
    ensures var after := RemovePending(db, p, v);
            && after.pending == db.pending - {v} && v !in after.reservedPending
            && Marked(db.statuses, {VerifiedKey(p, v)}, StatusError, after.statuses)
            && (v in db.pending ==>
                  && db.pending[v].voteID !in after.voteLocks
                  && (db.pending[v].processID, db.pending[v].address) !in after.addressLocks)
            && (if HasBooks(db.books, p) then Booked(db.books, p, STILL.(pending := -1), after.books)
                else after.books == db.books)
  {
    hide ValidProcessID, UpdateStats;
    OneIsMarked(db.statuses, VerifiedKey(p, v), StatusError);
    if HasBooks(db.books, p) {
      OneUpdate(db.books, p, PendingVotes(-1));
    } else {
      UncountedStay(db.books, p, [PendingVotes(-1)]);
    }
  }

  lemma {:induction false} DiscountedByOnes(b: Books, p: ProcessID, n: nat)
    requires HasBooks(b, p) && (b.stats[p].pending >= 0)
    ensures Booked(b, p, STILL.(pending := 0 - n), Discounted(b, p, n))
  {
    hide ValidProcessID, UpdateStats;
    if n > 0 {
      DiscountedByOnes(b, p, n - 1);
      OneUpdate(Discounted(b, p, n - 1), p, PendingVotes(-1));
    }
  }

  /** Dropping the pending ballots of a process leaves none of it and all others, and counts them all off. */
  lemma PendingOfProcessIsGone(db: Db, p: ProcessID)
    requires KeysMatch(db) && HasBooks(db.books, p) && db.books.stats[p].pending >= 0
    ensures var after := RemovePendingByProcess(db, p);
            && (forall v :: v in after.pending <==> v in db.pending && db.pending[v].processID != p)
            && (forall v :: v in after.pending ==> after.pending[v] == db.pending[v])
            && (forall v :: v in db.pending && db.pending[v].processID == p ==>
                  v !in after.reservedPending && v !in after.voteLocks && (p, db.pending[v].address) !in after.addressLocks)
            && after.statuses == db.statuses
            && Booked(db.books, p, STILL.(pending := -|set v | v in db.pending && db.pending[v].processID == p|), after.books)
  {
    hide ValidProcessID, Discounted;
    DiscountedByOnes(db.books, p, |PendingOf(db, p)|);
    assert PendingOf(db, p) == set v | v in db.pending && db.pending[v].processID == p;
    assert IDsOf(db, PendingOf(db, p)) == PendingOf(db, p);
    assert forall v :: v in PendingOf(db, p) ==> PendingLock(db.pending[v]) == (p, db.pending[v].address);
  }

  /** A pending ballot that is marked verified moves from one queue, status and counter to the next. */
  lemma VerifiedIsMoved(db: Db, v: VoteID, vb: VerifiedBallot)
    requires v in db.pending && HasBooks(db.books, db.pending[v].processID)
    ensures var o, p := MarkVerified(db, v, Some(vb)), db.pending[v].processID;
            && o.r.Ok? && v !in o.db.pending && v !in o.db.reservedPending
            && o.db.verified == db.verified[VerifiedKey(p, v) := vb.(processID := p)]
            && Marked(db.statuses, {VerifiedKey(p, v)}, StatusVerified, o.db.statuses)
            && Booked(db.books, p, STILL.(verified := 1, current := 1, pending := -1), o.db.books)
            && o.db.voteLocks == db.voteLocks && o.db.addressLocks == db.addressLocks
  {
    hide ValidProcessID, UpdateStats;
    var p := db.pending[v].processID;
    OneIsMarked(db.statuses, VerifiedKey(p, v), StatusVerified);
    ThreeUpdates(db.books, p, VerifiedVotes(1), CurrentBatchSize(1), PendingVotes(-1));
    assert [VerifiedVotes(1), CurrentBatchSize(1)] + [PendingVotes(-1)] == [VerifiedVotes(1), CurrentBatchSize(1), PendingVotes(-1)];
  }

  /** A ballot that was no longer pending is counted as verified, and takes nothing off the pending ones. */
  lemma LateIsVerified(db: Db, v: VoteID, vb: VerifiedBallot)
    requires v !in db.pending && HasBooks(db.books, vb.processID)
    ensures var o := MarkVerified(db, v, Some(vb));
            && o.r.Ok? && o.db.pending == db.pending && o.db.verified == db.verified[VerifiedKey(vb.processID, v) := vb]
            && Marked(db.statuses, {VerifiedKey(vb.processID, v)}, StatusVerified, o.db.statuses)
            && Booked(db.books, vb.processID, STILL.(verified := 1, current := 1), o.db.books)
  {
    hide ValidProcessID, UpdateStats;
    OneIsMarked(db.statuses, VerifiedKey(vb.processID, v), StatusVerified);
    TwoUpdates(db.books, vb.processID, VerifiedVotes(1), CurrentBatchSize(1));
    assert db.pending - {v} == db.pending && [VerifiedVotes(1), CurrentBatchSize(1)] + [] == [VerifiedVotes(1), CurrentBatchSize(1)];
    assert vb.(processID := vb.processID) == vb;
  }

  /** Finished ballots leave the queue with reservation and locks; all others stay, and so do statuses and counters. */
  lemma FinishedAreGone(db: Db, keys: seq<VerifiedKey>)
    ensures var after := VerifiedDone(db, keys);
            && (forall k :: k in after.verified <==> k in db.verified && k !in keys)
            && (forall k :: k in after.verified ==> after.verified[k] == db.verified[k])
            && (forall k :: k in keys ==> k !in after.reservedVerified)
            && (forall k :: k in keys && k in db.verified ==>
                  && db.verified[k].voteID !in after.voteLocks
                  && (db.verified[k].processID, db.verified[k].address) !in after.addressLocks)
            && after.statuses == db.statuses && after.books == db.books && after.pending == db.pending
  {
  }

  /** Failing one verified ballot puts its vote in error, frees it, and counts it off if it really was verified. */
  lemma FailedIsInError(db: Db, k: VerifiedKey)
    requires k in db.verified && HasBooks(db.books, db.verified[k].processID)
    ensures var after, b := VerifiedFailed(db, [k], [db.verified[k].processID]), db.verified[k];
            && after.verified == db.verified - {k} && k !in after.reservedVerified
            && b.voteID !in after.voteLocks && (b.processID, b.address) !in after.addressLocks
            && Marked(db.statuses, {VerifiedKey(b.processID, b.voteID)}, StatusError, after.statuses)
            && (if StatusOf(db, VerifiedKey(b.processID, b.voteID)) == Ok(StatusVerified)
                then Booked(db.books, b.processID, STILL.(verified := -1, current := -1), after.books)
                else after.books == db.books)
  {
    hide ValidProcessID, UpdateStats, StatusOf;
    var b := db.verified[k];
    var p := b.processID;
    OneIsMarked(db.statuses, VerifiedKey(p, b.voteID), StatusError);
    TwoUpdates(db.books, p, VerifiedVotes(-1), CurrentBatchSize(-1));
    assert [k][..0] == [] && [p][..0] == [];
    assert FailAllVerified(db, []) == (db, map[]);
    assert FailAllVerified(db, [k]) == (FailVerified(db, k), FailCounts(db, map[], k));
    var c := FailCounts(db, map[], k);
    assert FailBooks(db.books, c, []) == db.books;
    assert FailBooks(db.books, c, [p]) ==
           if p in c && c[p] > 0 then Updated(db.books, p, [VerifiedVotes(-c[p]), CurrentBatchSize(-c[p])]) else db.books;
  }

  // Batches

  /** The votes of a queued batch are aggregated, and counted from the batch under construction to the last one. */
  lemma QueuedIsAggregated(db: Db, batch: AggregatorBatch)
    requires HasBooks(db.books, batch.processID)
    ensures var o, n := PushAggregator(db, batch), |batch.ballots|;
            && o.r.Ok? && o.db.aggregated == db.aggregated + {batch}
            && Marked(db.statuses, VotesOf(batch.processID, batch.ballots), StatusAggregated, o.db.statuses)
            && Booked(db.books, batch.processID, STILL.(aggregated := n, current := 0 - n, last := Some(n)), o.db.books)
  {
    hide ValidProcessID, UpdateStats, SetStatuses;
    var n := |batch.ballots|;
    BallotsAreMarked(db.statuses, batch.processID, batch.ballots, StatusAggregated);
    ThreeUpdates(db.books, batch.processID, AggregatedVotes(n), LastBatchSize(n), CurrentBatchSize(-n));
  }

  /** The votes of a pushed transition are processed unless they were done, every other vote keeps its status. */
  lemma PushedIsProcessed(db: Db, t: TransitionBatch)
    requires HasBooks(db.books, t.processID)
    ensures var o := PushTransition(db, t);
            && o.r.Ok? && o.db.transitions == db.transitions + {t}
            && Marked(db.statuses, VotesOf(t.processID, t.ballots), StatusProcessed, o.db.statuses)
            && Booked(db.books, t.processID, STILL.(stateTransitions := 1), o.db.books)
  {
    hide ValidProcessID, UpdateStats, SetStatuses;
    BallotsAreMarked(db.statuses, t.processID, t.ballots, StatusProcessed);
    OneUpdate(db.books, t.processID, StateTransitions(1));
  }

  /** A confirmed transition leaves the queue; its votes are done and unlocked, its pending batch is released. */
  lemma ConfirmedIsDone(db: Db, t: TransitionBatch)
    requires t in db.transitions && HasBooks(db.books, t.processID)
    ensures var after, p := TransitionDone(db, t, t.processID), t.processID;
            && after.transitions == db.transitions - {t} && t !in after.reservedTransitions
            && p !in after.pendingAgg && (forall q :: q in db.pendingAgg && q != p ==> q in after.pendingAgg)
            && Marked(db.statuses, VotesOf(p, t.ballots), StatusDone, after.statuses)
            && (forall b :: b in t.ballots ==> b.voteID !in after.voteLocks)
            && Booked(db.books, p, STILL.(settled := 1), after.books)
  {
    hide ValidProcessID, UpdateStats, StatusesDone;
    var p := t.processID;
    ListIsMarkedDone(db.statuses, p, IDList(t.ballots));
    ListedVotes(p, t.ballots);
    TwoUpdates(db.books, p, SettledStateTransitions(1), LastTransitionDate);
  }

  lemma ListedVotes(p: ProcessID, ballots: seq<AggregatorBallot>)
    ensures (set v | v in IDList(ballots) :: VerifiedKey(p, v)) == VotesOf(p, ballots)
  {
    forall b | b in ballots ensures b.voteID in IDList(ballots) {
      var i :| 0 <= i < |ballots| && ballots[i] == b;
      assert IDList(ballots)[i] == b.voteID;
    }
    forall v | v in IDList(ballots) ensures VerifiedKey(p, v) in VotesOf(p, ballots) {
      var i :| 0 <= i < |ballots| && IDList(ballots)[i] == v;
      assert ballots[i] in ballots;
    }
  }

  /** An outdated transition leaves the queue; its batch is queued, counted and aggregated again, and free to be taken. */
  lemma OutdatedIsQueuedAgain(db: Db, t: TransitionBatch)
    requires t in db.transitions && t.processID in db.pendingAgg && HasBooks(db.books, t.processID)
    requires db.pendingAgg[t.processID].processID == t.processID && t.batchID.Some?
    ensures var o, p, batch := TransitionOutdated(db, t), t.processID, db.pendingAgg[t.processID];
            && o.r.Ok? && o.db.transitions == db.transitions - {t} && t !in o.db.reservedTransitions
            && o.db.pendingAgg == db.pendingAgg - {p} && p !in o.db.pendingTx
            && o.db.aggregated == db.aggregated + {batch} && t.batchID.value !in o.db.reservedAggregated
            && Marked(db.statuses, VotesOf(p, batch.ballots), StatusAggregated, o.db.statuses)
  {
    hide PushAggregator, UpdateStats;
    var p, batch := t.processID, db.pendingAgg[t.processID];
    assert ValidProcessID(p);
    hide ValidProcessID;
    var before := WithoutTransitions(db, {t}).(pendingTx := db.pendingTx - {p}, pendingAgg := db.pendingAgg - {p});
    QueuedIsAggregated(before, batch);
    Protocol.PushEffect(before, batch);
  }

  /** After the first n ballots of a failed batch: their votes are in error, and as many counted as were aggregated or unknown. */
  lemma {:induction false} FirstAreFailed(db: Db, batch: AggregatorBatch, n: nat)
    requires n <= |batch.ballots| && DistinctVoteIDs(batch.ballots)
    ensures var (after, c) := FailAggregated(db, batch, n);
            && after == db.(statuses := after.statuses, voteLocks := after.voteLocks)
            && Marked(db.statuses, VotesOf(batch.processID, batch.ballots[..n]), StatusError, after.statuses)
            && after.voteLocks == db.voteLocks - VoteIDs(batch.ballots[..n])
            && c == |CountedOf(db, batch, n)|
  {
    hide StatusOf, Marked, CountedOf;
    if n > 0 {
      FirstAreFailed(db, batch, n - 1);
      var (before, c) := FailAggregated(db, batch, n - 1);
      NextIsFailed(db, batch, n, before);
      CountedGrows(db, batch, n);
    } else {
      assert batch.ballots[..0] == [];
      NoneAreFailed(db, batch);
    }
  }

  lemma NoneAreFailed(db: Db, batch: AggregatorBatch)
    ensures CountedOf(db, batch, 0) == {} && VotesOf(batch.processID, []) == {} && VoteIDs([]) == {}
    ensures Marked(db.statuses, {}, StatusError, db.statuses)
  {
  }

  lemma NextIsFailed(db: Db, batch: AggregatorBatch, n: nat, before: Db)
    requires 0 < n <= |batch.ballots| && DistinctVoteIDs(batch.ballots)
    requires before == db.(statuses := before.statuses, voteLocks := before.voteLocks)
    requires Marked(db.statuses, VotesOf(batch.processID, batch.ballots[..n - 1]), StatusError, before.statuses)
    ensures var k := VerifiedKey(batch.processID, batch.ballots[n - 1].voteID);
            && StatusOf(before, k) == StatusOf(db, k)
            && Marked(db.statuses, VotesOf(batch.processID, batch.ballots[..n]), StatusError,
                      SetStatus(before.statuses, k, StatusError))
            && VoteIDs(batch.ballots[..n]) == VoteIDs(batch.ballots[..n - 1]) + {k.voteID}
  {
    var b := batch.ballots[n - 1];
    var k := VerifiedKey(batch.processID, b.voteID);
    var earlier := VotesOf(batch.processID, batch.ballots[..n - 1]);
    assert k !in earlier;
    assert k in before.statuses <==> k in db.statuses;
    assert k in db.statuses ==> before.statuses[k] == db.statuses[k];
    assert batch.ballots[..n] == batch.ballots[..n - 1] + [b];
    hide Marked, VotesOf, VoteIDs, SetStatus, DistinctVoteIDs;
    OneMoreVote(batch.processID, batch.ballots[..n - 1], b);
    OneMoreIsMarked(db.statuses, earlier, StatusError, before.statuses, k);
  }

  /** The positions whose vote is aggregated, or has no status that can be read. */
  function CountedOf(db: Db, batch: AggregatorBatch, n: nat): set<nat>
    requires n <= |batch.ballots|
  {
    set i | 0 <= i < n && (var r := StatusOf(db, VerifiedKey(batch.processID, batch.ballots[i].voteID));
                           r.Err? || r == Ok(StatusAggregated))
  }

  lemma CountedGrows(db: Db, batch: AggregatorBatch, n: nat)
    requires 0 < n <= |batch.ballots|
    ensures var r := StatusOf(db, VerifiedKey(batch.processID, batch.ballots[n - 1].voteID));
            |CountedOf(db, batch, n)| == |CountedOf(db, batch, n - 1)| + if r.Err? || r == Ok(StatusAggregated) then 1 else 0
  {
    hide StatusOf;
    var before, now := CountedOf(db, batch, n - 1), CountedOf(db, batch, n);
    if n - 1 in now {
      assert now == before + {n - 1};
    } else {
      assert now == before;
    }
  }

  /** A failed batch leaves the queue; its votes are in error and unlocked, and those aggregated are counted back. */
  lemma FailedBatchIsCountedBack(db: Db, batch: AggregatorBatch)
    requires batch in db.aggregated && DistinctVoteIDs(batch.ballots) && HasBooks(db.books, batch.processID)
    ensures var o, n := AggregatorFailed(db, batch), |CountedOf(db, batch, |batch.ballots|)|;
            && o.r.Ok? && o.db.aggregated == db.aggregated - {batch} && batch !in o.db.reservedAggregated
            && Marked(db.statuses, VotesOf(batch.processID, batch.ballots), StatusError, o.db.statuses)
            && o.db.voteLocks == db.voteLocks - VoteIDs(batch.ballots)
            && (n == 0 ==> o.db.books == db.books)
            && (n > 0 ==> Booked(db.books, batch.processID, STILL.(aggregated := 0 - n, current := n), o.db.books))
  {
    hide FailAggregated, UpdateStats, ValidProcessID, StatusOf;
    FirstAreFailed(db, batch, |batch.ballots|);
    assert batch.ballots[..|batch.ballots|] == batch.ballots;
    var n := |CountedOf(db, batch, |batch.ballots|)|;
    TwoUpdates(db.books, batch.processID, AggregatedVotes(-n), CurrentBatchSize(n));
  }

  /** Without counters to move, a batch, a transition or a verified ballot is queued all the same; an error is returned and no status moves. */
  lemma UncountedIsStillQueued(db: Db, batch: AggregatorBatch, t: TransitionBatch, v: VoteID, vb: VerifiedBallot)
    ensures !HasBooks(db.books, batch.processID) ==>
              var o := PushAggregator(db, batch);
              o.r.Err? && o.db == db.(aggregated := db.aggregated + {batch})
    ensures !HasBooks(db.books, t.processID) ==>
              var o := PushTransition(db, t);
              o.r.Err? && o.db == db.(transitions := db.transitions + {t})
    ensures v in db.pending && !HasBooks(db.books, db.pending[v].processID) ==>
              var o, p := MarkVerified(db, v, Some(vb)), db.pending[v].processID;
              o.r.Err? && o.db == db.(pending := db.pending - {v}, reservedPending := db.reservedPending - {v},
                                      verified := db.verified[VerifiedKey(p, v) := vb.(processID := p)])
  {
    hide ValidProcessID, SetStatuses;
  }

  // Whole processes

  /** Timing a process out leaves its done votes alone and times all others out; other processes keep their statuses. */
  lemma OnlyDoneSurvivesTimeout(db: Db, p: ProcessID)
    ensures Marked(db.statuses, (set k | k in db.statuses && k.processID == p), StatusTimeout, TimedOut(db.statuses, p))
  {
  }

  /** After the cleanup of a process no queue, reservation or lock has anything of it, and everything of the others stays. */
  lemma CleanedUpIsGone(db: Db, p: ProcessID)
    requires KeysMatch(db)
    ensures var after := CleanupEnded(db, p);
            && (forall v :: v in after.pending <==> v in db.pending && db.pending[v].processID != p)
            && (forall k :: k in after.verified <==> k in db.verified && k.processID != p)
            && (forall b :: b in after.aggregated <==> b in db.aggregated && b.processID != p)
            && (forall t :: t in after.transitions <==> t in db.transitions && t.processID != p)
            && (forall b :: b in db.aggregated && b.processID == p ==> b !in after.reservedAggregated)
            && (forall t :: t in db.transitions && t.processID == p ==> t !in after.reservedTransitions)
            && (forall k :: k in db.verified && k.processID == p ==>
                  k !in after.reservedVerified && db.verified[k].voteID !in after.voteLocks
                  && LockOf(db.verified[k]) !in after.addressLocks)
            && (forall v :: v in db.pending && db.pending[v].processID == p ==>
                  v !in after.reservedPending && v !in after.voteLocks && PendingLock(db.pending[v]) !in after.addressLocks)
            && Marked(db.statuses, (set k | k in db.statuses && k.processID == p), StatusTimeout, after.statuses)
            && after.books == db.books
  {
    OnlyDoneSurvivesTimeout(db, p);
    hide TimedOut, LockOf, PendingLock;
    assert IDsOf(db, PendingOf(db, p)) == PendingOf(db, p);
  }

  /** Dropping one queue of a process drops all of it and nothing else. */
  lemma DroppedQueuesAreEmpty(db: Db, p: ProcessID)
    ensures var after := RemoveVerifiedByProcess(db, p);
            forall k :: k in after.verified <==> k in db.verified && k.processID != p
    ensures var after := RemoveAggregatorByProcess(db, p);
            forall b :: b in after.aggregated <==> b in db.aggregated && b.processID != p
    ensures var after := RemoveTransitionsByProcess(db, p);
            forall t :: t in after.transitions <==> t in db.transitions && t.processID != p
  {
  }

  /** Cleaning everything empties the later queues and frees their votes; of these only done and processed ones are not in error. */
  lemma CleanedAllIsEmpty(db: Db, entries: seq<(ProcessID, seq<Update>)>)
    ensures var after := CleanedAll(db, entries);
            && after.verified == map[] && after.aggregated == {} && after.transitions == {} && after.pending == db.pending
            && after.reservedVerified !! db.verified.Keys && after.reservedAggregated !! db.aggregated
            && after.reservedTransitions !! db.transitions
            && (forall k :: k in db.verified ==>
                  && VerifiedKey(db.verified[k].processID, db.verified[k].voteID) in after.statuses
                  && after.statuses[VerifiedKey(db.verified[k].processID, db.verified[k].voteID)]
                     in {StatusError, StatusDone, StatusSettled}
                  && db.verified[k].voteID !in after.voteLocks && LockOf(db.verified[k]) !in after.addressLocks)
            && (forall b, a :: b in db.aggregated && a in b.ballots ==>
                  && VerifiedKey(b.processID, a.voteID) in after.statuses
                  && after.statuses[VerifiedKey(b.processID, a.voteID)] in {StatusError, StatusDone}
                  && a.voteID !in after.voteLocks)
            && (forall t, a :: t in db.transitions && a in t.ballots ==>
                  && VerifiedKey(t.processID, a.voteID) in after.statuses
                  && after.statuses[VerifiedKey(t.processID, a.voteID)] in {StatusError, StatusDone, StatusSettled, StatusProcessed}
                  && a.voteID !in after.voteLocks)
  {
    hide Posted;
  }

  // Reservations

  /** Releasing frees what is named, keeps every other reservation, and moves nothing else. */
  lemma ReleasedAreFree(db: Db, v: VoteID, keys: seq<VerifiedKey>)
    ensures var after := ReleasePending(db, v);
            && (forall w :: w in after.reservedPending <==> w in db.reservedPending && w != v)
            && after == db.(reservedPending := after.reservedPending)
    ensures var after := ReleaseVerified(db, keys);
            && (forall k :: k in after.reservedVerified <==> k in db.reservedVerified && k !in keys)
            && after == db.(reservedVerified := after.reservedVerified)
  {
  }

  /** A reservation is left after ageing exactly if it was there and did not grow too old. */
  lemma OnlyAgedAreFreed(db: Db, s: Stale)
    ensures var after := Expired(db, s);
            && (forall v :: v in after.reservedPending <==> v in db.reservedPending && v !in s.pending)
            && (forall k :: k in after.reservedVerified <==> k in db.reservedVerified && k !in s.verified)
            && (forall b :: b in after.reservedAggregated <==> b in db.reservedAggregated && b !in s.aggregated)
            && (forall t :: t in after.reservedTransitions <==> t in db.reservedTransitions && t !in s.transitions)
            && after == db.(reservedPending := after.reservedPending, reservedVerified := after.reservedVerified,
                            reservedAggregated := after.reservedAggregated, reservedTransitions := after.reservedTransitions)
  {
  }

  /** A batch that is done leaves the queue with its reservation, and no other does. */
  lemma DoneBatchIsGone(db: Db, batch: AggregatorBatch)
    ensures var after := AggregatorDone(db, batch);
            && (forall b :: b in after.aggregated <==> b in db.aggregated && b != batch)
            && (forall b :: b in after.reservedAggregated <==> b in db.reservedAggregated && b != batch)
            && after == db.(aggregated := after.aggregated, reservedAggregated := after.reservedAggregated)
  {
  }

  /** A restart frees every reservation, whatever it holds, and keeps queues, statuses and counters. */
  lemma RestartFreesAll(db: Db)
    ensures var after := Recovered(db);
            && after.reservedPending == {} && after.reservedVerified == {}
            && after.reservedAggregated == {} && after.reservedTransitions == {}
            && after.pending == db.pending && after.verified == db.verified && after.aggregated == db.aggregated
            && after.pendingAgg == db.pendingAgg && after.transitions == db.transitions
            && after.statuses == db.statuses && after.books == db.books
            && (forall v :: v in after.voteLocks <==>
                  || (exists k :: k in db.verified && db.verified[k].voteID == v)
                  || (exists b, a :: b in db.aggregated && a in b.ballots && a.voteID == v))
  {
  }
}
