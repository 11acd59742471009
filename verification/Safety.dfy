/** What every reachable state of the storage keeps: batches, backoff, statuses, counters and hand-outs. */
module Safety {
  import opened Wrappers
  import opened Params
  import opened Packing
  import opened Queues
  import opened Counters
  import opened Store
  import opened StorageObject
  import opened Protocol

  // Batches

  lemma {:induction false} NodesAreSound(nodes: seq<Node>, steps: seq<Step>, i: nat)
    requires Run(nodes, steps) && i < |nodes|
    ensures SoundNode(nodes[i])
  {
    hide Next, SoundNode;
    if i == 0 {
      InitialIsSound();
    } else {
      NodesAreSound(nodes, steps, i - 1);
      StepIsSound(nodes[i - 1], steps[i - 1], nodes[i]);
    }
  }

  lemma InitialIsSound()
    ensures SoundNode(INITIAL)
  {
  }

  /**
   In every state of every run, no batch that is aggregated, pending or in
   transition, in the queues or in memory, holds two ballots from one address.
   */
  lemma AddressesAreDistinct(nodes: seq<Node>, steps: seq<Step>, i: nat)
    requires Run(nodes, steps) && i < |nodes|
    ensures forall b :: b in nodes[i].db.aggregated ==> DistinctAddresses(b.ballots)
    ensures forall p :: p in nodes[i].db.pendingAgg ==> DistinctAddresses(nodes[i].db.pendingAgg[p].ballots)
    ensures forall t :: t in nodes[i].db.transitions ==> DistinctAddresses(t.ballots)
    ensures forall b :: b in nodes[i].taken ==> DistinctAddresses(b.ballots)
    ensures forall p :: p in nodes[i].staged ==> DistinctAddresses(nodes[i].staged[p].ballots)
    ensures forall t :: t in nodes[i].held + nodes[i].submitted ==> DistinctAddresses(t.ballots)
  {
    hide Run, DistinctAddresses;
    NodesAreSound(nodes, steps, i);
  }

  lemma CooldownIs(attempts: int)
    requires 1 <= attempts <= 4
    ensures Cooldown(attempts) == 30 * Pow2(attempts - 1)
    ensures 30 <= Cooldown(attempts) <= 240
  {
    assert Pow2(0) == 1 && Pow2(1) == 2 && Pow2(2) == 4 && Pow2(3) == 8;
  }

  /**
   In every state of every run, a queued batch that failed has made one to four
   attempts, so its cooldown is 30, 60, 120 or 240 seconds and never the cap.
   */
  lemma BackoffIsDefined(nodes: seq<Node>, steps: seq<Step>, i: nat, batch: AggregatorBatch)
    requires Run(nodes, steps) && i < |nodes| && batch in nodes[i].db.aggregated && batch.lastAttempt.Some?
    ensures 1 <= batch.attempts <= 4
    ensures Cooldown(batch.attempts) == 30 * Pow2(batch.attempts - 1)
    ensures 30 <= Cooldown(batch.attempts) <= 240
  {
    hide Run, Cooldown, DistinctAddresses, Pow2;
    NodesAreSound(nodes, steps, i);
    CooldownIs(batch.attempts);
  }

  /** In every run a failed batch is withheld for 30, 60, 120 or 240 seconds after its last attempt, and no longer. */
  lemma FailedBatchRests(nodes: seq<Node>, steps: seq<Step>, i: nat, batch: AggregatorBatch, now: int)
    requires Run(nodes, steps) && i < |nodes| && batch in nodes[i].db.aggregated
    ensures Rested(batch, now) <==>
            (batch.lastAttempt.Some? ==>
               batch.attempts >= 1 && now >= batch.lastAttempt.value + 30 * Pow2(batch.attempts - 1))
  {
    hide Run, Cooldown, Pow2;
    if batch.lastAttempt.Some? {
      BackoffIsDefined(nodes, steps, i, batch);
    }
  }

  /** So no step takes it earlier. */
  lemma NoBatchIsTakenEarly(nodes: seq<Node>, steps: seq<Step>, i: nat, batch: AggregatorBatch, now: int)
    requires Run(nodes, steps) && i < |steps| && steps[i] == Batches(Take(batch, now)) && batch.lastAttempt.Some?
    ensures 1 <= batch.attempts <= 4 && now >= batch.lastAttempt.value + 30 * Pow2(batch.attempts - 1)
  {
    assert Next(nodes[i], steps[i], nodes[i + 1]);
    hide Run, Rested, Pow2;
    BackoffIsDefined(nodes, steps, i, batch);
    FailedBatchRests(nodes, steps, i, batch, now);
  }

  // Done is final

  ghost predicate KeepsDone(m: Statuses, m': Statuses) {
    forall k :: k in m && m[k] == StatusDone ==> k in m' && m'[k] == StatusDone
  }

  lemma {:induction false} SetStatusesKeepDone(m: Statuses, p: ProcessID, ballots: seq<AggregatorBallot>, s: Status)
    ensures KeepsDone(m, SetStatuses(m, p, ballots, s))
  {
    if |ballots| > 0 {
      SetStatusesKeepDone(m, p, ballots[..|ballots| - 1], s);
    }
  }

  lemma {:induction false} MarkingDoneKeepsDone(m: Statuses, p: ProcessID, ids: seq<VoteID>)
    ensures KeepsDone(m, StatusesDone(m, p, ids))
  {
    if |ids| > 0 {
      MarkingDoneKeepsDone(m, p, ids[..|ids| - 1]);
    }
  }

  lemma {:induction false} FailingKeepsDone(db: Db, keys: seq<VerifiedKey>)
    ensures KeepsDone(db.statuses, FailAllVerified(db, keys).0.statuses)
  {
    if |keys| > 0 {
      FailingKeepsDone(db, keys[..|keys| - 1]);
    }
  }

  lemma {:induction false} FailAggregatedKeepsDone(db: Db, batch: AggregatorBatch, n: nat)
    requires n <= |batch.ballots|
    ensures KeepsDone(db.statuses, FailAggregated(db, batch, n).0.statuses)
  {
    if n > 0 {
      FailAggregatedKeepsDone(db, batch, n - 1);
    }
  }

  lemma PushKeepsDone(db: Db, batch: AggregatorBatch)
    ensures KeepsDone(db.statuses, PushAggregator(db, batch).db.statuses)
  {
    hide UpdateStats, SetStatuses;
    SetStatusesKeepDone(db.statuses, batch.processID, batch.ballots, StatusAggregated);
  }

  lemma RetryKeepsDone(db: Db, t: TransitionBatch, p: ProcessID, batch: AggregatorBatch, now: int)
    ensures KeepsDone(db.statuses, Retry(db, t, p, batch, now).db.statuses)
  {
    hide PushAggregator, SetStatuses, Unconfirmed, Confirmed, Accepting;
    SetStatusesKeepDone(db.statuses, p, t.ballots, StatusError);
    SetStatusesKeepDone(db.statuses, t.processID, t.ballots, StatusError);
    if t.processID in db.info && db.info[t.processID].confirmed.Some? {
      var ids := db.info[t.processID].confirmed.value;
      SetStatusesKeepDone(db.statuses, t.processID, Confirmed(t.ballots, ids), StatusError);
      PushKeepsDone(db.(statuses := SetStatuses(db.statuses, t.processID, Confirmed(t.ballots, ids), StatusError)),
                    Retried(batch, Unconfirmed(t.ballots, ids), now));
    }
  }

  lemma FailureKeepsDone(db: Db, t: TransitionBatch, now: int)
    ensures KeepsDone(db.statuses, TransitionFailed(db, t, t.processID, now).db.statuses)
  {
    hide Retry, SetStatuses;
    SetStatusesKeepDone(db.statuses, t.processID, t.ballots, StatusError);
    if t.processID in db.pendingAgg {
      RetryKeepsDone(db.(pendingAgg := db.pendingAgg - {t.processID}), t, t.processID, db.pendingAgg[t.processID], now);
    }
  }

  lemma OutdatedKeepsDone(db: Db, t: TransitionBatch)
    ensures KeepsDone(db.statuses, TransitionOutdated(db, t).db.statuses)
  {
    hide PushAggregator, ValidProcessID;
    if t.processID in db.pendingAgg {
      PushKeepsDone(WithoutTransitions(db, {t}).(pendingTx := db.pendingTx - {t.processID},
                                                 pendingAgg := db.pendingAgg - {t.processID}),
                    db.pendingAgg[t.processID]);
    }
  }

  lemma BallotStepKeepsDone(n: Node, s: BallotStep, n': Node)
    requires NextBallots(n, s, n')
    ensures KeepsDone(n.db.statuses, n'.db.statuses)
  {
    hide Updated, UpdateStats, FailAllVerified, FailBooks, Pulled, PendingOf, VerifiedOf, Discounted;
    if s.MarkVerifiedFailed? {
      FailingKeepsDone(n.db, s.keys);
    }
  }

  lemma BatchStepKeepsDone(n: Node, s: BatchStep, n': Node)
    requires NextBatches(n, s, n')
    ensures KeepsDone(n.db.statuses, n'.db.statuses)
  {
    hide UpdateStats, SetStatuses, Updated, TakenFrom, Rested, PushAggregator, FailAggregated;
    match s
    case Aggregate(batch, _, _) =>
      PushKeepsDone(n.db, batch);
    case MarkAggregatedFailed(batch) =>
      FailAggregatedKeepsDone(n.db, batch, |batch.ballots|);
    case PushTransitionOf(t) =>
      SetStatusesKeepDone(n.db.statuses, t.processID, t.ballots, StatusProcessed);
    case _ =>
  }

  lemma ChainStepKeepsDone(n: Node, s: ChainStep, n': Node)
    requires NextChain(n, s, n')
    ensures KeepsDone(n.db.statuses, n'.db.statuses)
  {
    hide TransitionFailed, TransitionOutdated, StatusesDone, Updated, VoteIDs;
    match s
    case MarkOutdated(t) =>
      OutdatedKeepsDone(n.db, t);
    case SubmissionFailed(t, now) =>
      FailureKeepsDone(n.db, t, now);
    case CallbackDone(t) =>
      MarkingDoneKeepsDone(n.db.statuses, t.processID, IDList(t.ballots));
    case CallbackFailed(t, now) =>
      FailureKeepsDone(n.db, t, now);
    case _ =>
  }

  lemma AdminStepKeepsDone(n: Node, s: AdminStep, n': Node)
    requires NextAdmin(n, s, n')
    ensures KeepsDone(n.db.statuses, n'.db.statuses)
  {
    hide Posted, StatusesDone, WithoutPending, WithoutVerified, PendingOf, VerifiedOf,
         LocksOfVerified, LocksOfAggregated, VotesOfVerified, VotesOfAggregated, VotesOfTransitions,
         VerifiedStatusKeys, AggregatedStatusKeys, TransitionStatusKeys;
    match s
    case MarkVoteIDsDone(p, ids) =>
      MarkingDoneKeepsDone(n.db.statuses, p, ids);
    case _ =>
  }

  lemma StepKeepsDone(n: Node, s: Step, n': Node)
    requires Next(n, s, n')
    ensures KeepsDone(n.db.statuses, n'.db.statuses)
  {
    hide NextBallots, NextBatches, NextChain, NextAdmin;
    match s
    case Ballots(b) => BallotStepKeepsDone(n, b, n');
    case Batches(a) => BatchStepKeepsDone(n, a, n');
    case Chain(c) => ChainStepKeepsDone(n, c, n');
    case Admin(m) => AdminStepKeepsDone(n, m, n');
  }

  /** Once a vote is done it stays done, to the end of any run. */
  lemma {:induction false} DoneIsFinal(nodes: seq<Node>, steps: seq<Step>, i: nat, j: nat, k: VerifiedKey)
    requires Run(nodes, steps) && i <= j < |nodes|
    requires k in nodes[i].db.statuses && nodes[i].db.statuses[k] == StatusDone
    ensures k in nodes[j].db.statuses && nodes[j].db.statuses[k] == StatusDone
  {
    hide Next;
    if i < j {
      DoneIsFinal(nodes, steps, i, j - 1, k);
      StepKeepsDone(nodes[j - 1], steps[j - 1], nodes[j]);
    }
  }

  // Counters

  /** The books stay balanced, and no process is added or lost. */
  ghost predicate Kept(b: Books, b': Books) {
    (Conserved(b) ==> Conserved(b')) && b'.stats.Keys == b.stats.Keys
  }

  lemma UpdatesKeep(b: Books, p: ProcessID, us: seq<Update>)
    ensures Kept(b, Updated(b, p, us))
    ensures UpdateStats(b, p, us).Ok? ==> Kept(b, UpdateStats(b, p, us).value)
  {
    hide Conserved, ValidProcessID, CountedAll, TotalledAll;
    if Conserved(b) {
      UpdatesConserve(b, p, us);
    }
  }

  lemma {:induction false} DiscountingConserves(b: Books, p: ProcessID, n: nat)
    ensures Kept(b, Discounted(b, p, n))
  {
    if n > 0 {
      DiscountingConserves(b, p, n - 1);
      UpdatesKeep(Discounted(b, p, n - 1), p, [PendingVotes(-1)]);
    }
  }

  lemma {:induction false} FailBooksConserve(b: Books, c: Counts, order: seq<ProcessID>)
    ensures Kept(b, FailBooks(b, c, order))
  {
    hide Updated, Conserved;
    if |order| > 0 {
      var before := FailBooks(b, c, order[..|order| - 1]);
      var p := order[|order| - 1];
      FailBooksConserve(b, c, order[..|order| - 1]);
      if p in c {
        UpdatesKeep(before, p, [VerifiedVotes(-c[p]), CurrentBatchSize(-c[p])]);
      }
    }
  }

  lemma {:induction false} PostingConserves(b: Books, entries: seq<(ProcessID, seq<Update>)>)
    ensures Kept(b, Posted(b, entries))
  {
    hide Updated, Conserved;
    if |entries| > 0 {
      var init := entries[..|entries| - 1];
      PostingConserves(b, init);
      UpdatesKeep(Posted(b, init), entries[|entries| - 1].0, entries[|entries| - 1].1);
    }
  }

  lemma PushConserves(db: Db, batch: AggregatorBatch)
    ensures Kept(db.books, PushAggregator(db, batch).db.books)
  {
    hide Conserved, SetStatuses, UpdateStats;
    var n := |batch.ballots|;
    UpdatesKeep(db.books, batch.processID, [AggregatedVotes(n), LastBatchSize(n), CurrentBatchSize(-n)]);
  }

  lemma RetryConserves(db: Db, t: TransitionBatch, p: ProcessID, batch: AggregatorBatch, now: int)
    ensures Kept(db.books, Retry(db, t, p, batch, now).db.books)
  {
    hide PushAggregator, SetStatuses, Unconfirmed, Confirmed, Accepting, Conserved;
    if t.processID in db.info && db.info[t.processID].confirmed.Some? {
      var ids := db.info[t.processID].confirmed.value;
      PushConserves(db.(statuses := SetStatuses(db.statuses, t.processID, Confirmed(t.ballots, ids), StatusError)),
                    Retried(batch, Unconfirmed(t.ballots, ids), now));
    }
  }

  lemma FailureConserves(db: Db, t: TransitionBatch, now: int)
    ensures Kept(db.books, TransitionFailed(db, t, t.processID, now).db.books)
  {
    hide Retry, SetStatuses, Conserved;
    if t.processID in db.pendingAgg {
      RetryConserves(db.(pendingAgg := db.pendingAgg - {t.processID}), t, t.processID, db.pendingAgg[t.processID], now);
    }
  }

  lemma OutdatedConserves(db: Db, t: TransitionBatch)
    ensures Kept(db.books, TransitionOutdated(db, t).db.books)
  {
    hide PushAggregator, ValidProcessID, Conserved;
    if t.processID in db.pendingAgg {
      PushConserves(WithoutTransitions(db, {t}).(pendingTx := db.pendingTx - {t.processID},
                                                 pendingAgg := db.pendingAgg - {t.processID}),
                    db.pendingAgg[t.processID]);
    }
  }

  lemma BallotStepConserves(n: Node, s: BallotStep, n': Node)
    requires NextBallots(n, s, n')
    ensures Kept(n.db.books, n'.db.books)
  {
    hide Updated, UpdateStats, FailAllVerified, FailBooks, Pulled, PendingOf, VerifiedOf, Discounted, Conserved,
         SetStatus, WithoutPending, WithoutVerified;
    match s
    case Push(b) =>
      UpdatesKeep(n.db.books, b.processID, [PendingVotes(1)]);
    case RemovePendingBallot(p, v) =>
      UpdatesKeep(n.db.books, p, [PendingVotes(-1)]);
    case RemovePendingBallots(p) =>
      DiscountingConserves(n.db.books, p, |PendingOf(n.db, p)|);
    case MarkBallotVerified(v, vb) =>
      VerifyingConserves(n.db, v, vb);
    case MarkVerifiedFailed(keys, order) =>
      FailAllFrame(n.db, keys);
      FailBooksConserve(n.db.books, FailAllVerified(n.db, keys).1, order);
    case RemoveVerifiedBallots(p) => DroppingKeepsBooks(n.db, VerifiedOf(n.db, p));
    case MarkVerifiedDone(keys) => DroppingKeepsBooks(n.db, set k | k in keys);
    case _ =>
  }

  lemma DroppingKeepsBooks(db: Db, keys: set<VerifiedKey>)
    ensures WithoutVerified(db, keys).books == db.books
  {
  }

  lemma VerifyingConserves(db: Db, v: VoteID, vb: Option<VerifiedBallot>)
    ensures Kept(db.books, MarkVerified(db, v, vb).db.books)
  {
    hide UpdateStats, SetStatus, Conserved, ValidProcessID;
    if vb.Some? {
      var found := v in db.pending;
      var p := if found then db.pending[v].processID else vb.value.processID;
      UpdatesKeep(db.books, p, [VerifiedVotes(1), CurrentBatchSize(1)] + if found then [PendingVotes(-1)] else []);
    }
  }

  lemma BatchStepConserves(n: Node, s: BatchStep, n': Node)
    requires NextBatches(n, s, n')
    ensures Kept(n.db.books, n'.db.books)
  {
    hide UpdateStats, SetStatuses, Updated, TakenFrom, Rested, PushAggregator, Conserved;
    match s
    case Aggregate(batch, _, _) =>
      PushConserves(n.db, batch);
    case MarkAggregatedFailed(batch) =>
      FailAggregatedFrame(n.db, batch, |batch.ballots|);
      var c := FailAggregated(n.db, batch, |batch.ballots|).1;
      UpdatesKeep(n.db.books, batch.processID, [AggregatedVotes(-c), CurrentBatchSize(c)]);
    case PushTransitionOf(t) =>
      UpdatesKeep(n.db.books, t.processID, [StateTransitions(1)]);
    case _ =>
  }

  lemma ChainStepConserves(n: Node, s: ChainStep, n': Node)
    requires NextChain(n, s, n')
    ensures Kept(n.db.books, n'.db.books)
  {
    hide TransitionFailed, TransitionOutdated, StatusesDone, Updated, VoteIDs, Conserved;
    match s
    case MarkOutdated(t) =>
      OutdatedConserves(n.db, t);
    case SubmissionFailed(t, now) =>
      FailureConserves(n.db, t, now);
    case CallbackDone(t) =>
      UpdatesKeep(n.db.books, t.processID, [SettledStateTransitions(1), LastTransitionDate]);
    case CallbackFailed(t, now) =>
      FailureConserves(n.db, t, now);
    case _ =>
  }

  /** The counters know a process exactly when the storage does. */
  ghost predicate BooksAreSound(db: Db) {
    Conserved(db.books) && db.books.stats.Keys == db.info.Keys
  }

  lemma AdminStepConserves(n: Node, s: AdminStep, n': Node)
    requires NextAdmin(n, s, n') && BooksAreSound(n.db)
    ensures BooksAreSound(n'.db)
  {
    hide Posted, FailKeys, TimedOut, StatusesDone, WithoutPending, WithoutVerified, Conserved,
         LocksOfVerified, LocksOfAggregated, VotesOfVerified, VotesOfAggregated, VotesOfTransitions,
         VerifiedStatusKeys, AggregatedStatusKeys, TransitionStatusKeys, CleanupEnded;
    match s
    case CleanAll(entries) =>
      PostingConserves(n.db.books, entries);
    case AddProcess(p, _) =>
      if p !in n.db.info {
        NewProcessConserves(n.db.books, p);
      }
    case Cleanup(p) =>
      CleanupKeepsBooks(n.db, p);
    case _ =>
  }

  lemma CleanupKeepsBooks(db: Db, p: ProcessID)
    ensures CleanupEnded(db, p).books == db.books && CleanupEnded(db, p).info == db.info
  {
  }

  lemma StepKeepsBooks(n: Node, s: Step, n': Node)
    requires Next(n, s, n') && BooksAreSound(n.db)
    ensures BooksAreSound(n'.db)
  {
    hide NextBallots, NextBatches, NextChain, NextAdmin, Conserved;
    match s
    case Ballots(b) =>
      BallotStepsKeepBatches(n, b, n');
      BallotStepConserves(n, b, n');
    case Batches(a) =>
      BatchStepFrame(n, a, n');
      BatchStepConserves(n, a, n');
    case Chain(c) =>
      ChainStepFrame(n, c, n');
      ChainStepConserves(n, c, n');
    case Admin(m) =>
      AdminStepConserves(n, m, n');
  }

  /**
   In every state of every run the totals are the sums of the counters of all
   processes, clamped updates included, and no clamped counter is negative.
   */
  lemma {:induction false} CountersAddUp(nodes: seq<Node>, steps: seq<Step>, i: nat)
    requires Run(nodes, steps) && i < |nodes|
    ensures BooksAreSound(nodes[i].db)
  {
    hide Next, Conserved;
    if i == 0 {
      NothingIsConserved();
    } else {
      CountersAddUp(nodes, steps, i - 1);
      StepKeepsBooks(nodes[i - 1], steps[i - 1], nodes[i]);
    }
  }

  // Hand-outs

  /** The step hands out this pending ballot. */
  ghost predicate HandsOutPending(s: Step, v: VoteID) {
    s.Ballots? && s.b.NextPending? && s.b.voteID == v
  }

  ghost predicate HandsOutVerified(s: Step, k: VerifiedKey) {
    s.Ballots? && s.b.Pull? && k in s.b.keys
  }

  /** Two hand-outs of one pending ballot have a step between them that frees its reservation. */
  lemma {:induction false} PendingIsHandedOutOnce(nodes: seq<Node>, steps: seq<Step>, i: nat, j: nat, v: VoteID)
    requires Run(nodes, steps) && i < j < |steps|
    requires HandsOutPending(steps[i], v) && HandsOutPending(steps[j], v)
    ensures exists m :: i < m < j && v in nodes[m].db.reservedPending && v !in nodes[m + 1].db.reservedPending
  {
    assert Next(nodes[i], steps[i], nodes[i + 1]) && Next(nodes[j], steps[j], nodes[j + 1]);
    KeysAlwaysMatch(nodes, steps, i);
    hide Next;
    var m := LastReserved(nodes, (db: Db) => v in db.reservedPending, i + 1, j);
  }

  lemma {:induction false} VerifiedIsHandedOutOnce(nodes: seq<Node>, steps: seq<Step>, i: nat, j: nat, k: VerifiedKey)
    requires Run(nodes, steps) && i < j < |steps|
    requires HandsOutVerified(steps[i], k) && HandsOutVerified(steps[j], k)
    ensures exists m :: i < m < j && k in nodes[m].db.reservedVerified && k !in nodes[m + 1].db.reservedVerified
  {
    assert Next(nodes[i], steps[i], nodes[i + 1]) && Next(nodes[j], steps[j], nodes[j + 1]);
    hide Next;
    var m := LastReserved(nodes, (db: Db) => k in db.reservedVerified, i + 1, j);
  }

  /** Two hand-outs of one aggregated batch have a step between them that frees its reservation. */
  lemma {:induction false} BatchIsHandedOutOnce(nodes: seq<Node>, steps: seq<Step>, i: nat, j: nat, b: AggregatorBatch)
    requires Run(nodes, steps) && i < j < |steps|
    requires steps[i].Batches? && steps[i].a.Take? && steps[i].a.batch == b
    requires steps[j].Batches? && steps[j].a.Take? && steps[j].a.batch == b
    ensures exists m :: i < m < j && b in nodes[m].db.reservedAggregated && b !in nodes[m + 1].db.reservedAggregated
  {
    assert Next(nodes[i], steps[i], nodes[i + 1]) && Next(nodes[j], steps[j], nodes[j + 1]);
    hide Next;
    var m := LastReserved(nodes, (db: Db) => b in db.reservedAggregated, i + 1, j);
  }

  /** Only a removal, an end, an outdated transition made from it, a cleanup, ageing or a restart frees a batch's reservation. */
  lemma BatchIsFreedBy(n: Node, s: Step, n': Node, b: AggregatorBatch)
    requires Next(n, s, n') && b in n.db.reservedAggregated && b !in n'.db.reservedAggregated
    ensures || s == Batches(MarkAggregatedFailed(b)) || s == Batches(MarkAggregatedDone(b))
            || s == Batches(RemoveAggregated(b.processID))
            || (s.Chain? && s.c.MarkOutdated? && s.c.transition.batchID == Some(b))
            || s == Admin(Restart) || s == Admin(Cleanup(b.processID)) || (s.Admin? && s.m.CleanAll?)
            || (s.Admin? && s.m.Expire? && b in s.m.stale.aggregated)
  {
    hide NextBallots, NextBatches, NextChain, NextAdmin;
    match s
    case Ballots(x) => BallotStepsKeepBatches(n, x, n');
    case Batches(a) => BatchStepFreesBatch(n, a, n', b);
    case Chain(c) => ChainStepFreesBatch(n, c, n', b);
    case Admin(m) => AdminStepFreesBatch(n, m, n', b);
  }

  lemma BatchStepFreesBatch(n: Node, s: BatchStep, n': Node, b: AggregatorBatch)
    requires NextBatches(n, s, n') && b in n.db.reservedAggregated && b !in n'.db.reservedAggregated
    ensures s == MarkAggregatedFailed(b) || s == MarkAggregatedDone(b) || s == RemoveAggregated(b.processID)
  {
    hide UpdateStats, SetStatuses, Updated, TakenFrom, Rested, FailAggregated, ValidProcessID;
    match s
    case Aggregate(batch, _, _) => PushEffect(n.db, batch);
    case MarkAggregatedFailed(batch) => FailAggregatedFrame(n.db, batch, |batch.ballots|);
    case _ =>
  }

  lemma ChainStepFreesBatch(n: Node, s: ChainStep, n': Node, b: AggregatorBatch)
    requires NextChain(n, s, n') && b in n.db.reservedAggregated && b !in n'.db.reservedAggregated
    ensures s.MarkOutdated? && s.transition.batchID == Some(b)
  {
    hide TransitionFailed, TransitionOutdated, StatusesDone, Updated, VoteIDs;
    match s
    case MarkOutdated(t) => OutdatedFrees(n.db, t);
    case SubmissionFailed(t, now) => FailureFrame(n.db, t, t.processID, now);
    case CallbackFailed(t, now) => FailureFrame(n.db, t, t.processID, now);
    case _ =>
  }

  lemma OutdatedFrees(db: Db, t: TransitionBatch)
    ensures var after := TransitionOutdated(db, t).db;
            forall b :: b in db.reservedAggregated && b !in after.reservedAggregated ==> t.batchID == Some(b)
  {
    hide PushAggregator, ValidProcessID;
    if t in db.transitions && ValidProcessID(t.processID) && t.processID in db.pendingAgg {
      PushEffect(WithoutTransitions(db, {t}).(pendingTx := db.pendingTx - {t.processID},
                                              pendingAgg := db.pendingAgg - {t.processID}),
                 db.pendingAgg[t.processID]);
    }
  }

  lemma AdminStepFreesBatch(n: Node, s: AdminStep, n': Node, b: AggregatorBatch)
    requires NextAdmin(n, s, n') && b in n.db.reservedAggregated && b !in n'.db.reservedAggregated
    ensures s.Restart? || s == Cleanup(b.processID) || s.CleanAll? || (s.Expire? && b in s.stale.aggregated)
  {
    hide Posted, FailKeys, TimedOut, StatusesDone, CleanupEnded, Recovered;
    if s.Cleanup? {
      CleanupFreesBatches(n.db, s.processID);
    }
  }

  lemma CleanupFreesBatches(db: Db, p: ProcessID)
    ensures forall b :: b in db.reservedAggregated && b !in CleanupEnded(db, p).reservedAggregated ==> b.processID == p
  {
    hide TimedOut, PendingOf, VerifiedOf;
  }

  /** Between a state where something holds and a later one where it does not, some step ends it. */
  lemma {:induction false} LastReserved(nodes: seq<Node>, holds: Db -> bool, a: nat, b: nat) returns (m: nat)
    requires a < b < |nodes| && holds(nodes[a].db) && !holds(nodes[b].db)
    ensures a <= m < b && holds(nodes[m].db) && !holds(nodes[m + 1].db)
    decreases b - a
  {
    if holds(nodes[a + 1].db) {
      m := LastReserved(nodes, holds, a + 1, b);
    } else {
      m := a;
    }
  }

  /** The ballot steps that free the reservation of a pending ballot. */
  ghost predicate FreesPending(db: Db, s: BallotStep, v: VoteID) {
    || s == ReleasePendingBallot(v)
    || (s.RemovePendingBallot? && s.voteID == v)
    || (s.MarkBallotVerified? && s.voteID == v)
    || (s.RemovePendingBallots? && v in IDsOf(db, PendingOf(db, s.processID)))
  }

  lemma BallotStepFreesPending(n: Node, s: BallotStep, n': Node, v: VoteID)
    requires NextBallots(n, s, n') && v in n.db.reservedPending && v !in n'.db.reservedPending
    ensures FreesPending(n.db, s, v)
  {
    hide Updated, UpdateStats, FailBooks, Pulled, Discounted, SetStatus, WithoutVerified, VerifiedOf, FailAllVerified,
         PendingOf;
    match s
    case MarkVerifiedFailed(keys, _) => FailAllFrame(n.db, keys);
    case RemoveVerifiedBallots(p) => DroppingKeepsPending(n.db, VerifiedOf(n.db, p));
    case MarkVerifiedDone(keys) => DroppingKeepsPending(n.db, set k | k in keys);
    case _ =>
  }

  lemma AdminStepFreesPending(n: Node, s: AdminStep, n': Node, v: VoteID)
    requires NextAdmin(n, s, n') && v in n.db.reservedPending && v !in n'.db.reservedPending
    ensures s.Restart? || (s.Cleanup? && v in IDsOf(n.db, PendingOf(n.db, s.processID))) || (s.Expire? && v in s.stale.pending)
  {
    hide Posted, FailKeys, TimedOut, StatusesDone, PendingOf, CleanupEnded, Recovered;
    if s.Cleanup? {
      CleanupFrees(n.db, s.processID);
    }
  }

  /** Only a release, a removal, a verification, a cleanup, ageing or a restart frees the reservation of a pending ballot. */
  lemma PendingIsFreedBy(n: Node, s: Step, n': Node, v: VoteID)
    requires Next(n, s, n') && v in n.db.reservedPending && v !in n'.db.reservedPending
    ensures (s.Ballots? && FreesPending(n.db, s.b, v))
            || s == Admin(Restart)
            || (s.Admin? && s.m.Cleanup? && v in IDsOf(n.db, PendingOf(n.db, s.m.processID)))
            || (s.Admin? && s.m.Expire? && v in s.m.stale.pending)
  {
    hide NextBallots, NextBatches, NextChain, NextAdmin, FreesPending, PendingOf;
    match s
    case Ballots(b) => BallotStepFreesPending(n, b, n', v);
    case Batches(a) => BatchStepFrame(n, a, n');
    case Chain(c) => ChainStepFrame(n, c, n');
    case Admin(m) => AdminStepFreesPending(n, m, n', v);
  }

  /** The ballot steps that free the reservation of a verified ballot. */
  ghost predicate FreesVerified(db: Db, s: BallotStep, k: VerifiedKey) {
    || (s.ReleaseVerifiedBallots? && k in s.keys)
    || (s.RemoveVerifiedBallots? && k in VerifiedOf(db, s.processID))
    || (s.MarkVerifiedDone? && k in s.keys)
    || (s.MarkVerifiedFailed? && k in s.keys)
  }

  lemma {:induction false} FailingFrees(db: Db, keys: seq<VerifiedKey>, k: VerifiedKey)
    requires k in db.reservedVerified && k !in keys
    ensures k in FailAllVerified(db, keys).0.reservedVerified
  {
    if |keys| > 0 {
      FailingFrees(db, keys[..|keys| - 1], k);
    }
  }

  lemma BallotStepFreesVerified(n: Node, s: BallotStep, n': Node, k: VerifiedKey)
    requires NextBallots(n, s, n') && k in n.db.reservedVerified && k !in n'.db.reservedVerified
    ensures FreesVerified(n.db, s, k)
  {
    hide Updated, UpdateStats, FailBooks, Pulled, Discounted, SetStatus, VerifiedOf, FailAllVerified, PendingOf;
    if s.MarkVerifiedFailed? && k !in s.keys {
      FailingFrees(n.db, s.keys, k);
    }
  }

  lemma AdminStepFreesVerified(n: Node, s: AdminStep, n': Node, k: VerifiedKey)
    requires NextAdmin(n, s, n') && k in n.db.reservedVerified && k !in n'.db.reservedVerified
    ensures || s.Restart? || (s.Cleanup? && k in VerifiedOf(n.db, s.processID)) || (s.CleanAll? && k in n.db.verified)
            || (s.Expire? && k in s.stale.verified)
  {
    hide Posted, FailKeys, TimedOut, StatusesDone, CleanupEnded, Recovered;
    if s.Cleanup? {
      CleanupFrees(n.db, s.processID);
    }
  }

  /** Only a release, a removal, a cleanup, ageing or a restart frees the reservation of a verified ballot. */
  lemma VerifiedIsFreedBy(n: Node, s: Step, n': Node, k: VerifiedKey)
    requires Next(n, s, n') && k in n.db.reservedVerified && k !in n'.db.reservedVerified
    ensures (s.Ballots? && FreesVerified(n.db, s.b, k))
            || s == Admin(Restart)
            || (s.Admin? && s.m.Cleanup? && k in VerifiedOf(n.db, s.m.processID))
            || (s.Admin? && s.m.CleanAll? && k in n.db.verified)
            || (s.Admin? && s.m.Expire? && k in s.m.stale.verified)
  {
    hide NextBallots, NextBatches, NextChain, NextAdmin, FreesVerified, VerifiedOf;
    match s
    case Ballots(b) => BallotStepFreesVerified(n, b, n', k);
    case Batches(a) => BatchStepFrame(n, a, n');
    case Chain(c) => ChainStepFrame(n, c, n');
    case Admin(m) => AdminStepFreesVerified(n, m, n', k);
  }

  lemma DroppingKeepsPending(db: Db, keys: set<VerifiedKey>)
    ensures WithoutVerified(db, keys).reservedPending == db.reservedPending
  {
  }

  lemma CleanupFrees(db: Db, p: ProcessID)
    ensures CleanupEnded(db, p).reservedPending == db.reservedPending - IDsOf(db, PendingOf(db, p))
    ensures CleanupEnded(db, p).reservedVerified == db.reservedVerified - VerifiedOf(db, p)
    ensures CleanupEnded(db, p).pending == db.pending - IDsOf(db, PendingOf(db, p))
  {
  }

  // Keys of the pending queue

  /** Pending ballots only come from a push under their own vote ID; every other step keeps or removes them. */
  ghost predicate PendingShrinks(db: Db, db': Db) {
    forall v :: v in db'.pending ==> v in db.pending && db'.pending[v] == db.pending[v]
  }

  lemma DroppingShrinks(db: Db, keys: set<VerifiedKey>)
    ensures WithoutVerified(db, keys).pending == db.pending
  {
  }

  lemma BallotStepKeepsKeys(n: Node, s: BallotStep, n': Node)
    requires NextBallots(n, s, n')
    ensures if s.Push? && PushPending(n.db, s.ballot).r.Ok? then n'.db.pending == n.db.pending[s.ballot.voteID := s.ballot]
            else PendingShrinks(n.db, n'.db)
  {
    hide Updated, UpdateStats, FailBooks, Pulled, Discounted, SetStatus, WithoutVerified, VerifiedOf, FailAllVerified,
         ValidProcessID;
    match s
    case MarkVerifiedFailed(keys, _) => FailAllFrame(n.db, keys);
    case RemoveVerifiedBallots(p) => DroppingShrinks(n.db, VerifiedOf(n.db, p));
    case MarkVerifiedDone(keys) => DroppingShrinks(n.db, set k | k in keys);
    case _ =>
  }

  lemma AdminStepKeepsKeys(n: Node, s: AdminStep, n': Node)
    requires NextAdmin(n, s, n')
    ensures PendingShrinks(n.db, n'.db)
  {
    hide Posted, FailKeys, TimedOut, StatusesDone, CleanupEnded;
    if s.Cleanup? {
      CleanupFrees(n.db, s.processID);
    }
  }

  /** In every state of every run, pending ballots are stored under their own vote ID. */
  lemma {:induction false} KeysAlwaysMatch(nodes: seq<Node>, steps: seq<Step>, i: nat)
    requires Run(nodes, steps) && i < |nodes|
    ensures KeysMatch(nodes[i].db)
  {
    hide NextBallots, NextBatches, NextChain, NextAdmin;
    if i > 0 {
      KeysAlwaysMatch(nodes, steps, i - 1);
      var n, n' := nodes[i - 1], nodes[i];
      match steps[i - 1]
      case Ballots(b) => BallotStepKeepsKeys(n, b, n');
      case Batches(a) => BatchStepFrame(n, a, n');
      case Chain(c) => ChainStepFrame(n, c, n');
      case Admin(m) => AdminStepKeepsKeys(n, m, n');
    }
  }

  // Processes

  /** A valid identifier of a stored process. */
  ghost predicate Known(db: Db, p: ProcessID) {
    ValidProcessID(p) && p in db.info
  }

  /** Every batch, queued or in memory, belongs to a stored process. */
  ghost predicate KnownNode(n: Node) {
    && (forall b :: b in n.db.aggregated ==> Known(n.db, b.processID))
    && (forall p :: p in n.db.pendingAgg ==> n.db.pendingAgg[p].processID == p && Known(n.db, p))
    && (forall t :: t in n.db.transitions ==> Known(n.db, t.processID))
    && (forall b :: b in n.taken ==> Known(n.db, b.processID))
    && (forall p :: p in n.staged ==> Known(n.db, p))
  }

  lemma RetryAddsOwn(db: Db, t: TransitionBatch, p: ProcessID, batch: AggregatorBatch, now: int)
    ensures forall b :: b in Retry(db, t, p, batch, now).db.aggregated ==> b in db.aggregated || b.processID == batch.processID
  {
    hide PushAggregator, SetStatuses, Unconfirmed, Confirmed, Accepting;
    if t.processID in db.info && db.info[t.processID].confirmed.Some? {
      var ids := db.info[t.processID].confirmed.value;
      PushEffect(db.(statuses := SetStatuses(db.statuses, t.processID, Confirmed(t.ballots, ids), StatusError)),
                 Retried(batch, Unconfirmed(t.ballots, ids), now));
    }
  }

  lemma FailureAddsOwn(db: Db, t: TransitionBatch, now: int)
    ensures forall b :: b in TransitionFailed(db, t, t.processID, now).db.aggregated ==>
              b in db.aggregated
              || (t.processID in db.pendingAgg && b.processID == db.pendingAgg[t.processID].processID)
  {
    hide Retry, SetStatuses;
    var p := t.processID;
    if p in db.pendingAgg {
      RetryAddsOwn(db.(pendingAgg := db.pendingAgg - {p}), t, p, db.pendingAgg[p], now);
    }
  }

  lemma BatchStepIsKnown(n: Node, s: BatchStep, n': Node)
    requires KnownNode(n) && NextBatches(n, s, n')
    ensures KnownNode(n')
  {
    hide UpdateStats, SetStatuses, Updated, TakenFrom, Rested, FailAggregated, ValidProcessID;
    if s.MarkAggregatedFailed? {
      FailAggregatedFrame(n.db, s.batch, |s.batch.ballots|);
    }
  }

  lemma ChainStepIsKnown(n: Node, s: ChainStep, n': Node)
    requires KnownNode(n) && NextChain(n, s, n')
    ensures KnownNode(n')
  {
    hide TransitionFailed, TransitionOutdated, StatusesDone, Updated, VoteIDs, ValidProcessID;
    match s
    case MarkOutdated(t) =>
      OutdatedFrame(n.db, t);
    case SubmissionFailed(t, now) =>
      FailureFrame(n.db, t, t.processID, now);
      FailureAddsOwn(n.db, t, now);
    case CallbackFailed(t, now) =>
      FailureFrame(n.db, t, t.processID, now);
      FailureAddsOwn(n.db, t, now);
    case _ =>
  }

  lemma AdminStepKeepsProcesses(n: Node, s: AdminStep, n': Node)
    requires NextAdmin(n, s, n')
    ensures n.db.info.Keys <= n'.db.info.Keys
  {
    hide Posted, FailKeys, TimedOut, StatusesDone, CleanupEnded;
    if s.Cleanup? {
      CleanupKeepsBooks(n.db, s.processID);
    }
  }

  lemma StepIsKnown(n: Node, s: Step, n': Node)
    requires KnownNode(n) && Next(n, s, n')
    ensures KnownNode(n')
  {
    hide NextBallots, NextBatches, NextChain, NextAdmin, ValidProcessID;
    match s
    case Ballots(b) =>
      BallotStepsKeepBatches(n, b, n');
    case Batches(a) =>
      BatchStepIsKnown(n, a, n');
    case Chain(c) =>
      ChainStepIsKnown(n, c, n');
    case Admin(m) =>
      AdminStepShrinks(n, m, n');
      AdminStepKeepsProcesses(n, m, n');
  }

  /** In every state of every run, whatever is queued belongs to a stored process: no step ever deletes one. */
  lemma {:induction false} QueuedProcessesAreKnown(nodes: seq<Node>, steps: seq<Step>, i: nat)
    requires Run(nodes, steps) && i < |nodes|
    ensures KnownNode(nodes[i])
  {
    hide Next, Known;
    if i == 0 {
      assert KnownNode(INITIAL);
    } else {
      QueuedProcessesAreKnown(nodes, steps, i - 1);
      StepIsKnown(nodes[i - 1], steps[i - 1], nodes[i]);
    }
  }
}
