/** What becomes of the ballots of a failed state transition. */
module Failures {
  import opened Wrappers
  import opened Queues
  import opened Counters
  import opened Store
  import opened StorageObject
  import opened Protocol
  import opened Effects
  import opened Flight
  import opened Safety

  ghost predicate Settled(m: Statuses, k: VerifiedKey) {
    k in m && m[k] in {StatusError, StatusDone}
  }

  lemma {:induction false} StatusesAreSet(m: Statuses, p: ProcessID, ballots: seq<AggregatorBallot>, s: Status)
    ensures var after := SetStatuses(m, p, ballots, s);
            && (forall b :: b in ballots ==> VerifiedKey(p, b.voteID) in after
                                             && after[VerifiedKey(p, b.voteID)] in {s, StatusDone})
            && (forall k :: k in m && k !in StatusKeys(p, ballots) ==> k in after && after[k] == m[k])
  {
    if |ballots| > 0 {
      var init := ballots[..|ballots| - 1];
      StatusesAreSet(m, p, init, s);
      assert forall b :: b in ballots ==> b in init || b == ballots[|ballots| - 1];
      assert forall k :: k in StatusKeys(p, init) ==> k in StatusKeys(p, ballots);
    }
  }

  /** Filtering splits the ballots by whether their vote is in the confirmed state. */
  lemma {:induction false} FilterSplits(ballots: seq<AggregatorBallot>, ids: set<VoteID>)
    ensures forall b :: b in ballots ==> (b in Unconfirmed(ballots, ids) <==> b.voteID !in ids)
    ensures forall b :: b in ballots ==> (b in Confirmed(ballots, ids) <==> b.voteID in ids)
    ensures forall b :: b in Unconfirmed(ballots, ids) ==> b.voteID !in ids && b in ballots
    ensures forall b :: b in Confirmed(ballots, ids) ==> b.voteID in ids && b in ballots
    ensures |Unconfirmed(ballots, ids)| + |Confirmed(ballots, ids)| == |ballots|
  {
    if |ballots| > 0 {
      FilterSplits(ballots[..|ballots| - 1], ids);
    }
  }

  /** Queued again for another attempt, with a vote that is not in the confirmed state. */
  ghost predicate Requeued(db: Db, p: ProcessID, before: AggregatorBatch, now: int, after: Db, b: AggregatorBallot) {
    && p in db.info && db.info[p].confirmed.Some? && b.voteID !in db.info[p].confirmed.value
    && (exists batch :: batch in after.aggregated && batch == Retried(before, batch.ballots, now) && b in batch.ballots)
  }

  /** Marking the confirmed votes, and then queueing the others, leaves the confirmed ones settled. */
  lemma ConfirmedAreSettled(m: Statuses, p: ProcessID, ballots: seq<AggregatorBallot>, ids: set<VoteID>, b: AggregatorBallot)
    requires b in ballots && b.voteID in ids
    ensures var marked := SetStatuses(m, p, Confirmed(ballots, ids), StatusError);
            && Settled(marked, VerifiedKey(p, b.voteID))
            && Settled(SetStatuses(marked, p, Unconfirmed(ballots, ids), StatusAggregated), VerifiedKey(p, b.voteID))
  {
    hide SetStatuses, Unconfirmed, Confirmed;
    FilterSplits(ballots, ids);
    StatusesAreSet(m, p, Confirmed(ballots, ids), StatusError);
    StatusesAreSet(SetStatuses(m, p, Confirmed(ballots, ids), StatusError), p, Unconfirmed(ballots, ids), StatusAggregated);
    assert VerifiedKey(p, b.voteID) !in StatusKeys(p, Unconfirmed(ballots, ids));
  }

  lemma RetryAccounts(db: Db, t: TransitionBatch, batch: AggregatorBatch, now: int, b: AggregatorBallot)
    requires b in t.ballots && batch.processID == t.processID
    requires batch.attempts + 1 >= MAX_STATE_TRANSITION_ATTEMPTS
             || (t.processID in db.info
                 && (Accepting(db.info[t.processID]) ==> db.info[t.processID].confirmed.Some?))
    ensures var after := Retry(db, t, t.processID, batch, now).db;
            Settled(after.statuses, VerifiedKey(t.processID, b.voteID)) || Requeued(db, t.processID, batch, now, after, b)
  {
    hide UpdateStats, SetStatuses, Unconfirmed, Confirmed, Accepting, Settled;
    var p := t.processID;
    SettledByError(db.statuses, p, t.ballots, b);
    if p in db.info && db.info[p].confirmed.Some? {
      var ids := db.info[p].confirmed.value;
      FilterSplits(t.ballots, ids);
      if b.voteID in ids {
        ConfirmedAreSettled(db.statuses, p, t.ballots, ids, b);
      } else {
        assert b in Retried(batch, Unconfirmed(t.ballots, ids), now).ballots;
      }
    }
  }

  /**
   What loses the ballots of a failed transition, known before the call: its
   batch may be tried again, but the process is not stored, or it accepts votes
   and the state at its confirmed root cannot be loaded.
   */
  ghost predicate Lost(db: Db, t: TransitionBatch) {
    var p := t.processID;
    && p in db.pendingAgg && db.pendingAgg[p].attempts + 1 < MAX_STATE_TRANSITION_ATTEMPTS
    && (p !in db.info || (Accepting(db.info[p]) && db.info[p].confirmed.None?))
  }

  /**
   A ballot of a failed transition is queued again and unconfirmed, or in error
   or done, exactly when the transition is not lost.
   */
  lemma FailedBallotsAreAccounted(db: Db, t: TransitionBatch, now: int, b: AggregatorBallot)
    requires t in db.transitions && b in t.ballots && PendingUnderOwnProcess(db)
    requires !Settled(db.statuses, VerifiedKey(t.processID, b.voteID))
    ensures var after := TransitionFailed(db, t, t.processID, now).db;
            (|| Settled(after.statuses, VerifiedKey(t.processID, b.voteID))
             || (t.processID in db.pendingAgg && Requeued(db, t.processID, db.pendingAgg[t.processID], now, after, b)))
            <==> !Lost(db, t)
  {
    hide Retry, SetStatuses, Settled, Accepting;
    var p := t.processID;
    if Lost(db, t) {
      LostBatchIsGone(db, t, now);
    } else if p in db.pendingAgg {
      RetryAccounts(db.(pendingAgg := db.pendingAgg - {p}), t, db.pendingAgg[p], now, b);
      RequeuedElsewhere(db, p, now, t, b);
    } else {
      SettledByError(db.statuses, p, t.ballots, b);
    }
  }

  lemma SettledByError(m: Statuses, p: ProcessID, ballots: seq<AggregatorBallot>, b: AggregatorBallot)
    requires b in ballots
    ensures Settled(SetStatuses(m, p, ballots, StatusError), VerifiedKey(p, b.voteID))
  {
    StatusesAreSet(m, p, ballots, StatusError);
  }

  lemma RequeuedElsewhere(db: Db, p: ProcessID, now: int, t: TransitionBatch, b: AggregatorBallot)
    requires p == t.processID && p in db.pendingAgg && t in db.transitions
    ensures var released := db.(pendingAgg := db.pendingAgg - {p});
            Requeued(released, p, db.pendingAgg[p], now, Retry(released, t, p, db.pendingAgg[p], now).db, b)
            ==> Requeued(db, p, db.pendingAgg[p], now, TransitionFailed(db, t, p, now).db, b)
  {
    hide Retry, SetStatuses;
  }

  /** A lost transition is dropped and its batch released, while nothing is queued and no status changes. */
  lemma LostBatchIsGone(db: Db, t: TransitionBatch, now: int)
    requires t in db.transitions && Lost(db, t)
    ensures var o := TransitionFailed(db, t, t.processID, now);
            && o.r.Err? && t !in o.db.transitions && t.processID !in o.db.pendingAgg
            && o.db.aggregated == db.aggregated && o.db.statuses == db.statuses
  {
    hide SetStatuses, PushAggregator, Accepting;
  }

  /**
   In a run every queued process is stored, so a failure loses its ballots, and
   returns an error, exactly when a batch that may be tried again belongs to a
   process that accepts votes and whose confirmed state cannot be loaded.
   */
  lemma LossNeedsUnloadableRoot(nodes: seq<Node>, steps: seq<Step>, i: nat, t: TransitionBatch, now: int)
    requires Run(nodes, steps) && i < |nodes| && t in nodes[i].db.transitions
    ensures var db, p := nodes[i].db, t.processID;
            && p in db.info
            && (Lost(db, t) <==>
                  p in db.pendingAgg && db.pendingAgg[p].attempts + 1 < MAX_STATE_TRANSITION_ATTEMPTS
                  && Accepting(db.info[p]) && db.info[p].confirmed.None?)
            && (TransitionFailed(db, t, p, now).r.Err? <==> Lost(db, t))
  {
    var db, p := nodes[i].db, t.processID;
    assert Known(db, p) && (p in db.pendingAgg ==> db.pendingAgg[p].processID == p) && BooksAreSound(db) by {
      QueuedProcessesAreKnown(nodes, steps, i);
      CountersAddUp(nodes, steps, i);
    }
    hide Run, Conserved, Accepting, SetStatuses, Unconfirmed, Confirmed, ValidProcessID, CountedAll, TotalledAll;
  }

  /** So in any run a ballot of a failing transition is accounted for exactly unless that root cannot be loaded. */
  lemma BallotsAreAccountedInRuns(nodes: seq<Node>, steps: seq<Step>, i: nat, t: TransitionBatch, now: int,
                                  b: AggregatorBallot)
    requires Run(nodes, steps) && i < |nodes| && t in nodes[i].db.transitions && b in t.ballots
    requires !Settled(nodes[i].db.statuses, VerifiedKey(t.processID, b.voteID))
    ensures var db, p := nodes[i].db, t.processID;
            var after := TransitionFailed(db, t, p, now).db;
            && p in db.info
            && ((|| Settled(after.statuses, VerifiedKey(p, b.voteID))
                 || (p in db.pendingAgg && Requeued(db, p, db.pendingAgg[p], now, after, b)))
                <==> !(p in db.pendingAgg && db.pendingAgg[p].attempts + 1 < MAX_STATE_TRANSITION_ATTEMPTS
                       && Accepting(db.info[p]) && db.info[p].confirmed.None?))
  {
    assert PendingUnderOwnProcess(nodes[i].db) by {
      QueuedProcessesAreKnown(nodes, steps, i);
    }
    LossNeedsUnloadableRoot(nodes, steps, i, t, now);
    hide Run, TransitionFailed, Settled, Requeued, Accepting, Lost;
    FailedBallotsAreAccounted(nodes[i].db, t, now, b);
  }

  /** A process without a root, not ready or not registered gives up: nothing is queued, and every vote is in error unless done. */
  lemma ClosedProcessGivesUp(db: Db, t: TransitionBatch, now: int)
    requires t in db.transitions && t.processID in db.info
    requires var info := db.info[t.processID]; !info.hasRoot || !info.ready || !info.registered
    ensures var o := TransitionFailed(db, t, t.processID, now);
            && o.r.Ok? && o.db.aggregated == db.aggregated && t !in o.db.transitions && t.processID !in o.db.pendingAgg
            && Marked(db.statuses, VotesOf(t.processID, t.ballots), StatusError, o.db.statuses)
  {
    hide SetStatuses, PushAggregator;
    BallotsAreMarked(db.statuses, t.processID, t.ballots, StatusError);
  }

  /** An open one tries again, with the votes that are not in the confirmed state, if there is any and an attempt left. */
  lemma OpenProcessTriesAgain(db: Db, t: TransitionBatch, now: int)
    requires t in db.transitions && t.processID in db.info && t.processID in db.pendingAgg
    requires var info := db.info[t.processID]; info.hasRoot && info.ready && info.registered && info.confirmed.Some?
    requires db.pendingAgg[t.processID].attempts < 4
    requires exists b :: b in t.ballots && b.voteID !in db.info[t.processID].confirmed.value
    ensures var after := TransitionFailed(db, t, t.processID, now).db;
            var before := db.pendingAgg[t.processID];
            exists batch :: && batch in after.aggregated && batch.attempts == before.attempts + 1 && batch.lastAttempt == Some(now)
                            && batch.processID == before.processID && batch.proof == before.proof
                            && (forall b :: b in batch.ballots <==>
                                  b in t.ballots && b.voteID !in db.info[t.processID].confirmed.value)
  {
    var p, ids := t.processID, db.info[t.processID].confirmed.value;
    var before := db.pendingAgg[p];
    FilterSplits(t.ballots, ids);
    var batch := Retried(before, Unconfirmed(t.ballots, ids), now);
    var marked := db.(pendingAgg := db.pendingAgg - {p},
                      statuses := SetStatuses(db.statuses, p, Confirmed(t.ballots, ids), StatusError));
    PushEffect(marked, batch);
    hide SetStatuses, PushAggregator, Unconfirmed, Confirmed;
    assert batch in TransitionFailed(db, t, p, now).db.aggregated;
  }

  /** What pushing a transition does depends on the counters and the statuses alone. */
  lemma PushingIsLocal(db: Db, other: Db, t: TransitionBatch)
    requires other.books == db.books && other.statuses == db.statuses
    ensures PushTransition(other, t).db ==
            other.(transitions := other.transitions + {t}, statuses := PushTransition(db, t).db.statuses,
                   books := PushTransition(db, t).db.books)
  {
    hide UpdateStats, SetStatuses;
  }

  /** A queued batch is taken, staged and turned into a transition, when none of its process is pending. */
  lemma QueuedBatchIsPushed(n: Node, batch: AggregatorBatch, t: TransitionBatch, now: int)
    returns (nodes: seq<Node>, steps: seq<Step>)
    requires batch in n.db.aggregated && batch !in n.db.reservedAggregated && Rested(batch, now)
    requires batch.processID !in n.db.pendingAgg && batch.processID !in n.staged && batch.processID !in n.db.pendingTx
    requires t.processID == batch.processID && t.ballots == batch.ballots && t.batchID == Some(batch)
    ensures Path(nodes, steps) && nodes[0] == n && NoSuccess(steps)
    ensures var m := nodes[|steps|];
            m == n.(taken := n.taken + {batch}, db :=
                    n.db.(aggregated := n.db.aggregated - {batch}, reservedAggregated := n.db.reservedAggregated - {batch},
                          pendingTx := n.db.pendingTx + {batch.processID},
                          pendingAgg := n.db.pendingAgg[batch.processID := batch], transitions := n.db.transitions + {t},
                          statuses := PushTransition(n.db, t).db.statuses, books := m.db.books))
    ensures nodes[|steps|].db.books.stats.Keys == n.db.books.stats.Keys
  {
    hide PushTransition, Rested;
    var p := batch.processID;
    var n1 := n.(db := ReserveAggregated(n.db, batch), taken := n.taken + {batch});
    var n2 := n1.(db := SetPendingTx(n1.db, p));
    var n3 := n2.(db := MarkPending(n2.db, batch).db, staged := n2.staged[p := batch]);
    var n4 := n3.(db := PushTransition(n3.db, t).db, staged := n3.staged - {p});
    var n5 := n4.(db := AggregatorDone(n4.db, batch));
    PushingIsLocal(n.db, n3.db, t);
    PushingKeepsStats(n.db, t);
    assert Next(n, Batches(Take(batch, now)), n1) && Next(n1, Admin(MarkTx(p)), n2) && Next(n2, Batches(Stage(batch)), n3);
    assert Next(n3, Batches(PushTransitionOf(t)), n4) && Next(n4, Batches(MarkAggregatedDone(batch)), n5);
    assert n5.staged == n.staged && n5.db.reservedAggregated == n.db.reservedAggregated - {batch};
    hide Next;
    nodes := [n, n1, n2, n3, n4, n5];
    steps := [Batches(Take(batch, now)), Admin(MarkTx(p)), Batches(Stage(batch)), Batches(PushTransitionOf(t)),
              Batches(MarkAggregatedDone(batch))];
  }

  /** No callback of these steps reports a success. */
  ghost predicate NoSuccess(steps: seq<Step>) {
    forall i :: 0 <= i < |steps| ==> !(steps[i].Chain? && steps[i].c.CallbackDone?)
  }

  lemma PushingKeepsStats(db: Db, t: TransitionBatch)
    ensures PushTransition(db, t).db.books.stats.Keys == db.books.stats.Keys
  {
    hide SetStatuses, ValidProcessID;
  }

  /** If the confirmed root moves to one that cannot be loaded, a failing submission loses the transition. */
  lemma UnloadableRootLosesBallots(n: Node, t: TransitionBatch, now: int) returns (nodes: seq<Node>, steps: seq<Step>)
    requires t in n.db.transitions && t !in n.db.reservedTransitions
    requires t.processID in n.db.pendingAgg
    requires n.db.pendingAgg[t.processID].attempts + 1 < MAX_STATE_TRANSITION_ATTEMPTS
    requires t.processID in n.db.info && Accepting(n.db.info[t.processID])
    ensures Path(nodes, steps) && nodes[0] == n
    ensures var db := nodes[|steps|].db;
            && t !in db.transitions && t.processID !in db.pendingAgg
            && db.aggregated == n.db.aggregated && db.statuses == n.db.statuses
  {
    hide TransitionFailed;
    var info := n.db.info[t.processID].(confirmed := None);
    var n1 := n.(db := n.db.(info := n.db.info[t.processID := info]));
    var n2 := n1.(db := ReserveTransition(n1.db, t), held := n1.held + {t});
    var n3 := n2.(db := TransitionFailed(n2.db, t, t.processID, now).db, held := n2.held - {t});
    LostBatchIsGone(n2.db, t, now);
    assert Next(n, Admin(UpdateProcess(t.processID, info)), n1) && Next(n1, Chain(TakeTransition(t)), n2);
    assert Next(n2, Chain(SubmissionFailed(t, now)), n3);
    hide Next;
    nodes := [n, n1, n2, n3];
    steps := [Admin(UpdateProcess(t.processID, info)), Chain(TakeTransition(t)), Chain(SubmissionFailed(t, now))];
  }

  /**
   The loss is within reach of every queued batch that may still be retried:
   its ballots end up in no queue, still processed unless they were done.
   */
  lemma QueuedBatchCanBeLost(n: Node, batch: AggregatorBatch, t: TransitionBatch, now: int)
    returns (nodes: seq<Node>, steps: seq<Step>)
    requires batch in n.db.aggregated && batch !in n.db.reservedAggregated && Rested(batch, now)
    requires batch.processID !in n.db.pendingAgg && batch.processID !in n.staged && t !in n.db.reservedTransitions
    requires batch.processID in n.db.info && Accepting(n.db.info[batch.processID])
    requires batch.attempts + 1 < MAX_STATE_TRANSITION_ATTEMPTS
    requires t.processID == batch.processID && t.ballots == batch.ballots && t.batchID == Some(batch)
    ensures Path(nodes, steps) && nodes[0] == n
    ensures var db := nodes[|steps|].db;
            && batch.processID !in db.pendingAgg && t !in db.transitions
            && db.aggregated == n.db.aggregated - {batch}
            && (if HasBooks(n.db.books, t.processID)
                then Marked(n.db.statuses, VotesOf(t.processID, t.ballots), StatusProcessed, db.statuses)
                else db.statuses == n.db.statuses)
  {
    PushedStatuses(n.db, t);
    hide PushTransition, Rested, Accepting, Next, HasBooks, Marked;
    nodes, steps := PendingTxIsPruned(n, batch.processID);
    PushingIsLocal(n.db, nodes[|steps|].db, t);
    var more, moreSteps := QueuedBatchIsPushed(nodes[|steps|], batch, t, now);
    nodes, steps := Joined(nodes, steps, more, moreSteps);
    more, moreSteps := UnloadableRootLosesBallots(nodes[|steps|], t, now);
    nodes, steps := Joined(nodes, steps, more, moreSteps);
  }

  lemma PushedStatuses(db: Db, t: TransitionBatch)
    ensures if HasBooks(db.books, t.processID)
            then Marked(db.statuses, VotesOf(t.processID, t.ballots), StatusProcessed, PushTransition(db, t).db.statuses)
            else PushTransition(db, t).db.statuses == db.statuses
  {
    hide SetStatuses, ValidProcessID, UpdateStats;
    if HasBooks(db.books, t.processID) {
      PushedIsProcessed(db, t);
    } else {
      UncountedStay(db.books, t.processID, [StateTransitions(1)]);
    }
  }

  lemma PendingTxIsPruned(n: Node, p: ProcessID) returns (nodes: seq<Node>, steps: seq<Step>)
    ensures Path(nodes, steps) && nodes[0] == n && nodes[|steps|] == n.(db := PrunePendingTx(n.db, p))
  {
    nodes, steps := [n, n.(db := PrunePendingTx(n.db, p))], [Admin(PruneTx(p))];
  }

  /** Successive batches of one lineage: each is what the failure of the one before queued again. */
  ghost predicate Lineage(batches: seq<AggregatorBatch>) {
    && (forall i :: 0 <= i < |batches| ==> Retriable(batches[i]))
    && (forall i {:trigger batches[i]} :: 0 < i < |batches| ==>
          batches[i].lastAttempt.Some?
          && batches[i] == Retried(batches[i - 1], batches[i].ballots, batches[i].lastAttempt.value))
  }

  /** How many more times a batch may be queued again. */
  function AttemptsLeft(batch: AggregatorBatch): int {
    MAX_STATE_TRANSITION_ATTEMPTS - batch.attempts
  }

  lemma {:induction false} AttemptsRunOut(batches: seq<AggregatorBatch>, i: nat)
    requires Lineage(batches) && i < |batches|
    ensures AttemptsLeft(batches[i]) == AttemptsLeft(batches[0]) - i
  {
    if i > 0 {
      AttemptsRunOut(batches, i - 1);
      assert batches[i] == Retried(batches[i - 1], batches[i].ballots, batches[i].lastAttempt.value);
    }
  }

  /** A lineage has at most five batches, so it fails at most five times. */
  lemma LineageIsShort(batches: seq<AggregatorBatch>)
    requires Lineage(batches)
    ensures |batches| <= 5
  {
    if |batches| > 0 {
      AttemptsRunOut(batches, |batches| - 1);
    }
  }

  /** Whatever a failure adds to the queue is the next batch of the pending one's lineage. */
  lemma FailureExtendsLineage(db: Db, t: TransitionBatch, now: int, batches: seq<AggregatorBatch>, batch: AggregatorBatch)
    requires t in db.transitions && t.processID in db.pendingAgg
    requires Lineage(batches) && |batches| > 0 && batches[|batches| - 1] == db.pendingAgg[t.processID]
    requires batch !in db.aggregated && batch in TransitionFailed(db, t, t.processID, now).db.aggregated
    ensures Lineage(batches + [batch])
    ensures AttemptsLeft(batch) == AttemptsLeft(db.pendingAgg[t.processID]) - 1
  {
    hide UpdateStats, SetStatuses, Unconfirmed, Confirmed, Accepting;
  }

  /** A second callback for a transition that is already gone still releases the pending batch of its process. */
  lemma LateCallbackReleasesPending(db: Db, t: TransitionBatch)
    requires t !in db.transitions && t.processID in db.pendingAgg
    ensures t.processID !in TransitionDone(db, t, t.processID).pendingAgg
    ensures TransitionDone(db, t, t.processID).statuses == db.statuses
    ensures TransitionDone(db, t, t.processID).transitions == db.transitions
  {
    hide Updated;
  }

  // The status every vote of a batch is left with

  /** Unless it is done, every vote of a queued batch becomes aggregated. */
  lemma PushedVotesAreAggregated(db: Db, batch: AggregatorBatch, b: AggregatorBallot)
    requires b in batch.ballots && PushAggregator(db, batch).r.Ok?
    ensures var m := PushAggregator(db, batch).db.statuses;
            VerifiedKey(batch.processID, b.voteID) in m
            && m[VerifiedKey(batch.processID, b.voteID)] in {StatusAggregated, StatusDone}
  {
    hide UpdateStats, SetStatuses;
    StatusesAreSet(db.statuses, batch.processID, batch.ballots, StatusAggregated);
  }

  lemma {:induction false} FailedPrefixIsSettled(db: Db, batch: AggregatorBatch, n: nat, i: nat)
    requires i < n <= |batch.ballots|
    ensures var after := FailAggregated(db, batch, n).0;
            Settled(after.statuses, VerifiedKey(batch.processID, batch.ballots[i].voteID))
            && batch.ballots[i].voteID !in after.voteLocks
  {
    if i < n - 1 {
      FailedPrefixIsSettled(db, batch, n - 1, i);
    }
  }

  /** Every vote of a failed aggregated batch is in error or done, and may be pushed again. */
  lemma FailedBatchIsSettled(db: Db, batch: AggregatorBatch, i: nat)
    requires batch in db.aggregated && i < |batch.ballots|
    ensures var after := AggregatorFailed(db, batch).db;
            && batch !in after.aggregated
            && Settled(after.statuses, VerifiedKey(batch.processID, batch.ballots[i].voteID))
            && batch.ballots[i].voteID !in after.voteLocks
  {
    hide Updated, Settled, FailAggregated;
    FailedPrefixIsSettled(db, batch, |batch.ballots|, i);
  }

  lemma {:induction false} ListedAreDone(m: Statuses, p: ProcessID, ids: seq<VoteID>, v: VoteID)
    requires v in ids
    ensures VerifiedKey(p, v) in StatusesDone(m, p, ids) && StatusesDone(m, p, ids)[VerifiedKey(p, v)] == StatusDone
  {
    var n := |ids| - 1;
    if v != ids[n] {
      assert ids == ids[..n] + [ids[n]];
      ListedAreDone(m, p, ids[..n], v);
    }
  }

  /** Every vote of a confirmed transition is done, and reads as settled once it is in the confirmed state. */
  lemma ConfirmedVotesAreDone(db: Db, t: TransitionBatch, i: nat)
    requires t in db.transitions && i < |t.ballots|
    ensures var after := TransitionDone(db, t, t.processID);
            var k := VerifiedKey(t.processID, t.ballots[i].voteID);
            && k in after.statuses && after.statuses[k] == StatusDone
            && (t.processID in db.info ==>
                  (StatusOf(after, k) == Ok(StatusSettled) <==>
                   db.info[t.processID].confirmed.Some? && k.voteID in db.info[t.processID].confirmed.value))
  {
    hide Updated, StatusesDone, VoteIDs;
    var ids := IDList(t.ballots);
    assert ids[i] == t.ballots[i].voteID;
    ListedAreDone(db.statuses, t.processID, ids, ids[i]);
  }
}
