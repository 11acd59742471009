/**
 The node as a state machine: the storage, and what its goroutines hold in
 memory. Every storage call is one atomic step; steps of different goroutines
 interleave freely.
 */
module Protocol {
  import opened Wrappers
  import opened Queues
  import opened Counters
  import opened Store
  import opened StorageObject

  datatype Node = Node(
    db: Db,
    pulled: set<(ProcessID, seq<VerifiedBallot>)>,  // lists handed to the aggregator, with their process
    taken: set<AggregatorBatch>,                    // batches handed to the state transition driver
    staged: map<ProcessID, AggregatorBatch>,        // marked pending, transition not yet pushed
    held: set<TransitionBatch>,                     // handed to the on-chain processor, not yet submitted
    submitted: set<TransitionBatch>)                // sent, with the callback still to run

  const INITIAL: Node := Node(EMPTY, {}, {}, map[], {}, {})

  datatype BallotStep =
    | Push(ballot: PendingBallot)
    | NextPending(voteID: VoteID)
    | RemovePendingBallot(processID: ProcessID, voteID: VoteID)
    | RemovePendingBallots(processID: ProcessID)
    | ReleasePendingBallot(voteID: VoteID)
    | MarkBallotVerified(voteID: VoteID, verified: Option<VerifiedBallot>)
    | Pull(processID: ProcessID, n: nat, ballots: seq<VerifiedBallot>, keys: seq<VerifiedKey>)
    | ReleaseVerifiedBallots(keys: seq<VerifiedKey>)
    | RemoveVerifiedBallots(processID: ProcessID)
    | MarkVerifiedDone(keys: seq<VerifiedKey>)
    | MarkVerifiedFailed(keys: seq<VerifiedKey>, order: seq<ProcessID>)

  datatype BatchStep =
    | Aggregate(batch: AggregatorBatch, source: seq<VerifiedBallot>, chosen: seq<nat>)
    | RemoveAggregated(processID: ProcessID)
    | Take(batch: AggregatorBatch, now: int)
    | MarkAggregatedFailed(batch: AggregatorBatch)
    | MarkAggregatedDone(batch: AggregatorBatch)
    | Stage(batch: AggregatorBatch)
    | PushTransitionOf(transition: TransitionBatch)

  datatype ChainStep =
    | TakeTransition(transition: TransitionBatch)
    | DropHeld(transition: TransitionBatch)
    | MarkOutdated(transition: TransitionBatch)
    | SubmissionFailed(transition: TransitionBatch, now: int)
    | Submit(transition: TransitionBatch)
    | CallbackDone(transition: TransitionBatch)
    | CallbackFailed(transition: TransitionBatch, now: int)
    | RemoveTransitions(processID: ProcessID)

  datatype AdminStep =
    | MarkTx(processID: ProcessID)
    | PruneTx(processID: ProcessID)
    | MarkVoteIDsDone(processID: ProcessID, ids: seq<VoteID>)
    | MarkTimeout(processID: ProcessID)
    | Cleanup(processID: ProcessID)
    | CleanAll(entries: seq<(ProcessID, seq<Update>)>)
    | AddProcess(processID: ProcessID, info: ProcessInfo)
    | UpdateProcess(processID: ProcessID, info: ProcessInfo)
    | Expire(stale: Stale)
    | Restart

  datatype Step = Ballots(b: BallotStep) | Batches(a: BatchStep) | Chain(c: ChainStep) | Admin(m: AdminStep)

  ghost predicate NextBallots(n: Node, s: BallotStep, n': Node) {
    match s
    case Push(b) => n' == n.(db := PushPending(n.db, b).db)
    case NextPending(v) =>
      && v in n.db.pending && v !in n.db.reservedPending && n.db.pending[v].voteID !in n.db.reservedPending
      && n' == n.(db := ReservePending(n.db, n.db.pending[v].voteID))
    case RemovePendingBallot(p, v) => n' == n.(db := RemovePending(n.db, p, v))
    case RemovePendingBallots(p) => n' == n.(db := RemovePendingByProcess(n.db, p))
    case ReleasePendingBallot(v) => n' == n.(db := ReleasePending(n.db, v))
    case MarkBallotVerified(v, vb) => n' == n.(db := MarkVerified(n.db, v, vb).db)
    case Pull(p, k, ballots, keys) =>
      && Pulled(n.db, p, k, ballots, keys)
      && n' == n.(db := ReserveVerified(n.db, set key | key in keys), pulled := n.pulled + {(p, ballots)})
    case ReleaseVerifiedBallots(keys) => n' == n.(db := ReleaseVerified(n.db, keys))
    case RemoveVerifiedBallots(p) => n' == n.(db := RemoveVerifiedByProcess(n.db, p))
    case MarkVerifiedDone(keys) => n' == n.(db := VerifiedDone(n.db, keys))
    case MarkVerifiedFailed(keys, order) => n' == n.(db := VerifiedFailed(n.db, keys, order))
  }

  /** The ballots at increasing positions of a pulled list, as they enter a batch. */
  ghost predicate TakenFrom(ballots: seq<AggregatorBallot>, source: seq<VerifiedBallot>, chosen: seq<nat>) {
    && |ballots| == |chosen|
    && (forall i, j :: 0 <= i < j < |chosen| ==> chosen[i] < chosen[j])
    && (forall i :: 0 <= i < |chosen| ==> chosen[i] < |source| && ballots[i] == AsAggregated(source[chosen[i]]))
  }

  /**
   A batch of selected ballots is new and belongs to a stored process; a
   transition carries the ballots of the batch it was staged from.
   */
  ghost predicate NextBatches(n: Node, s: BatchStep, n': Node) {
    match s
    case Aggregate(batch, source, chosen) =>
      && ValidProcessID(batch.processID) && batch.processID in n.db.info
      && (batch.processID, source) in n.pulled && TakenFrom(batch.ballots, source, chosen)
      && batch.attempts == 0 && batch.lastAttempt == None
      && n' == n.(db := PushAggregator(n.db, batch).db)
    case RemoveAggregated(p) => n' == n.(db := RemoveAggregatorByProcess(n.db, p))
    case Take(batch, now) =>
      // the driver skips a process whose last transition is still pending
      && batch.processID !in n.db.pendingTx
      && batch in n.db.aggregated && batch !in n.db.reservedAggregated && Rested(batch, now)
      && n' == n.(db := ReserveAggregated(n.db, batch), taken := n.taken + {batch})
    case MarkAggregatedFailed(batch) => n' == n.(db := AggregatorFailed(n.db, batch).db)
    case MarkAggregatedDone(batch) => n' == n.(db := AggregatorDone(n.db, batch))
    case Stage(batch) =>
      && batch in n.taken && batch.processID !in n.staged
      && (var marked := MarkPending(n.db, batch);
          n' == if marked.r.Ok? then n.(db := marked.db, staged := n.staged[batch.processID := batch]) else n)
    case PushTransitionOf(t) =>
      && t.processID in n.staged && t.ballots == n.staged[t.processID].ballots
      && t.batchID == Some(n.staged[t.processID])
      && n' == n.(db := PushTransition(n.db, t).db, staged := n.staged - {t.processID})
  }

  ghost predicate NextChain(n: Node, s: ChainStep, n': Node) {
    match s
    case TakeTransition(t) =>
      && t in n.db.transitions && t !in n.db.reservedTransitions
      && n' == n.(db := ReserveTransition(n.db, t), held := n.held + {t})
    case DropHeld(t) => t in n.held && n' == n.(held := n.held - {t})
    case MarkOutdated(t) => t in n.held && n' == n.(db := TransitionOutdated(n.db, t).db, held := n.held - {t})
    case SubmissionFailed(t, now) =>
      t in n.held && n' == n.(db := TransitionFailed(n.db, t, t.processID, now).db, held := n.held - {t})
    case Submit(t) => t in n.held && n' == n.(held := n.held - {t}, submitted := n.submitted + {t})
    case CallbackDone(t) =>
      && t in n.submitted
      && n' == n.(db := PrunePendingTx(TransitionDone(n.db, t, t.processID), t.processID), submitted := n.submitted - {t})
    case CallbackFailed(t, now) =>
      && t in n.submitted
      && n' == n.(db := PrunePendingTx(TransitionFailed(n.db, t, t.processID, now).db, t.processID),
                  submitted := n.submitted - {t})
    case RemoveTransitions(p) => n' == n.(db := RemoveTransitionsByProcess(n.db, p))
  }

  ghost predicate NextAdmin(n: Node, s: AdminStep, n': Node) {
    match s
    case MarkTx(p) => n' == n.(db := SetPendingTx(n.db, p))
    case PruneTx(p) => n' == n.(db := PrunePendingTx(n.db, p))
    case MarkVoteIDsDone(p, ids) => n' == n.(db := n.db.(statuses := StatusesDone(n.db.statuses, p, ids)))
    case MarkTimeout(p) => n' == n.(db := n.db.(statuses := TimedOut(n.db.statuses, p)))
    case Cleanup(p) => n' == n.(db := CleanupEnded(n.db, p))
    case CleanAll(entries) => n' == n.(db := CleanedAll(n.db, entries))
    case AddProcess(p, info) => n' == n.(db := NewProcess(n.db, p, info).db)
    case UpdateProcess(p, info) => p in n.db.info && n' == n.(db := n.db.(info := n.db.info[p := info]))
    case Expire(stale) => n' == n.(db := Expired(n.db, stale))
    case Restart => n' == Node(Recovered(n.db), {}, {}, map[], {}, {})
  }

  ghost predicate Next(n: Node, s: Step, n': Node) {
    match s
    case Ballots(b) => NextBallots(n, b, n')
    case Batches(a) => NextBatches(n, a, n')
    case Chain(c) => NextChain(n, c, n')
    case Admin(m) => NextAdmin(n, m, n')
  }

  /** A stretch of a run, from any node. */
  ghost predicate Path(nodes: seq<Node>, steps: seq<Step>) {
    && |nodes| == |steps| + 1
    && (forall i :: 0 <= i < |steps| ==> Next(nodes[i], steps[i], nodes[i + 1]))
  }

  /** A run from the empty node. */
  ghost predicate Run(nodes: seq<Node>, steps: seq<Step>) {
    Path(nodes, steps) && nodes[0] == INITIAL
  }

  /** Two stretches that meet are one. */
  lemma PathsJoin(nodes: seq<Node>, steps: seq<Step>, more: seq<Node>, moreSteps: seq<Step>)
    requires Path(nodes, steps) && Path(more, moreSteps) && more[0] == nodes[|steps|]
    ensures Path(nodes + more[1..], steps + moreSteps)
  {
    hide Next;
    var all, allSteps := nodes + more[1..], steps + moreSteps;
    forall i | 0 <= i < |allSteps| ensures Next(all[i], allSteps[i], all[i + 1]) {
      if i >= |steps| {
        assert Next(more[i - |steps|], moreSteps[i - |steps|], more[i - |steps| + 1]);
      }
    }
  }

  // What the ballot steps leave alone

  ghost predicate SameBatches(db: Db, db': Db) {
    && db'.aggregated == db.aggregated && db'.pendingAgg == db.pendingAgg && db'.transitions == db.transitions
    && db'.reservedAggregated == db.reservedAggregated && db'.reservedTransitions == db.reservedTransitions
    && db'.info == db.info
  }

  /** Failing verified ballots touches the verified queue, the locks and the statuses. */
  lemma {:induction false} FailAllFrame(db: Db, keys: seq<VerifiedKey>)
    ensures var after := FailAllVerified(db, keys).0;
            after == db.(verified := after.verified, reservedVerified := after.reservedVerified,
                         voteLocks := after.voteLocks, addressLocks := after.addressLocks, statuses := after.statuses)
  {
    hide SetStatus;
    if |keys| > 0 {
      FailAllFrame(db, keys[..|keys| - 1]);
    }
  }

  lemma BallotStepsKeepBatches(n: Node, s: BallotStep, n': Node)
    requires NextBallots(n, s, n')
    ensures SameBatches(n.db, n'.db) && n'.taken == n.taken && n'.staged == n.staged
    ensures n'.held == n.held && n'.submitted == n.submitted
    ensures n'.pulled == if s.Pull? then n.pulled + {(s.processID, s.ballots)} else n.pulled
  {
    hide Updated, UpdateStats, SetStatus, FailAllVerified, FailBooks, Pulled, PendingOf, VerifiedOf, Discounted;
    if s.MarkVerifiedFailed? {
      FailAllFrame(n.db, s.keys);
    }
  }

  // Sound batches: one ballot per address, and a well-defined backoff

  /** Attempts never reach the limit, and a batch that failed has a positive number of them. */
  ghost predicate Retriable(batch: AggregatorBatch) {
    0 <= batch.attempts < MAX_STATE_TRANSITION_ATTEMPTS && (batch.lastAttempt.Some? ==> batch.attempts >= 1)
  }

  ghost predicate SoundBatch(batch: AggregatorBatch) {
    DistinctAddresses(batch.ballots) && Retriable(batch)
  }

  ghost predicate DistinctPulled(ballots: seq<VerifiedBallot>) {
    forall i, j :: 0 <= i < j < |ballots| ==> ballots[i].address != ballots[j].address
  }

  ghost predicate SoundQueues(db: Db) {
    && (forall b :: b in db.aggregated ==> SoundBatch(b))
    && (forall p :: p in db.pendingAgg ==> SoundBatch(db.pendingAgg[p]))
    && (forall t :: t in db.transitions ==> DistinctAddresses(t.ballots))
  }

  ghost predicate SoundNode(n: Node) {
    && SoundQueues(n.db)
    && (forall l :: l in n.pulled ==> DistinctPulled(l.1))
    && (forall b :: b in n.taken ==> SoundBatch(b))
    && (forall p :: p in n.staged ==> SoundBatch(n.staged[p]))
    && (forall t :: t in n.held + n.submitted ==> DistinctAddresses(t.ballots))
  }

  lemma SelectionIsDistinct(ballots: seq<AggregatorBallot>, source: seq<VerifiedBallot>, chosen: seq<nat>)
    requires TakenFrom(ballots, source, chosen) && DistinctPulled(source)
    ensures DistinctAddresses(ballots)
  {
    forall i, j | 0 <= i < j < |ballots| ensures ballots[i].address != ballots[j].address {
      assert chosen[i] < chosen[j];
    }
  }

  /** What stays after dropping confirmed votes is a sub-list, so it is still distinct. */
  lemma {:induction false} UnconfirmedIsDistinct(ballots: seq<AggregatorBallot>, ids: set<VoteID>)
    requires DistinctAddresses(ballots)
    ensures DistinctAddresses(Unconfirmed(ballots, ids))
    ensures forall b :: b in Unconfirmed(ballots, ids) ==> b in ballots
  {
    if |ballots| > 0 {
      var n := |ballots| - 1;
      UnconfirmedIsDistinct(ballots[..n], ids);
      var before := Unconfirmed(ballots[..n], ids);
      forall i | 0 <= i < |before| ensures before[i].address != ballots[n].address {
        assert before[i] in ballots[..n];
      }
    }
  }

  /** Queueing a batch touches the queue, the counters and the statuses only. */
  lemma PushEffect(db: Db, batch: AggregatorBatch)
    ensures var after := PushAggregator(db, batch).db;
            after == db.(aggregated := db.aggregated + {batch}, books := after.books, statuses := after.statuses)
  {
    hide UpdateStats, SetStatuses;
  }

  /** A retry touches the aggregated queue, the counters and the statuses. */
  lemma RetryFrame(db: Db, t: TransitionBatch, p: ProcessID, batch: AggregatorBatch, now: int)
    ensures var after := Retry(db, t, p, batch, now).db;
            after == db.(aggregated := after.aggregated, books := after.books, statuses := after.statuses)
  {
    hide PushAggregator, SetStatuses, Unconfirmed, Confirmed, Accepting;
    if t.processID in db.info && db.info[t.processID].confirmed.Some? {
      var ids := db.info[t.processID].confirmed.value;
      PushEffect(db.(statuses := SetStatuses(db.statuses, t.processID, Confirmed(t.ballots, ids), StatusError)),
                 Retried(batch, Unconfirmed(t.ballots, ids), now));
    }
  }

  /** A failed transition leaves its queue, and its pending batch is released, whatever comes of it. */
  lemma FailureFrame(db: Db, t: TransitionBatch, p: ProcessID, now: int)
    ensures var after := TransitionFailed(db, t, p, now).db;
            if t in db.transitions then
              after == db.(aggregated := after.aggregated, books := after.books, statuses := after.statuses,
                           pendingAgg := db.pendingAgg - {p}, pendingTx := db.pendingTx - {p},
                           transitions := db.transitions - {t}, reservedTransitions := db.reservedTransitions - {t})
            else after == db
  {
    hide Retry, SetStatuses;
    if t in db.transitions {
      if p in db.pendingAgg {
        RetryFrame(db.(pendingAgg := db.pendingAgg - {p}), t, p, db.pendingAgg[p], now);
      } else {
        assert db.pendingAgg - {p} == db.pendingAgg;
      }
    }
  }

  lemma RetryIsSound(db: Db, t: TransitionBatch, p: ProcessID, batch: AggregatorBatch, now: int)
    requires SoundQueues(db) && DistinctAddresses(t.ballots) && SoundBatch(batch)
    ensures SoundQueues(Retry(db, t, p, batch, now).db)
  {
    hide PushAggregator, SetStatuses, Unconfirmed, Confirmed, Accepting, DistinctAddresses;
    if t.processID in db.info && db.info[t.processID].confirmed.Some? {
      var ids := db.info[t.processID].confirmed.value;
      UnconfirmedIsDistinct(t.ballots, ids);
      PushEffect(db.(statuses := SetStatuses(db.statuses, t.processID, Confirmed(t.ballots, ids), StatusError)),
                 Retried(batch, Unconfirmed(t.ballots, ids), now));
    }
  }

  lemma FailureIsSound(db: Db, t: TransitionBatch, p: ProcessID, now: int)
    requires SoundQueues(db)
    ensures SoundQueues(TransitionFailed(db, t, p, now).db)
  {
    hide Retry, SetStatuses, DistinctAddresses, SoundBatch;
    if t in db.transitions && p in db.pendingAgg {
      RetryIsSound(db.(pendingAgg := db.pendingAgg - {p}), t, p, db.pendingAgg[p], now);
    }
  }

  /** Failing the ballots of a batch touches the statuses and the vote locks. */
  lemma {:induction false} FailAggregatedFrame(db: Db, batch: AggregatorBatch, n: nat)
    requires n <= |batch.ballots|
    ensures var after := FailAggregated(db, batch, n).0;
            after == db.(statuses := after.statuses, voteLocks := after.voteLocks)
  {
    hide SetStatus, StatusOf;
    if n > 0 {
      FailAggregatedFrame(db, batch, n - 1);
    }
  }

  lemma BatchStepIsSound(n: Node, s: BatchStep, n': Node)
    requires SoundNode(n) && NextBatches(n, s, n')
    ensures SoundNode(n')
  {
    hide UpdateStats, SetStatuses, Updated, DistinctAddresses, DistinctPulled, TakenFrom, Rested;
    match s
    case Aggregate(batch, source, chosen) =>
      SelectionIsDistinct(batch.ballots, source, chosen);
    case MarkAggregatedFailed(batch) =>
      FailAggregatedFrame(n.db, batch, |batch.ballots|);
    case _ =>
  }

  lemma OutdatedIsSound(db: Db, t: TransitionBatch)
    requires SoundQueues(db)
    ensures SoundQueues(TransitionOutdated(db, t).db)
  {
    OutdatedFrame(db, t);
    hide TransitionOutdated, DistinctAddresses, SoundBatch;
  }

  /** An outdated transition leaves its queue; its pending batch, if any, goes back to the aggregated ones. */
  lemma OutdatedFrame(db: Db, t: TransitionBatch)
    ensures var after := TransitionOutdated(db, t).db;
            var back := t in db.transitions && ValidProcessID(t.processID) && t.processID in db.pendingAgg;
            && after == db.(aggregated := after.aggregated, reservedAggregated := after.reservedAggregated,
                            pendingAgg := after.pendingAgg, pendingTx := after.pendingTx,
                            transitions := db.transitions - {t}, reservedTransitions := db.reservedTransitions - {t},
                            books := after.books, statuses := after.statuses)
            && after.pendingAgg == (if back then db.pendingAgg - {t.processID} else db.pendingAgg)
            && after.aggregated == (if back then db.aggregated + {db.pendingAgg[t.processID]} else db.aggregated)
  {
    hide PushAggregator, ValidProcessID;
    if t !in db.transitions {
      assert db.transitions - {t} == db.transitions;
    } else if ValidProcessID(t.processID) && t.processID in db.pendingAgg {
      PushEffect(WithoutTransitions(db, {t}).(pendingTx := db.pendingTx - {t.processID},
                                              pendingAgg := db.pendingAgg - {t.processID}),
                 db.pendingAgg[t.processID]);
    }
  }

  lemma DoneIsSound(db: Db, t: TransitionBatch, p: ProcessID)
    requires SoundQueues(db)
    ensures SoundQueues(TransitionDone(db, t, p))
  {
    hide Updated, DistinctAddresses, SoundBatch, StatusesDone, VoteIDs;
  }

  /** What a batch step may touch. */
  lemma BatchStepFrame(n: Node, s: BatchStep, n': Node)
    requires NextBatches(n, s, n')
    ensures n'.db == n.db.(aggregated := n'.db.aggregated, reservedAggregated := n'.db.reservedAggregated,
                           pendingAgg := n'.db.pendingAgg, transitions := n'.db.transitions,
                           voteLocks := n'.db.voteLocks, statuses := n'.db.statuses, books := n'.db.books)
  {
    hide UpdateStats, SetStatuses, Updated, TakenFrom, Rested, FailAggregated;
    if s.MarkAggregatedFailed? {
      FailAggregatedFrame(n.db, s.batch, |s.batch.ballots|);
    }
  }

  /** What a chain step may touch. */
  lemma ChainStepFrame(n: Node, s: ChainStep, n': Node)
    requires NextChain(n, s, n')
    ensures n'.db == n.db.(aggregated := n'.db.aggregated, reservedAggregated := n'.db.reservedAggregated,
                           pendingAgg := n'.db.pendingAgg, pendingTx := n'.db.pendingTx,
                           transitions := n'.db.transitions, reservedTransitions := n'.db.reservedTransitions,
                           voteLocks := n'.db.voteLocks, statuses := n'.db.statuses, books := n'.db.books)
  {
    hide TransitionFailed, TransitionOutdated, StatusesDone, Updated, VoteIDs;
    match s
    case MarkOutdated(t) => OutdatedFrame(n.db, t);
    case SubmissionFailed(t, now) => FailureFrame(n.db, t, t.processID, now);
    case CallbackFailed(t, now) => FailureFrame(n.db, t, t.processID, now);
    case _ =>
  }

  lemma ChainStepIsSound(n: Node, s: ChainStep, n': Node)
    requires SoundNode(n) && NextChain(n, s, n')
    ensures SoundNode(n')
  {
    hide DistinctAddresses, DistinctPulled, SoundBatch, TransitionFailed, TransitionDone, TransitionOutdated;
    match s
    case MarkOutdated(t) =>
      OutdatedIsSound(n.db, t);
    case SubmissionFailed(t, now) =>
      FailureIsSound(n.db, t, t.processID, now);
    case CallbackDone(t) =>
      DoneIsSound(n.db, t, t.processID);
    case CallbackFailed(t, now) =>
      FailureIsSound(n.db, t, t.processID, now);
    case _ =>
  }

  /** Administrative steps only ever shrink the queues of batches. */
  ghost predicate FewerBatches(db: Db, db': Db) {
    && db'.aggregated <= db.aggregated && db'.pendingAgg == db.pendingAgg && db'.transitions <= db.transitions
  }

  lemma AdminStepShrinks(n: Node, s: AdminStep, n': Node)
    requires NextAdmin(n, s, n')
    ensures FewerBatches(n.db, n'.db)
    ensures !s.Restart? ==> n' == n.(db := n'.db)
    ensures s.Restart? ==> n' == Node(n'.db, {}, {}, map[], {}, {})
  {
    hide Posted, FailKeys, TimedOut, StatusesDone, WithoutPending, WithoutVerified, PendingOf, VerifiedOf,
         LocksOfVerified, LocksOfAggregated, VotesOfVerified, VotesOfAggregated, VotesOfTransitions,
         VerifiedStatusKeys, AggregatedStatusKeys, TransitionStatusKeys;
    if s.Cleanup? {
      CleanupShrinks(n.db, s.processID);
    }
  }

  lemma CleanupShrinks(db: Db, p: ProcessID)
    ensures FewerBatches(db, CleanupEnded(db, p))
    ensures forall t :: t in CleanupEnded(db, p).transitions ==> (t in db.reservedTransitions <==> t in CleanupEnded(db, p).reservedTransitions)
  {
    hide TimedOut, PendingOf, VerifiedOf;
  }

  lemma StepIsSound(n: Node, s: Step, n': Node)
    requires SoundNode(n) && Next(n, s, n')
    ensures SoundNode(n')
  {
    hide NextBallots, NextBatches, NextChain, NextAdmin, SoundBatch, DistinctAddresses, DistinctPulled;
    match s
    case Ballots(b) =>
      BallotStepsKeepBatches(n, b, n');
      if b.Pull? {
        PulledIsDistinct(n, b, n');
      }
    case Batches(a) =>
      BatchStepIsSound(n, a, n');
    case Chain(c) =>
      ChainStepIsSound(n, c, n');
    case Admin(m) =>
      AdminStepShrinks(n, m, n');
  }

  lemma PulledIsDistinct(n: Node, s: BallotStep, n': Node)
    requires NextBallots(n, s, n') && s.Pull?
    ensures DistinctPulled(s.ballots)
  {
  }
}
