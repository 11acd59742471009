/**
 A run from the empty node to two transitions of one process: an ageing
 reservation hands a submitted transition out again, the first submission times
 out and its batch is queued again, and the second submission succeeds late.
 */
module Reachability {
  import opened Wrappers
  import opened Queues
  import opened Counters
  import opened Store
  import opened StorageObject
  import opened Protocol
  import opened Flight
  import opened Failures

  /** No ballot is queued or locked, and the process is stored. */
  ghost predicate Idle(db: Db, p: ProcessID) {
    && db.pending == map[] && db.verified == map[] && db.reservedVerified == {} && db.reservedPending == {}
    && db.voteLocks == {} && db.addressLocks == {}
    && ValidProcessID(p) && p in db.info && p in db.books.stats
  }

  function BatchOf(p: ProcessID, vb: VerifiedBallot): AggregatorBatch {
    AggregatorBatch(p, 0, [AsAggregated(vb)], 0, None)
  }

  function TransitionOf(batch: AggregatorBatch): TransitionBatch {
    TransitionBatch(batch.processID, 0, batch.ballots, 0, None, Some(batch))
  }

  lemma ProcessIsAdded(p: ProcessID, info: ProcessInfo) returns (nodes: seq<Node>, steps: seq<Step>)
    requires ValidProcessID(p)
    ensures Path(nodes, steps) && nodes[0] == INITIAL && NoSuccess(steps)
    ensures var m := nodes[|steps|];
            Idle(m.db, p) && m == INITIAL.(db := EMPTY.(info := map[p := info], books := m.db.books))
  {
    hide ValidProcessID;
    nodes, steps := [INITIAL, INITIAL.(db := NewProcess(EMPTY, p, info).db)], [Admin(AddProcess(p, info))];
  }

  lemma StatsStay(b: Books, p: ProcessID, us: seq<Update>)
    ensures Updated(b, p, us).stats.Keys == b.stats.Keys
    ensures UpdateStats(b, p, us).Ok? ==> UpdateStats(b, p, us).value.stats.Keys == b.stats.Keys
    ensures us != [] && ValidProcessID(p) && p in b.stats ==> UpdateStats(b, p, us).Ok?
  {
    hide ValidProcessID, CountedAll, TotalledAll;
  }

  /** A pushed ballot is marked verified: it alone is queued, with its locks. */
  lemma BallotIsVerified(n: Node, p: ProcessID, vb: VerifiedBallot) returns (nodes: seq<Node>, steps: seq<Step>)
    requires Idle(n.db, p) && vb.processID == p
    ensures Path(nodes, steps) && nodes[0] == n && NoSuccess(steps)
    ensures var db, k := nodes[|steps|].db, VerifiedKey(p, vb.voteID);
            && nodes[|steps|] == n.(db :=
                 n.db.(verified := map[k := vb], voteLocks := {vb.voteID}, addressLocks := {(p, vb.address)},
                       books := db.books, statuses := db.statuses))
            && db.books.stats.Keys == n.db.books.stats.Keys
  {
    var v := vb.voteID;
    var b := PendingBallot(p, v, vb.address);
    var n1 := n.(db := PushPending(n.db, b).db);
    var n2 := n1.(db := MarkVerified(n1.db, v, Some(vb)).db);
    hide ValidProcessID, Updated, UpdateStats, SetStatus;
    StatsStay(n.db.books, p, [PendingVotes(1)]);
    StatsStay(n1.db.books, p, [VerifiedVotes(1), CurrentBatchSize(1)] + [PendingVotes(-1)]);
    assert PushPending(n.db, b).r.Ok? && v in n1.db.pending && n1.db.pending[v].processID == p;
    assert n2.db.pending == map[] && n2.db.verified == map[VerifiedKey(p, v) := vb];
    nodes, steps := [n, n1, n2], [Ballots(Push(b)), Ballots(MarkBallotVerified(v, Some(vb)))];
  }

  /** The verified ballot is pulled and becomes a queued batch; then its locks are released. */
  lemma BallotIsAggregated(n: Node, p: ProcessID, vb: VerifiedBallot) returns (nodes: seq<Node>, steps: seq<Step>)
    requires n.db.verified == map[VerifiedKey(p, vb.voteID) := vb] && n.db.reservedVerified == {}
    requires n.db.voteLocks == {vb.voteID} && n.db.addressLocks == {LockOf(vb)}
    requires ValidProcessID(p) && p in n.db.info && p in n.db.books.stats && vb.processID == p
    ensures Path(nodes, steps) && nodes[0] == n && NoSuccess(steps)
    ensures var db := nodes[|steps|].db;
            && nodes[|steps|] == n.(pulled := n.pulled + {(p, [vb])}, db :=
                 n.db.(verified := map[], voteLocks := {}, addressLocks := {},
                       aggregated := n.db.aggregated + {BatchOf(p, vb)}, books := db.books, statuses := db.statuses))
            && db.books.stats.Keys == n.db.books.stats.Keys
  {
    var k, batch := VerifiedKey(p, vb.voteID), BatchOf(p, vb);
    var keys := [k];
    var n1 := n.(db := ReserveVerified(n.db, {k}), pulled := n.pulled + {(p, [vb])});
    var n2 := n1.(db := PushAggregator(n1.db, batch).db);
    var n3 := n2.(db := VerifiedDone(n2.db, keys));
    hide ValidProcessID, PushAggregator;
    OneIsPulled(n, p, vb, n1);
    assert TakenFrom(batch.ballots, [vb], [0]);
    assert Next(n1, Batches(Aggregate(batch, [vb], [0])), n2) && Next(n2, Ballots(MarkVerifiedDone(keys)), n3);
    OneIsDone(n1, batch, k);
    hide Next, VerifiedDone;
    nodes := [n, n1, n2, n3];
    steps := [Ballots(Pull(p, 1, [vb], keys)), Batches(Aggregate(batch, [vb], [0])), Ballots(MarkVerifiedDone(keys))];
  }

  lemma OneIsPulled(n: Node, p: ProcessID, vb: VerifiedBallot, n': Node)
    requires n.db.verified == map[VerifiedKey(p, vb.voteID) := vb] && n.db.reservedVerified == {}
    requires n' == n.(db := ReserveVerified(n.db, {VerifiedKey(p, vb.voteID)}), pulled := n.pulled + {(p, [vb])})
    ensures Next(n, Ballots(Pull(p, 1, [vb], [VerifiedKey(p, vb.voteID)])), n')
  {
    var keys := [VerifiedKey(p, vb.voteID)];
    assert (set key | key in keys) == {VerifiedKey(p, vb.voteID)};
    assert [vb][0].address == vb.address;
    assert Pulled(n.db, p, 1, [vb], keys);
  }

  lemma OneIsDone(n: Node, batch: AggregatorBatch, k: VerifiedKey)
    requires n.db.verified.Keys == {k} && n.db.reservedVerified == {k}
    requires n.db.voteLocks == {n.db.verified[k].voteID} && n.db.addressLocks == {LockOf(n.db.verified[k])}
    ensures var after := VerifiedDone(PushAggregator(n.db, batch).db, [k]);
            && after == n.db.(verified := map[], reservedVerified := {}, voteLocks := {}, addressLocks := {},
                              aggregated := n.db.aggregated + {batch}, books := after.books, statuses := after.statuses)
            && after.books.stats.Keys == n.db.books.stats.Keys
  {
    PushEffect(n.db, batch);
    QueueingKeepsStats(n.db, batch);
    hide PushAggregator;
    var pushed := PushAggregator(n.db, batch).db;
    assert (set key | key in [k]) == {k};
    assert pushed.verified - {k} == map[];
    assert (set key | key in {k} && key in pushed.verified :: pushed.verified[key].voteID) == n.db.voteLocks;
    assert (set key | key in {k} && key in pushed.verified :: LockOf(pushed.verified[key])) == n.db.addressLocks;
  }

  lemma VoteIsQueued(n: Node, p: ProcessID, vb: VerifiedBallot) returns (nodes: seq<Node>, steps: seq<Step>)
    requires Idle(n.db, p) && vb.processID == p
    ensures Path(nodes, steps) && nodes[0] == n && NoSuccess(steps) && Idle(nodes[|steps|].db, p)
    ensures var m := nodes[|steps|];
            m == n.(pulled := m.pulled, db :=
                 n.db.(aggregated := n.db.aggregated + {BatchOf(p, vb)}, books := m.db.books, statuses := m.db.statuses))
  {
    hide Next, ValidProcessID;
    nodes, steps := BallotIsVerified(n, p, vb);
    var more, moreSteps := BallotIsAggregated(nodes[|steps|], p, vb);
    nodes, steps := Joined(nodes, steps, more, moreSteps);
  }

  /** A queued transition is taken and submitted. */
  lemma TransitionIsSubmitted(n: Node, t: TransitionBatch) returns (nodes: seq<Node>, steps: seq<Step>)
    requires t in n.db.transitions && t !in n.db.reservedTransitions && t !in n.held
    ensures Path(nodes, steps) && nodes[0] == n && NoSuccess(steps)
    ensures nodes[|steps|] == n.(submitted := n.submitted + {t},
                                 db := n.db.(reservedTransitions := n.db.reservedTransitions + {t}))
  {
    var n1 := n.(db := ReserveTransition(n.db, t), held := n.held + {t});
    var n2 := n1.(held := n1.held - {t}, submitted := n1.submitted + {t});
    nodes, steps := [n, n1, n2], [Chain(TakeTransition(t)), Chain(Submit(t))];
  }

  /** Its reservation ages out and it is taken again; then the first submission fails and its batch is queued again. */
  lemma AgedSubmissionFails(n: Node, t: TransitionBatch, now: int) returns (nodes: seq<Node>, steps: seq<Step>)
    requires t in n.db.transitions && t in n.submitted && t.processID in n.db.pendingAgg && t.ballots != []
    requires n.db.pendingAgg[t.processID].attempts + 1 < MAX_STATE_TRANSITION_ATTEMPTS
    requires n.db.pendingAgg[t.processID].processID == t.processID
    requires t.processID in n.db.info && Accepting(n.db.info[t.processID])
    requires n.db.info[t.processID].confirmed == Some({})
    ensures Path(nodes, steps) && nodes[0] == n && NoSuccess(steps) && Chain(CallbackFailed(t, now)) in steps
    ensures var m, p := nodes[|steps|], t.processID;
            && m == n.(held := n.held + {t}, submitted := n.submitted - {t}, db :=
                 n.db.(aggregated := n.db.aggregated + {Retried(n.db.pendingAgg[p], t.ballots, now)},
                       pendingAgg := n.db.pendingAgg - {p}, pendingTx := n.db.pendingTx - {p},
                       transitions := n.db.transitions - {t}, reservedTransitions := n.db.reservedTransitions - {t},
                       books := m.db.books, statuses := m.db.statuses))
            && m.db.books.stats.Keys == n.db.books.stats.Keys
  {
    hide SetStatuses, ValidProcessID, Accepting;
    var stale := Stale({}, {}, {}, {t});
    var n1 := n.(db := Expired(n.db, stale));
    var n2 := n1.(db := ReserveTransition(n1.db, t), held := n1.held + {t});
    var n3 := n2.(db := Store.PrunePendingTx(TransitionFailed(n2.db, t, t.processID, now).db, t.processID),
                  submitted := n2.submitted - {t});
    FailedTransitionIsRetried(n2.db, t, now);
    assert Next(n, Admin(Expire(stale)), n1) && Next(n1, Chain(TakeTransition(t)), n2) && Next(n2, Chain(CallbackFailed(t, now)), n3);
    hide Next, TransitionFailed;
    nodes := [n, n1, n2, n3];
    steps := [Admin(Expire(stale)), Chain(TakeTransition(t)), Chain(CallbackFailed(t, now))];
  }

  lemma FailedTransitionIsRetried(db: Db, t: TransitionBatch, now: int)
    requires t in db.transitions && t.processID in db.pendingAgg && t.ballots != []
    requires db.pendingAgg[t.processID].attempts + 1 < MAX_STATE_TRANSITION_ATTEMPTS
    requires t.processID in db.info && Accepting(db.info[t.processID]) && db.info[t.processID].confirmed == Some({})
    ensures var p := t.processID;
            var after := TransitionFailed(db, t, p, now).db;
            && after == db.(aggregated := db.aggregated + {Retried(db.pendingAgg[p], t.ballots, now)},
                            pendingAgg := db.pendingAgg - {p}, pendingTx := db.pendingTx - {p},
                            transitions := db.transitions - {t}, reservedTransitions := db.reservedTransitions - {t},
                            books := after.books, statuses := after.statuses)
            && after.books.stats.Keys == db.books.stats.Keys
  {
    var p, batch := t.processID, db.pendingAgg[t.processID];
    var marked := db.(pendingAgg := db.pendingAgg - {p},
                      statuses := SetStatuses(db.statuses, p, Confirmed(t.ballots, {}), StatusError));
    NoneIsConfirmed(t.ballots);
    PushEffect(marked, Retried(batch, t.ballots, now));
    QueueingKeepsStats(marked, Retried(batch, t.ballots, now));
    hide SetStatuses, Unconfirmed, Confirmed, Accepting, PushAggregator;
  }

  lemma QueueingKeepsStats(db: Db, batch: AggregatorBatch)
    ensures PushAggregator(db, batch).db.books.stats.Keys == db.books.stats.Keys
  {
    hide SetStatuses, ValidProcessID;
  }

  lemma {:induction false} NoneIsConfirmed(ballots: seq<AggregatorBallot>)
    ensures Unconfirmed(ballots, {}) == ballots
  {
    if |ballots| > 0 {
      NoneIsConfirmed(ballots[..|ballots| - 1]);
    }
  }

  /** Two votes are queued, the first is submitted, handed out again, and fails: its batch is back in the queue. */
  lemma FirstSubmissionFails(p: ProcessID, info: ProcessInfo, b1: VerifiedBallot, b2: VerifiedBallot, now: int)
    returns (nodes: seq<Node>, steps: seq<Step>)
    requires ValidProcessID(p) && Accepting(info) && info.confirmed == Some({})
    requires b1.processID == b2.processID == p && b1.voteID != b2.voteID
    ensures Run(nodes, steps) && NoSuccess(steps) && Chain(CallbackFailed(TransitionOf(BatchOf(p, b1)), now)) in steps
    ensures var m, first := nodes[|steps|], BatchOf(p, b1);
            && m.db.aggregated == {BatchOf(p, b2), Retried(first, first.ballots, now)} && m.db.reservedAggregated == {}
            && m.db.pendingAgg == map[] && m.db.pendingTx == {} && m.staged == map[]
            && m.db.transitions == {} && m.held == {TransitionOf(first)}
  {
    hide Next, ValidProcessID, Accepting;
    var first, second := BatchOf(p, b1), BatchOf(p, b2);
    var t := TransitionOf(first);
    nodes, steps := ProcessIsAdded(p, info);
    var more, moreSteps := VoteIsQueued(nodes[|steps|], p, b1);
    nodes, steps := Joined(nodes, steps, more, moreSteps);
    more, moreSteps := VoteIsQueued(nodes[|steps|], p, b2);
    nodes, steps := Joined(nodes, steps, more, moreSteps);
    assert first != second by {
      assert first.ballots[0] != second.ballots[0];
    }
    more, moreSteps := QueuedBatchIsPushed(nodes[|steps|], first, t, 0);
    nodes, steps := Joined(nodes, steps, more, moreSteps);
    more, moreSteps := TransitionIsSubmitted(nodes[|steps|], t);
    nodes, steps := Joined(nodes, steps, more, moreSteps);
    more, moreSteps := AgedSubmissionFails(nodes[|steps|], t, now);
    nodes, steps := Joined(nodes, steps, more, moreSteps);
  }

  /**
   The guard on ageing is needed: a run from the empty node, in which only one
   callback reports a success, reaches a transition without its pending copy, and
   from there two transitions of one process.
   */
  lemma AgeingLeadsToTwoTransitions(p: ProcessID, info: ProcessInfo, b1: VerifiedBallot, b2: VerifiedBallot, now: int)
    returns (nodes: seq<Node>, steps: seq<Step>, k: nat)
    requires ValidProcessID(p) && Accepting(info) && info.confirmed == Some({})
    requires b1.processID == b2.processID == p && b1.voteID != b2.voteID
    ensures Run(nodes, steps) && k < |steps|
    ensures var first := BatchOf(p, b1);
            var t, t1, t2 := TransitionOf(first), TransitionOf(Retried(first, first.ballots, now)), TransitionOf(BatchOf(p, b2));
            && Chain(CallbackFailed(t, now)) in steps[..k] && steps[k] == Chain(CallbackDone(t))
            && NoSuccess(steps[..k]) && NoSuccess(steps[k + 1..])
            && t1 in nodes[k + 1].db.transitions && p !in nodes[k + 1].db.pendingAgg
            && t1 != t2 && t1.processID == t2.processID == p
            && t1 in nodes[|steps|].db.transitions && t2 in nodes[|steps|].db.transitions
  {
    hide Next, ValidProcessID, Accepting;
    var t2 := TransitionOf(BatchOf(p, b2));
    nodes, steps := LateSuccessOrphansTheRetry(p, info, b1, b2, now);
    k := |steps| - 1;
    ghost var reached, done := nodes[k + 1], steps;
    var more, moreSteps := QueuedBatchIsPushed(nodes[|steps|], BatchOf(p, b2), t2, 0);
    nodes, steps := Joined(nodes, steps, more, moreSteps);
    assert nodes[k + 1] == reached && steps[..k] == done[..k] && steps[k + 1..] == moreSteps;
  }

  /** The retry becomes a transition, and the late success of the first one releases its pending batch. */
  lemma LateSuccessOrphansTheRetry(p: ProcessID, info: ProcessInfo, b1: VerifiedBallot, b2: VerifiedBallot, now: int)
    returns (nodes: seq<Node>, steps: seq<Step>)
    requires ValidProcessID(p) && Accepting(info) && info.confirmed == Some({})
    requires b1.processID == b2.processID == p && b1.voteID != b2.voteID
    ensures Run(nodes, steps) && |steps| > 0
    ensures var m, first, n := nodes[|steps|], BatchOf(p, b1), |steps| - 1;
            && Chain(CallbackFailed(TransitionOf(first), now)) in steps[..n]
            && steps[n] == Chain(CallbackDone(TransitionOf(first))) && NoSuccess(steps[..n])
            && m.db.transitions == {TransitionOf(Retried(first, first.ballots, now))}
            && m.db.pendingAgg == map[] && m.db.pendingTx == {} && m.staged == map[]
            && m.db.aggregated == {BatchOf(p, b2)} && m.db.reservedAggregated == {}
  {
    hide Next, ValidProcessID, Accepting;
    var first, second := BatchOf(p, b1), BatchOf(p, b2);
    var again := Retried(first, first.ballots, now);
    var t, t1 := TransitionOf(first), TransitionOf(again);
    nodes, steps := FirstSubmissionFails(p, info, b1, b2, now);
    assert again != second && t != t1;
    var more, moreSteps := QueuedBatchIsPushed(nodes[|steps|], again, t1, now + Cooldown(1));
    nodes, steps := Joined(nodes, steps, more, moreSteps);
    assert t in nodes[|steps|].held && t !in nodes[|steps|].db.transitions;
    ghost var before := steps;
    more, moreSteps := SecondCallbackReleasesPending(nodes[|steps|], t);
    nodes, steps := Joined(nodes, steps, more, moreSteps);
    assert steps[..|steps| - 1] == before + [Chain(Submit(t))];
  }
}
