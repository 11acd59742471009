/** One state transition in flight per process, in every reachable state. */
module Flight {
  import opened Wrappers
  import opened Queues
  import opened Counters
  import opened Store
  import opened StorageObject
  import opened Protocol

  /** Everything that may still settle or fail a transition. */
  ghost function InFlight(n: Node): set<TransitionBatch> {
    n.db.transitions + n.held + n.submitted
  }

  ghost predicate OnePerProcess(n: Node) {
    forall t, u :: t in InFlight(n) && u in InFlight(n) && t.processID == u.processID ==> t == u
  }

  /** While a transition is in flight its batch is pending, with the same ballots, and nothing else is staged. */
  ghost predicate CopyIsPending(n: Node) {
    forall t :: t in InFlight(n) ==>
      && t.processID !in n.staged
      && t.processID in n.db.pendingAgg && n.db.pendingAgg[t.processID].ballots == t.ballots
  }

  ghost predicate StagedIsPending(n: Node) {
    forall p :: p in n.staged ==> p in n.db.pendingAgg && n.db.pendingAgg[p] == n.staged[p]
  }

  /** What is held or submitted cannot be handed out again. */
  ghost predicate HandedOutOnce(n: Node) {
    && n.held !! n.submitted
    && (forall t :: t in n.held + n.submitted && t in n.db.transitions ==> t in n.db.reservedTransitions)
  }

  ghost predicate PendingUnderOwnProcess(db: Db) {
    forall p :: p in db.pendingAgg ==> db.pendingAgg[p].processID == p
  }

  ghost predicate FlightInvariant(n: Node) {
    OnePerProcess(n) && CopyIsPending(n) && StagedIsPending(n) && HandedOutOnce(n) && PendingUnderOwnProcess(n.db)
  }

  /** The queue loses t, and the pending batch of its process may be released. */
  ghost predicate Dropped(db: Db, t: TransitionBatch, db': Db) {
    && db'.transitions == db.transitions - {t}
    && db'.reservedTransitions == db.reservedTransitions - {t}
    && (db'.pendingAgg == db.pendingAgg || db'.pendingAgg == db.pendingAgg - {t.processID})
  }

  /** Nothing about transitions changes. */
  ghost predicate Untouched(db: Db, db': Db) {
    db'.transitions == db.transitions && db'.reservedTransitions == db.reservedTransitions && db'.pendingAgg == db.pendingAgg
  }

  /** Taking t out of flight keeps the invariant, wherever it was. */
  lemma LandingKeepsFlight(n: Node, t: TransitionBatch, n': Node)
    requires FlightInvariant(n) && t in InFlight(n)
    requires n'.held == n.held - {t} && n'.submitted == n.submitted - {t} && n'.staged == n.staged
    requires Dropped(n.db, t, n'.db)
    ensures FlightInvariant(n')
  {
    assert InFlight(n') == InFlight(n) - {t};
  }

  /** Letting go of t without touching the queue keeps the invariant. */
  lemma ReleasingKeepsFlight(n: Node, t: TransitionBatch, n': Node)
    requires FlightInvariant(n)
    requires n'.held == n.held - {t} && n'.submitted == n.submitted - {t} && n'.staged == n.staged
    requires Untouched(n.db, n'.db)
    ensures FlightInvariant(n')
  {
    assert InFlight(n') <= InFlight(n);
  }

  lemma CallbackDoneKeepsFlight(n: Node, t: TransitionBatch, n': Node)
    requires FlightInvariant(n) && NextChain(n, CallbackDone(t), n')
    ensures FlightInvariant(n')
  {
    hide FlightInvariant, Updated, StatusesDone, VoteIDs;
    HeldAndSubmittedAreDisjoint(n);
    LandingKeepsFlight(n, t, n');
  }

  lemma HeldAndSubmittedAreDisjoint(n: Node)
    requires FlightInvariant(n)
    ensures n.held !! n.submitted
  {
  }

  lemma FailedKeepsFlight(n: Node, t: TransitionBatch, now: int, n': Node)
    requires FlightInvariant(n) && t in n.held + n.submitted
    requires n'.held == n.held - {t} && n'.submitted == n.submitted - {t} && n'.staged == n.staged
    requires n'.db == TransitionFailed(n.db, t, t.processID, now).db
             || n'.db == Store.PrunePendingTx(TransitionFailed(n.db, t, t.processID, now).db, t.processID)
    ensures FlightInvariant(n')
  {
    hide FlightInvariant, TransitionFailed;
    FailureFrame(n.db, t, t.processID, now);
    if t in n.db.transitions {
      LandingKeepsFlight(n, t, n');
    } else {
      ReleasingKeepsFlight(n, t, n');
    }
  }

  lemma OutdatedKeepsFlight(n: Node, t: TransitionBatch, n': Node)
    requires FlightInvariant(n) && NextChain(n, MarkOutdated(t), n')
    ensures FlightInvariant(n')
  {
    hide FlightInvariant, TransitionOutdated, ValidProcessID;
    HeldAndSubmittedAreDisjoint(n);
    OutdatedFrame(n.db, t);
    LandingKeepsFlight(n, t, n');
  }

  lemma ChainStepKeepsFlight(n: Node, s: ChainStep, n': Node)
    requires FlightInvariant(n) && NextChain(n, s, n')
    ensures FlightInvariant(n')
  {
    hide TransitionFailed, TransitionDone, TransitionOutdated, FlightInvariant;
    HeldAndSubmittedAreDisjoint(n);
    match s
    case MarkOutdated(t) =>
      OutdatedKeepsFlight(n, t, n');
    case SubmissionFailed(t, now) =>
      assert t !in n.submitted;
      FailedKeepsFlight(n, t, now, n');
    case CallbackDone(t) =>
      CallbackDoneKeepsFlight(n, t, n');
    case CallbackFailed(t, now) =>
      assert t !in n.held;
      FailedKeepsFlight(n, t, now, n');
    case _ =>
      MovingKeepsFlight(n, s, n');
  }

  lemma MovingKeepsFlight(n: Node, s: ChainStep, n': Node)
    requires FlightInvariant(n) && NextChain(n, s, n')
    requires s.TakeTransition? || s.Submit? || s.DropHeld? || s.RemoveTransitions?
    ensures FlightInvariant(n')
  {
    hide TransitionFailed, TransitionDone, TransitionOutdated;
    assert InFlight(n') <= InFlight(n);
  }

  lemma UntouchedKeepsFlight(n: Node, n': Node)
    requires FlightInvariant(n) && Untouched(n.db, n'.db)
    requires n'.held == n.held && n'.submitted == n.submitted && n'.staged == n.staged
    ensures FlightInvariant(n')
  {
    assert InFlight(n') == InFlight(n);
  }

  /** The refusal of a second pending batch is what keeps a second transition from being staged. */
  lemma StageKeepsFlight(n: Node, batch: AggregatorBatch, n': Node)
    requires FlightInvariant(n) && NextBatches(n, Stage(batch), n')
    ensures FlightInvariant(n')
  {
    assert InFlight(n') == InFlight(n);
  }

  lemma PushKeepsFlight(n: Node, t: TransitionBatch, n': Node)
    requires FlightInvariant(n) && NextBatches(n, PushTransitionOf(t), n')
    ensures FlightInvariant(n')
  {
    hide UpdateStats, SetStatuses;
    assert InFlight(n') == InFlight(n) + {t};
  }

  lemma BatchStepKeepsFlight(n: Node, s: BatchStep, n': Node)
    requires FlightInvariant(n) && NextBatches(n, s, n')
    ensures FlightInvariant(n')
  {
    hide FlightInvariant, UpdateStats, SetStatuses, Updated, TakenFrom, Rested;
    match s
    case Stage(batch) =>
      StageKeepsFlight(n, batch, n');
    case PushTransitionOf(t) =>
      PushKeepsFlight(n, t, n');
    case MarkAggregatedFailed(batch) =>
      FailAggregatedFrame(n.db, batch, |batch.ballots|);
      UntouchedKeepsFlight(n, n');
    case _ =>
      UntouchedKeepsFlight(n, n');
  }

  lemma AdminStepKeepsFlight(n: Node, s: AdminStep, n': Node)
    requires FlightInvariant(n) && NextAdmin(n, s, n') && !s.Expire?
    ensures FlightInvariant(n')
  {
    hide NextAdmin;
    AdminStepShrinks(n, s, n');
    if !s.Restart? {
      AdminStepKeepsReservations(n, s, n');
    }
    assert InFlight(n') <= InFlight(n);
  }

  lemma AdminStepKeepsReservations(n: Node, s: AdminStep, n': Node)
    requires NextAdmin(n, s, n') && !s.Restart? && !s.Expire?
    ensures forall t :: t in n'.db.transitions && t in n.db.reservedTransitions ==> t in n'.db.reservedTransitions
  {
    hide Posted, FailKeys, TimedOut, StatusesDone, WithoutPending, WithoutVerified, CleanupEnded;
    if s.Cleanup? {
      CleanupShrinks(n.db, s.processID);
    }
  }

  /** No reservation of a transition that is held or submitted ages out in this step. */
  ghost predicate Spared(n: Node, s: Step) {
    s.Admin? && s.m.Expire? ==> s.m.stale.transitions !! ((n.held + n.submitted) * n.db.transitions)
  }

  /** Ageing keeps the invariant exactly when it spares what is held or submitted. */
  lemma ExpireKeepsFlightIff(n: Node, stale: Stale, n': Node)
    requires FlightInvariant(n) && NextAdmin(n, Expire(stale), n')
    ensures FlightInvariant(n') <==> stale.transitions !! ((n.held + n.submitted) * n.db.transitions)
  {
    assert InFlight(n') == InFlight(n);
    if FlightInvariant(n') {
      forall t | t in stale.transitions ensures t !in (n.held + n.submitted) * n.db.transitions {
        assert t !in n'.db.reservedTransitions;
      }
    }
  }

  /** A step keeps the invariant exactly when it is no ageing step, or spares what is held or submitted. */
  lemma StepKeepsFlight(n: Node, s: Step, n': Node)
    requires FlightInvariant(n) && Next(n, s, n')
    ensures FlightInvariant(n') <==> Spared(n, s)
  {
    hide NextBallots, NextBatches, NextChain, NextAdmin, FlightInvariant;
    match s
    case Ballots(b) =>
      BallotStepsKeepBatches(n, b, n');
      UntouchedKeepsFlight(n, n');
    case Batches(a) =>
      BatchStepKeepsFlight(n, a, n');
    case Chain(c) =>
      ChainStepKeepsFlight(n, c, n');
    case Admin(m) =>
      if m.Expire? {
        ExpireKeepsFlightIff(n, m.stale, n');
      } else {
        AdminStepKeepsFlight(n, m, n');
      }
  }

  /** Along a run the invariant holds for exactly as long as every step spares what is held or submitted. */
  lemma {:induction false} FlightHolds(nodes: seq<Node>, steps: seq<Step>, i: nat)
    requires Run(nodes, steps) && i < |nodes|
    ensures (forall j :: 0 <= j <= i ==> FlightInvariant(nodes[j])) <==> (forall j :: 0 <= j < i ==> Spared(nodes[j], steps[j]))
  {
    hide Next, FlightInvariant, Spared;
    if i == 0 {
      InitialFlight();
    } else {
      FlightHolds(nodes, steps, i - 1);
      if FlightInvariant(nodes[i - 1]) {
        StepKeepsFlight(nodes[i - 1], steps[i - 1], nodes[i]);
      }
    }
  }

  lemma InitialFlight()
    ensures FlightInvariant(INITIAL)
  {
  }

  /**
   In every state of every run in which no reservation of a held or submitted
   transition ages out, restarts and cleanups included, a process has at most
   one state transition, and while it exists the batch it came from is pending
   with the very same ballots.
   */
  lemma AtMostOneTransition(nodes: seq<Node>, steps: seq<Step>, i: nat, t: TransitionBatch)
    requires Run(nodes, steps) && i < |nodes| && t in nodes[i].db.transitions
    requires forall j :: 0 <= j < i ==> Spared(nodes[j], steps[j])
    ensures forall u :: u in nodes[i].db.transitions && u.processID == t.processID ==> u == t
    ensures t.processID in nodes[i].db.pendingAgg
    ensures nodes[i].db.pendingAgg[t.processID].ballots == t.ballots
    ensures nodes[i].db.pendingAgg[t.processID].processID == t.processID
  {
    FlightHolds(nodes, steps, i);
    assert FlightInvariant(nodes[i]) && t in InFlight(nodes[i]);
  }

  // What an aged reservation leads to

  /** The transition t of process p is in flight twice: held again while its first submission is still out. */
  ghost predicate InFlightTwice(n: Node, t: TransitionBatch) {
    FlightInvariant(n) && t in n.db.transitions && t in n.submitted
  }

  /** Ageing lets a submitted transition be taken again, and its confirmation then clears the way for another batch. */
  lemma AgeingHandsOutAgain(n: Node, t: TransitionBatch) returns (nodes: seq<Node>, steps: seq<Step>)
    requires InFlightTwice(n, t)
    ensures Path(nodes, steps) && nodes[0] == n
    ensures var m := nodes[|steps|];
            && t in m.held && t !in m.db.transitions && t.processID !in m.db.pendingAgg
            && m.taken == n.taken && m.staged == n.staged
  {
    hide Updated, StatusesDone, VoteIDs, FlightInvariant;
    var n1 := n.(db := Expired(n.db, Stale({}, {}, {}, {t})));
    var n2 := n1.(db := ReserveTransition(n1.db, t), held := n1.held + {t});
    var n3 := n2.(db := Store.PrunePendingTx(TransitionDone(n2.db, t, t.processID), t.processID),
                  submitted := n2.submitted - {t});
    assert Next(n, Admin(Expire(Stale({}, {}, {}, {t}))), n1) && Next(n1, Chain(TakeTransition(t)), n2);
    assert Next(n2, Chain(CallbackDone(t)), n3);
    hide Next;
    nodes := [n, n1, n2, n3];
    steps := [Admin(Expire(Stale({}, {}, {}, {t}))), Chain(TakeTransition(t)), Chain(CallbackDone(t))];
  }

  /** The second callback of t releases the pending batch of the transition that came after it. */
  lemma SecondCallbackReleasesPending(n: Node, t: TransitionBatch) returns (nodes: seq<Node>, steps: seq<Step>)
    requires t in n.held && t !in n.db.transitions
    ensures Path(nodes, steps) && nodes[0] == n
    ensures |steps| == 2 && steps[0] == Chain(Submit(t)) && steps[1] == Chain(CallbackDone(t))
    ensures var m := nodes[2];
            m == n.(held := n.held - {t}, submitted := n.submitted - {t}, db :=
                 n.db.(pendingAgg := n.db.pendingAgg - {t.processID}, pendingTx := n.db.pendingTx - {t.processID},
                       reservedTransitions := n.db.reservedTransitions - {t}, books := m.db.books))
  {
    hide Updated, StatusesDone;
    var n1 := n.(held := n.held - {t}, submitted := n.submitted + {t});
    var n2 := n1.(db := Store.PrunePendingTx(TransitionDone(n1.db, t, t.processID), t.processID),
                  submitted := n1.submitted - {t});
    assert n2.db.transitions == n.db.transitions && n2.submitted == n.submitted - {t};
    assert Next(n, Chain(Submit(t)), n1) && Next(n1, Chain(CallbackDone(t)), n2);
    hide Next;
    nodes, steps := [n, n1, n2], [Chain(Submit(t)), Chain(CallbackDone(t))];
  }

  lemma Joined(nodes: seq<Node>, steps: seq<Step>, more: seq<Node>, moreSteps: seq<Step>)
    returns (all: seq<Node>, allSteps: seq<Step>)
    requires Path(nodes, steps) && Path(more, moreSteps) && more[0] == nodes[|steps|]
    ensures Path(all, allSteps) && allSteps == steps + moreSteps
    ensures forall i :: 0 <= i <= |steps| ==> all[i] == nodes[i]
    ensures all[|allSteps|] == more[|moreSteps|]
  {
    PathsJoin(nodes, steps, more, moreSteps);
    all, allSteps := nodes + more[1..], steps + moreSteps;
  }
}
