/** Where the ballots of a batch come from: one pulled list, whose ballots were all marked verified for the process. */
module Provenance {
  import opened Wrappers
  import opened Params
  import opened Queues
  import opened Counters
  import opened Store
  import opened StorageObject
  import opened Protocol
  import opened Exclusivity
  import Selection

  /** A property of the ballots of a process, as a list. */
  type Claim = (ProcessID, seq<AggregatorBallot>) -> bool

  /** The ballots at increasing positions of a list. */
  ghost predicate Picked(sub: seq<AggregatorBallot>, list: seq<AggregatorBallot>, chosen: seq<nat>) {
    && |sub| == |chosen|
    && (forall i, j :: 0 <= i < j < |chosen| ==> chosen[i] < chosen[j])
    && (forall i :: 0 <= i < |chosen| ==> chosen[i] < |list| && sub[i] == list[chosen[i]])
  }

  ghost predicate SubList(sub: seq<AggregatorBallot>, list: seq<AggregatorBallot>) {
    exists chosen :: Picked(sub, list, chosen)
  }

  /** What holds of a list holds of all its sub-lists. */
  ghost predicate Hereditary(good: Claim) {
    forall p, list, sub :: good(p, list) && SubList(sub, list) ==> good(p, sub)
  }

  function AggregatedAll(source: seq<VerifiedBallot>): (r: seq<AggregatorBallot>)
    ensures |r| == |source|
    ensures forall i :: 0 <= i < |source| ==> r[i] == AsAggregated(source[i])
  {
    seq(|source|, i requires 0 <= i < |source| => AsAggregated(source[i]))
  }

  ghost predicate GoodBatches(good: Claim, db: Db) {
    && (forall b :: b in db.aggregated ==> good(b.processID, b.ballots))
    && (forall p :: p in db.pendingAgg ==> good(p, db.pendingAgg[p].ballots) && db.pendingAgg[p].processID == p)
    && (forall t :: t in db.transitions ==> good(t.processID, t.ballots))
  }

  ghost predicate GoodMemory(good: Claim, n: Node) {
    && (forall l :: l in n.pulled ==> good(l.0, AggregatedAll(l.1)))
    && (forall b :: b in n.taken ==> good(b.processID, b.ballots))
    && (forall p :: p in n.staged ==> good(p, n.staged[p].ballots) && n.staged[p].processID == p)
    && (forall t :: t in n.held + n.submitted ==> good(t.processID, t.ballots))
  }

  ghost predicate GoodNode(good: Claim, n: Node) {
    GoodBatches(good, n.db) && GoodMemory(good, n)
  }

  /** If the step pulls ballots, the list it hands out is good. */
  ghost predicate GoodPull(good: Claim, s: Step) {
    s.Ballots? && s.b.Pull? ==> good(s.b.processID, AggregatedAll(s.b.ballots))
  }

  // Batches are sub-lists of what was pulled

  lemma TakenIsSubList(ballots: seq<AggregatorBallot>, source: seq<VerifiedBallot>, chosen: seq<nat>)
    requires TakenFrom(ballots, source, chosen)
    ensures SubList(ballots, AggregatedAll(source))
  {
    assert Picked(ballots, AggregatedAll(source), chosen);
  }

  lemma {:induction false} UnconfirmedIsPicked(ballots: seq<AggregatorBallot>, ids: set<VoteID>) returns (chosen: seq<nat>)
    ensures Picked(Unconfirmed(ballots, ids), ballots, chosen)
  {
    if |ballots| == 0 {
      chosen := [];
    } else {
      var n := |ballots| - 1;
      chosen := UnconfirmedIsPicked(ballots[..n], ids);
      if ballots[n].voteID !in ids {
        chosen := chosen + [n];
      }
    }
  }

  lemma RetryIsGood(good: Claim, db: Db, t: TransitionBatch, p: ProcessID, batch: AggregatorBatch, now: int)
    requires Hereditary(good) && GoodBatches(good, db) && good(batch.processID, t.ballots)
    ensures forall b :: b in Retry(db, t, p, batch, now).db.aggregated ==> good(b.processID, b.ballots)
  {
    hide PushAggregator, SetStatuses, Unconfirmed, Confirmed, Accepting;
    if t.processID in db.info && db.info[t.processID].confirmed.Some? {
      var ids := db.info[t.processID].confirmed.value;
      var chosen := UnconfirmedIsPicked(t.ballots, ids);
      assert SubList(Unconfirmed(t.ballots, ids), t.ballots);
      PushEffect(db.(statuses := SetStatuses(db.statuses, t.processID, Confirmed(t.ballots, ids), StatusError)),
                 Retried(batch, Unconfirmed(t.ballots, ids), now));
    }
  }

  lemma FailureIsGood(good: Claim, db: Db, t: TransitionBatch, now: int)
    requires Hereditary(good) && GoodBatches(good, db)
    ensures GoodBatches(good, TransitionFailed(db, t, t.processID, now).db)
  {
    hide Retry, SetStatuses, Hereditary;
    var p := t.processID;
    FailureFrame(db, t, p, now);
    if t in db.transitions && p in db.pendingAgg {
      RetryIsGood(good, db.(pendingAgg := db.pendingAgg - {p}), t, p, db.pendingAgg[p], now);
    }
  }

  lemma TakenIsGood(good: Claim, n: Node, batch: AggregatorBatch, source: seq<VerifiedBallot>, chosen: seq<nat>)
    requires Hereditary(good) && GoodMemory(good, n) && (batch.processID, source) in n.pulled
    requires TakenFrom(batch.ballots, source, chosen)
    ensures good(batch.processID, batch.ballots)
  {
    hide TakenFrom, SubList;
    TakenIsSubList(batch.ballots, source, chosen);
  }

  lemma BatchStepIsGood(good: Claim, n: Node, s: BatchStep, n': Node)
    requires Hereditary(good) && GoodNode(good, n) && NextBatches(n, s, n')
    ensures GoodNode(good, n')
  {
    hide NextBatches, GoodBatches, GoodMemory, Hereditary;
    BatchesStayGood(good, n, s, n');
    MemoryStaysGood(good, n, s, n');
  }

  lemma BatchesStayGood(good: Claim, n: Node, s: BatchStep, n': Node)
    requires Hereditary(good) && GoodNode(good, n) && NextBatches(n, s, n')
    ensures GoodBatches(good, n'.db)
  {
    hide UpdateStats, SetStatuses, Updated, TakenFrom, Rested, FailAggregated, ValidProcessID, Hereditary, AggregatedAll;
    match s
    case Aggregate(batch, source, chosen) =>
      TakenIsGood(good, n, batch, source, chosen);
    case MarkAggregatedFailed(batch) =>
      FailAggregatedFrame(n.db, batch, |batch.ballots|);
    case _ =>
  }

  lemma MemoryStaysGood(good: Claim, n: Node, s: BatchStep, n': Node)
    requires GoodNode(good, n) && NextBatches(n, s, n')
    ensures GoodMemory(good, n')
  {
    hide UpdateStats, SetStatuses, Updated, TakenFrom, Rested, FailAggregated, AggregatedAll, PushAggregator, PushTransition;
  }

  lemma ChainStepIsGood(good: Claim, n: Node, s: ChainStep, n': Node)
    requires Hereditary(good) && GoodNode(good, n) && NextChain(n, s, n')
    ensures GoodNode(good, n')
  {
    hide TransitionFailed, TransitionOutdated, StatusesDone, Updated, VoteIDs, Hereditary;
    match s
    case MarkOutdated(t) =>
      OutdatedFrame(n.db, t);
    case SubmissionFailed(t, now) =>
      FailureIsGood(good, n.db, t, now);
    case CallbackFailed(t, now) =>
      FailureIsGood(good, n.db, t, now);
    case _ =>
  }

  lemma StepIsGood(good: Claim, n: Node, s: Step, n': Node)
    requires Hereditary(good) && GoodNode(good, n) && Next(n, s, n') && GoodPull(good, s)
    ensures GoodNode(good, n')
  {
    hide NextBallots, NextBatches, NextChain, NextAdmin, Hereditary;
    match s
    case Ballots(b) =>
      BallotStepsKeepBatches(n, b, n');
    case Batches(a) =>
      BatchStepIsGood(good, n, a, n');
    case Chain(c) =>
      ChainStepIsGood(good, n, c, n');
    case Admin(m) =>
      AdminStepShrinks(n, m, n');
  }

  /**
   Whatever holds of every pulled list, and of every sub-list with it, holds of
   the ballots of every batch, queued or in memory, for the process of that
   batch, through retries, outdated transitions and restarts.
   */
  lemma {:induction false} BatchesInheritFromPulls(good: Claim, nodes: seq<Node>, steps: seq<Step>, i: nat)
    requires Hereditary(good) && Run(nodes, steps) && i < |nodes|
    requires forall j :: 0 <= j < i ==> GoodPull(good, steps[j])
    ensures GoodNode(good, nodes[i])
  {
    hide Next, Hereditary, GoodPull;
    if i == 0 {
      assert GoodNode(good, INITIAL);
    } else {
      BatchesInheritFromPulls(good, nodes, steps, i - 1);
      StepIsGood(good, nodes[i - 1], steps[i - 1], nodes[i]);
    }
  }

  // The verified queue

  ghost predicate FewerVerified(db: Db, db': Db) {
    forall k :: k in db'.verified ==> k in db.verified && db'.verified[k] == db.verified[k]
  }

  lemma {:induction false} FailingDropsVerified(db: Db, keys: seq<VerifiedKey>)
    ensures FewerVerified(db, FailAllVerified(db, keys).0)
  {
    hide SetStatus, StatusOf;
    if |keys| > 0 {
      FailingDropsVerified(db, keys[..|keys| - 1]);
    }
  }

  lemma StepKeepsVerified(n: Node, s: Step, n': Node)
    requires Next(n, s, n') && !(s.Ballots? && s.b.MarkBallotVerified?)
    ensures FewerVerified(n.db, n'.db)
  {
    hide NextBallots, NextBatches, NextChain, NextAdmin;
    match s
    case Ballots(b) =>
      BallotStepDropsVerified(n, b, n');
    case Batches(a) =>
      BatchStepFrame(n, a, n');
    case Chain(c) =>
      ChainStepFrame(n, c, n');
    case Admin(m) =>
      AdminStepDropsVerified(n, m, n');
  }

  lemma BallotStepDropsVerified(n: Node, s: BallotStep, n': Node)
    requires NextBallots(n, s, n') && !s.MarkBallotVerified?
    ensures FewerVerified(n.db, n'.db)
  {
    hide Updated, UpdateStats, SetStatus, FailAllVerified, FailBooks, Pulled, PendingOf, VerifiedOf, Discounted;
    if s.MarkVerifiedFailed? {
      FailingDropsVerified(n.db, s.keys);
    }
  }

  lemma AdminStepDropsVerified(n: Node, s: AdminStep, n': Node)
    requires NextAdmin(n, s, n')
    ensures FewerVerified(n.db, n'.db)
  {
    hide Posted, FailKeys, TimedOut, StatusesDone, CleanupEnded, PendingOf, VerifiedOf, LocksOfVerified,
         LocksOfAggregated, VotesOfVerified, VotesOfAggregated, VotesOfTransitions, VerifiedStatusKeys,
         AggregatedStatusKeys, TransitionStatusKeys;
    if s.Cleanup? {
      CleanupDropsVerified(n.db, s.processID);
    }
  }

  lemma CleanupDropsVerified(db: Db, p: ProcessID)
    ensures FewerVerified(db, CleanupEnded(db, p))
  {
    hide TimedOut, PendingOf, VerifiedOf;
  }

  // What is checked when a ballot is marked verified

  /** A property of a ballot cast in a process. */
  type BallotClaim = (ProcessID, AggregatorBallot) -> bool

  ghost predicate AllGood(good: BallotClaim, p: ProcessID, ballots: seq<AggregatorBallot>) {
    forall b :: b in ballots ==> good(p, b)
  }

  ghost function Each(good: BallotClaim): Claim {
    (p: ProcessID, ballots: seq<AggregatorBallot>) => AllGood(good, p, ballots)
  }

  ghost predicate GoodVerified(good: BallotClaim, db: Db) {
    forall k :: k in db.verified ==> good(k.processID, AsAggregated(db.verified[k]))
  }

  /** If the step marks a ballot verified, the ballot is good for the process it is stored under. */
  ghost predicate Vouched(good: BallotClaim, n: Node, s: Step) {
    s.Ballots? && s.b.MarkBallotVerified? && Stores(n.db, s.b.voteID, s.b.verified) ==>
      good(StoredKey(n.db, s.b.voteID, s.b.verified.value).processID, AsAggregated(s.b.verified.value))
  }

  lemma EachIsHereditary(good: BallotClaim)
    ensures Hereditary(Each(good))
  {
    forall p: ProcessID, list: seq<AggregatorBallot>, sub: seq<AggregatorBallot> | Each(good)(p, list) && SubList(sub, list) ensures Each(good)(p, sub) {
      var chosen :| Picked(sub, list, chosen);
      forall b | b in sub ensures good(p, b) {
        var i :| 0 <= i < |sub| && sub[i] == b;
        assert list[chosen[i]] in list;
      }
    }
  }

  lemma VerifiedStaysGood(good: BallotClaim, n: Node, s: Step, n': Node)
    requires GoodVerified(good, n.db) && Next(n, s, n') && Vouched(good, n, s)
    ensures GoodVerified(good, n'.db)
  {
    hide Next, MarkVerified, ValidProcessID;
    if s.Ballots? && s.b.MarkBallotVerified? {
      VerifyingStores(n, s, n');
      var v, vb := s.b.voteID, s.b.verified;
      if Stores(n.db, v, vb) {
        assert AsAggregated(vb.value.(processID := StoredKey(n.db, v, vb.value).processID)) == AsAggregated(vb.value);
      }
    } else {
      StepKeepsVerified(n, s, n');
    }
  }

  lemma VerifyingStores(n: Node, s: Step, n': Node)
    requires Next(n, s, n') && s.Ballots? && s.b.MarkBallotVerified?
    ensures n'.db.verified == if Stores(n.db, s.b.voteID, s.b.verified) then
              var k := StoredKey(n.db, s.b.voteID, s.b.verified.value);
              n.db.verified[k := s.b.verified.value.(processID := k.processID)]
            else n.db.verified
  {
    hide NextBallots, MarkVerified, Stores, StoredKey;
    VerifyingStep(n, s.b, n');
    VerifiedEffect(n.db, s.b.voteID, s.b.verified);
  }

  lemma PullIsGood(good: BallotClaim, n: Node, s: Step, n': Node)
    requires GoodVerified(good, n.db) && Next(n, s, n')
    ensures GoodPull(Each(good), s)
  {
    if s.Ballots? && s.b.Pull? {
      var b := s.b;
      forall a | a in AggregatedAll(b.ballots) ensures good(b.processID, a) {
        var i :| 0 <= i < |b.ballots| && a == AsAggregated(b.ballots[i]);
        assert b.keys[i] in n.db.verified;
      }
    }
  }

  lemma VouchedStepIsGood(good: BallotClaim, n: Node, s: Step, n': Node)
    requires GoodVerified(good, n.db) && GoodNode(Each(good), n) && Next(n, s, n') && Vouched(good, n, s)
    ensures GoodVerified(good, n'.db) && GoodNode(Each(good), n')
  {
    hide Next, Vouched, GoodVerified, GoodNode, GoodPull, Hereditary;
    EachIsHereditary(good);
    VerifiedStaysGood(good, n, s, n');
    PullIsGood(good, n, s, n');
    StepIsGood(Each(good), n, s, n');
  }

  /**
   Whatever holds of every ballot when it is marked verified holds of every
   ballot of every batch, for the process of that batch.
   */
  lemma {:induction false} BatchesHoldVerifiedBallots(good: BallotClaim, nodes: seq<Node>, steps: seq<Step>, i: nat)
    requires Run(nodes, steps) && i < |nodes|
    requires forall j :: 0 <= j < i ==> Vouched(good, nodes[j], steps[j])
    ensures GoodVerified(good, nodes[i].db) && GoodNode(Each(good), nodes[i])
  {
    hide Next, Vouched;
    if i == 0 {
      assert GoodNode(Each(good), INITIAL);
    } else {
      BatchesHoldVerifiedBallots(good, nodes, steps, i - 1);
      VouchedStepIsGood(good, nodes[i - 1], steps[i - 1], nodes[i]);
    }
  }

  // Vote IDs

  /** A ballot is marked verified under the vote ID it carries, as the ballot worker does. */
  ghost predicate OwnID(n: Node, s: Step) {
    s.Ballots? && s.b.MarkBallotVerified? && Stores(n.db, s.b.voteID, s.b.verified) ==>
      s.b.verified.value.voteID == s.b.voteID
  }

  ghost predicate OwnKeys(db: Db) {
    forall k :: k in db.verified ==> db.verified[k].voteID == k.voteID
  }

  ghost const UNIQUE: Claim := (p: ProcessID, ballots: seq<AggregatorBallot>) => DistinctVoteIDs(ballots)

  lemma UniqueIsHereditary()
    ensures Hereditary(UNIQUE)
  {
    forall p: ProcessID, list: seq<AggregatorBallot>, sub: seq<AggregatorBallot> | UNIQUE(p, list) && SubList(sub, list) ensures UNIQUE(p, sub) {
      var chosen :| Picked(sub, list, chosen);
      forall i, j | 0 <= i < j < |sub| ensures sub[i].voteID != sub[j].voteID {
        assert chosen[i] < chosen[j];
      }
    }
  }

  lemma KeysStayOwn(n: Node, s: Step, n': Node)
    requires OwnKeys(n.db) && Next(n, s, n') && OwnID(n, s)
    ensures OwnKeys(n'.db)
  {
    hide Next, ValidProcessID;
    if s.Ballots? && s.b.MarkBallotVerified? {
      VerifyingStores(n, s, n');
    } else {
      StepKeepsVerified(n, s, n');
    }
  }

  lemma PullIsUnique(n: Node, s: Step, n': Node)
    requires OwnKeys(n.db) && Next(n, s, n')
    ensures GoodPull(UNIQUE, s)
  {
    if s.Ballots? && s.b.Pull? {
      var b := s.b;
      var list := AggregatedAll(b.ballots);
      forall i, j | 0 <= i < j < |list| ensures list[i].voteID != list[j].voteID {
        assert b.keys[i] in n.db.verified && b.keys[j] in n.db.verified && b.keys[i] != b.keys[j];
      }
    }
  }

  lemma {:induction false} KeysAreOwn(nodes: seq<Node>, steps: seq<Step>, i: nat)
    requires Run(nodes, steps) && i < |nodes|
    requires forall j :: 0 <= j < i ==> OwnID(nodes[j], steps[j])
    ensures OwnKeys(nodes[i].db)
  {
    hide Next, OwnID;
    if i > 0 {
      KeysAreOwn(nodes, steps, i - 1);
      KeysStayOwn(nodes[i - 1], steps[i - 1], nodes[i]);
    }
  }

  /**
   In every state of every run no batch, queued or in memory, holds two ballots
   with one vote ID, as long as ballots are marked verified under their own.
   */
  lemma VoteIDsAreDistinct(nodes: seq<Node>, steps: seq<Step>, i: nat)
    requires Run(nodes, steps) && i < |nodes|
    requires forall j :: 0 <= j < i ==> OwnID(nodes[j], steps[j])
    ensures forall b :: b in nodes[i].db.aggregated + nodes[i].taken ==> DistinctVoteIDs(b.ballots)
    ensures forall p :: p in nodes[i].db.pendingAgg ==> DistinctVoteIDs(nodes[i].db.pendingAgg[p].ballots)
    ensures forall p :: p in nodes[i].staged ==> DistinctVoteIDs(nodes[i].staged[p].ballots)
    ensures forall t :: t in nodes[i].db.transitions + nodes[i].held + nodes[i].submitted ==> DistinctVoteIDs(t.ballots)
  {
    hide OwnID, DistinctVoteIDs, GoodPull, Hereditary;
    UniqueIsHereditary();
    forall j | 0 <= j < i ensures GoodPull(UNIQUE, steps[j]) {
      KeysAreOwn(nodes, steps, j);
      assert Next(nodes[j], steps[j], nodes[j + 1]);
      PullIsUnique(nodes[j], steps[j], nodes[j + 1]);
    }
    BatchesInheritFromPulls(UNIQUE, nodes, steps, i);
  }

  /** What the aggregator selects from a pulled list is a batch as the runs take it. */
  lemma SelectionIsTaken(q: nat, ctx: Selection.Context, source: seq<VerifiedBallot>, ballots: Selection.Pulled,
                         keys: seq<VerifiedKey>, inputs: Selection.AggregatorInputs)
    requires q > 0 && |ballots| == |source| && forall i :: 0 <= i < |source| ==> ballots[i] == Some(source[i])
    requires Selection.Indexed(ctx, ballots) && Selection.InputsAligned(q, ctx, ballots, keys, inputs)
    ensures TakenFrom(inputs.aggBallots, source, Selection.Selected(ctx, ballots, |ballots|))
  {
    Selection.SelectedAre(ctx, ballots, |ballots|);
  }
}
