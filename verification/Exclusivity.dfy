/** One ballot per address in the pending and verified queues, and the address locks that guard it. */
module Exclusivity {
  import opened Wrappers
  import opened Queues
  import opened Counters
  import opened Store
  import opened StorageObject
  import opened Protocol
  import opened Safety

  /** Each process and address has at most one ballot in the two queues, and its lock is held. */
  ghost predicate Exclusive(db: Db) {
    && (forall v, w :: v in db.pending && w in db.pending && PendingLock(db.pending[v]) == PendingLock(db.pending[w]) ==> v == w)
    && (forall k, l :: k in db.verified && l in db.verified && LockOf(db.verified[k]) == LockOf(db.verified[l]) ==> k == l)
    && (forall v, k :: v in db.pending && k in db.verified ==> PendingLock(db.pending[v]) != LockOf(db.verified[k]))
    && (forall v :: v in db.pending ==> PendingLock(db.pending[v]) in db.addressLocks)
    && (forall k :: k in db.verified ==> LockOf(db.verified[k]) in db.addressLocks)
  }

  ghost function PendingLocks(db: Db): set<AddressLock> {
    set v | v in db.pending :: PendingLock(db.pending[v])
  }

  /** The locks held are exactly those of the queued ballots, one each. */
  ghost predicate LockLaw(db: Db) {
    Exclusive(db) && db.addressLocks == PendingLocks(db) + LocksOfVerified(db)
  }

  lemma PendingHasLock(db: Db, v: VoteID)
    requires v in db.pending
    ensures PendingLock(db.pending[v]) in PendingLocks(db)
  {
  }

  lemma VerifiedHasLock(db: Db, k: VerifiedKey)
    requires k in db.verified
    ensures LockOf(db.verified[k]) in LocksOfVerified(db)
  {
  }

  /** With exclusivity the law only says that no lock is held for nothing. */
  lemma LawMeans(db: Db)
    requires Exclusive(db)
    ensures LockLaw(db) <==> db.addressLocks <= PendingLocks(db) + LocksOfVerified(db)
  {
  }

  // Steps that keep both, whatever the state

  /** The law survives when the ballots that stay keep their locks and the locks of the others go. */
  lemma ShrinkingKeepsLaw(db: Db, after: Db)
    requires LockLaw(db) && Exclusive(after) && after.addressLocks <= db.addressLocks
    requires forall v :: v in db.pending && PendingLock(db.pending[v]) in after.addressLocks ==>
                           v in after.pending && after.pending[v] == db.pending[v]
    requires forall k :: k in db.verified && LockOf(db.verified[k]) in after.addressLocks ==>
                           k in after.verified && after.verified[k] == db.verified[k]
    ensures LockLaw(after)
  {
    hide Exclusive, PendingLock, LockOf;
    LawMeans(after);
    forall l | l in after.addressLocks ensures l in PendingLocks(after) + LocksOfVerified(after) {
      if l in PendingLocks(db) {
        var v :| v in db.pending && PendingLock(db.pending[v]) == l;
        PendingHasLock(after, v);
      } else {
        assert l in LocksOfVerified(db);
        var k :| k in db.verified && LockOf(db.verified[k]) == l;
        VerifiedHasLock(after, k);
      }
    }
  }

  lemma DroppingPendingKeeps(db: Db, gone: set<VoteID>)
    requires Exclusive(db) && KeysMatch(db) && gone <= db.pending.Keys
    ensures Exclusive(WithoutPending(db, gone))
    ensures LockLaw(db) ==> LockLaw(WithoutPending(db, gone))
  {
    DroppedPending(db, gone);
    hide LockLaw, WithoutPending, PendingLock, LockOf;
    if LockLaw(db) {
      DroppingPendingKeepsLaw(db, gone);
    }
  }

  lemma DroppedPending(db: Db, gone: set<VoteID>)
    requires KeysMatch(db) && gone <= db.pending.Keys
    ensures var after := WithoutPending(db, gone);
            && after.pending == db.pending - gone && after.verified == db.verified
            && after.addressLocks == db.addressLocks - set v | v in gone :: PendingLock(db.pending[v])
  {
    assert IDsOf(db, gone) == gone;
  }

  lemma DroppingPendingKeepsLaw(db: Db, gone: set<VoteID>)
    requires LockLaw(db) && KeysMatch(db) && gone <= db.pending.Keys && Exclusive(WithoutPending(db, gone))
    ensures LockLaw(WithoutPending(db, gone))
  {
    hide Exclusive, LockLaw, PendingLock, LockOf;
    assert IDsOf(db, gone) == gone;
    ShrinkingKeepsLaw(db, WithoutPending(db, gone));
  }

  lemma DroppingVerifiedKeeps(db: Db, keys: set<VerifiedKey>)
    requires Exclusive(db)
    ensures Exclusive(WithoutVerified(db, keys))
    ensures LockLaw(db) ==> LockLaw(WithoutVerified(db, keys))
  {
    if LockLaw(db) {
      hide Exclusive, LockLaw, PendingLock, LockOf;
      ShrinkingKeepsLaw(db, WithoutVerified(db, keys));
    }
  }

  lemma {:induction false} FailingKeeps(db: Db, keys: seq<VerifiedKey>)
    requires Exclusive(db)
    ensures Exclusive(FailAllVerified(db, keys).0)
    ensures LockLaw(db) ==> LockLaw(FailAllVerified(db, keys).0)
  {
    hide SetStatus, StatusOf, WithoutVerified;
    if |keys| > 0 {
      FailingKeeps(db, keys[..|keys| - 1]);
      DroppingVerifiedKeeps(FailAllVerified(db, keys[..|keys| - 1]).0, {keys[|keys| - 1]});
    }
  }

  lemma PushingKeeps(db: Db, b: PendingBallot)
    requires Exclusive(db)
    ensures Exclusive(PushPending(db, b).db)
    ensures LockLaw(db) ==> LockLaw(PushPending(db, b).db)
  {
    hide Updated, SetStatus, LockLaw;
    if PushPending(db, b).r.Ok? && LockLaw(db) {
      PushedLocks(db, b);
      PushingKeepsLaw(db, b);
    }
  }

  lemma PushingKeepsLaw(db: Db, b: PendingBallot)
    requires LockLaw(db) && PushPending(db, b).r.Ok? && Exclusive(PushPending(db, b).db)
    ensures LockLaw(PushPending(db, b).db)
  {
    hide Updated, SetStatus, Exclusive;
    PushedLocks(db, b);
  }

  lemma PushedLocks(db: Db, b: PendingBallot)
    requires b.voteID !in db.pending
    ensures PendingLocks(db.(pending := db.pending[b.voteID := b])) == PendingLocks(db) + {PendingLock(b)}
  {
    hide PendingLock;
    var after := db.(pending := db.pending[b.voteID := b]);
    forall l | l in PendingLocks(db) + {PendingLock(b)} ensures l in PendingLocks(after) {
      if l == PendingLock(b) {
        PendingHasLock(after, b.voteID);
      } else {
        var v :| v in db.pending && PendingLock(db.pending[v]) == l;
        PendingHasLock(after, v);
      }
    }
  }

  lemma RemovingKeeps(db: Db, p: ProcessID, v: VoteID)
    requires Exclusive(db)
    ensures Exclusive(RemovePending(db, p, v))
    ensures LockLaw(db) ==> LockLaw(RemovePending(db, p, v))
  {
    hide Updated, SetStatus;
    if LockLaw(db) {
      hide Exclusive, LockLaw, PendingLock, LockOf;
      ShrinkingKeepsLaw(db, RemovePending(db, p, v));
    }
  }

  // Marking a ballot verified

  /** The call puts a ballot into the verified queue. */
  predicate Stores(db: Db, v: VoteID, vb: Option<VerifiedBallot>) {
    vb.Some? && (v in db.pending || ValidProcessID(vb.value.processID))
  }

  /** The key it is stored under. */
  function StoredKey(db: Db, v: VoteID, vb: VerifiedBallot): VerifiedKey {
    VerifiedKey(if v in db.pending then db.pending[v].processID else vb.processID, v)
  }

  function StoredLock(db: Db, v: VoteID, vb: VerifiedBallot): AddressLock {
    (StoredKey(db, v, vb).processID, vb.address)
  }

  /** Its lock is held, and by no ballot other than the one it replaces. */
  ghost predicate OwnsLock(db: Db, v: VoteID, vb: VerifiedBallot) {
    var lock := StoredLock(db, v, vb);
    && lock in db.addressLocks
    && (forall w :: w in db.pending && w != v ==> PendingLock(db.pending[w]) != lock)
    && (forall k :: k in db.verified && k != StoredKey(db, v, vb) ==> LockOf(db.verified[k]) != lock)
  }

  /** It moves a pending ballot, or repeats a verified one, and the address is that ballot's. */
  ghost predicate Moves(db: Db, v: VoteID, vb: VerifiedBallot) {
    var k, lock := StoredKey(db, v, vb), StoredLock(db, v, vb);
    if v in db.pending then k !in db.verified && PendingLock(db.pending[v]) == lock
    else k in db.verified && LockOf(db.verified[k]) == lock
  }

  lemma VerifiedEffect(db: Db, v: VoteID, vb: Option<VerifiedBallot>)
    ensures var after := MarkVerified(db, v, vb).db;
            if Stores(db, v, vb) then
              var k := StoredKey(db, v, vb.value);
              && after.verified == db.verified[k := vb.value.(processID := k.processID)]
              && after.pending == db.pending - {v} && after.addressLocks == db.addressLocks
            else after == db
  {
    hide UpdateStats, SetStatus, ValidProcessID;
  }

  /** Marking a ballot verified keeps exclusivity exactly when it stores nothing or owns its lock. */
  lemma VerifyingKeepsIff(db: Db, v: VoteID, vb: Option<VerifiedBallot>)
    requires Exclusive(db)
    ensures Exclusive(MarkVerified(db, v, vb).db) <==> (Stores(db, v, vb) ==> OwnsLock(db, v, vb.value))
  {
    hide MarkVerified, ValidProcessID;
    VerifiedEffect(db, v, vb);
    if Stores(db, v, vb) {
      var after, k := MarkVerified(db, v, vb).db, StoredKey(db, v, vb.value);
      assert LockOf(after.verified[k]) == StoredLock(db, v, vb.value);
      assert forall l :: l in db.verified && l != k ==> after.verified[l] == db.verified[l];
      assert forall w :: w in db.pending && w != v ==> w in after.pending && after.pending[w] == db.pending[w];
    }
  }

  /** It keeps the law exactly when it stores nothing or moves a ballot. */
  lemma VerifyingKeepsLawIff(db: Db, v: VoteID, vb: Option<VerifiedBallot>)
    requires LockLaw(db)
    ensures LockLaw(MarkVerified(db, v, vb).db) <==> (Stores(db, v, vb) ==> Moves(db, v, vb.value))
  {
    hide MarkVerified, ValidProcessID, Exclusive, Moves, OwnsLock;
    VerifiedEffect(db, v, vb);
    VerifyingKeepsIff(db, v, vb);
    if Stores(db, v, vb) {
      LocksMove(db, v, vb.value, MarkVerified(db, v, vb).db);
    }
  }

  /** The locks of all queued ballots other than these two. */
  ghost function OtherLocks(db: Db, v: VoteID, k: VerifiedKey): set<AddressLock> {
    (set w | w in db.pending && w != v :: PendingLock(db.pending[w]))
    + set l | l in db.verified && l != k :: LockOf(db.verified[l])
  }

  lemma LocksAfterStoring(db: Db, v: VoteID, k: VerifiedKey, b: VerifiedBallot, after: Db)
    requires after.verified == db.verified[k := b] && after.pending == db.pending - {v}
    ensures PendingLocks(after) + LocksOfVerified(after) == OtherLocks(db, v, k) + {LockOf(b)}
  {
    hide PendingLock, LockOf;
    forall l | l in OtherLocks(db, v, k) + {LockOf(b)} ensures l in PendingLocks(after) + LocksOfVerified(after) {
      if l == LockOf(b) {
        VerifiedHasLock(after, k);
      } else if w :| w in db.pending && w != v && PendingLock(db.pending[w]) == l {
        PendingHasLock(after, w);
      } else {
        var x :| x in db.verified && x != k && LockOf(db.verified[x]) == l;
        VerifiedHasLock(after, x);
      }
    }
  }

  /** The locks of the two ballots in question. */
  ghost function OwnLocks(db: Db, v: VoteID, k: VerifiedKey): set<AddressLock> {
    (if v in db.pending then {PendingLock(db.pending[v])} else {})
    + if k in db.verified then {LockOf(db.verified[k])} else {}
  }

  lemma LocksSplit(db: Db, v: VoteID, k: VerifiedKey)
    requires Exclusive(db)
    ensures PendingLocks(db) + LocksOfVerified(db) == OtherLocks(db, v, k) + OwnLocks(db, v, k)
    ensures OtherLocks(db, v, k) !! OwnLocks(db, v, k)
  {
    forall l | l in OtherLocks(db, v, k) + OwnLocks(db, v, k) ensures l in PendingLocks(db) + LocksOfVerified(db) {
      if w :| w in db.pending && PendingLock(db.pending[w]) == l {
        PendingHasLock(db, w);
      } else {
        var x :| x in db.verified && LockOf(db.verified[x]) == l;
        VerifiedHasLock(db, x);
      }
    }
  }

  lemma LocksMove(db: Db, v: VoteID, vb: VerifiedBallot, after: Db)
    requires LockLaw(db)
    requires after.verified == db.verified[StoredKey(db, v, vb) := vb.(processID := StoredKey(db, v, vb).processID)]
    requires after.pending == db.pending - {v} && after.addressLocks == db.addressLocks
    ensures OwnsLock(db, v, vb) && after.addressLocks == PendingLocks(after) + LocksOfVerified(after) <==> Moves(db, v, vb)
  {
    var k, lock := StoredKey(db, v, vb), StoredLock(db, v, vb);
    var others, own := OtherLocks(db, v, k), OwnLocks(db, v, k);
    LocksAfterStoring(db, v, k, vb.(processID := k.processID), after);
    LocksSplit(db, v, k);
    OwnsIsFree(db, v, vb, others);
    MovesMeans(db, v, vb);
    hide Exclusive, Moves, OwnsLock, OtherLocks, OwnLocks, PendingLocks, LocksOfVerified, StoredKey, StoredLock;
    if lock !in others && others + own == others + {lock} {
      assert own == {lock};
    }
  }

  /** Moving a ballot means that the only lock of its own is the one it is stored with. */
  lemma MovesMeans(db: Db, v: VoteID, vb: VerifiedBallot)
    requires Exclusive(db)
    ensures Moves(db, v, vb) <==> OwnLocks(db, v, StoredKey(db, v, vb)) == {StoredLock(db, v, vb)}
  {
    var k, lock := StoredKey(db, v, vb), StoredLock(db, v, vb);
    var own := OwnLocks(db, v, k);
    if v in db.pending {
      assert PendingLock(db.pending[v]) in own;
    }
    if k in db.verified {
      assert LockOf(db.verified[k]) in own;
    }
    if v !in db.pending && k !in db.verified {
      assert lock !in own;
    }
  }

  lemma OwnsIsFree(db: Db, v: VoteID, vb: VerifiedBallot, others: set<AddressLock>)
    requires others == OtherLocks(db, v, StoredKey(db, v, vb))
    ensures OwnsLock(db, v, vb) <==> StoredLock(db, v, vb) in db.addressLocks && StoredLock(db, v, vb) !in others
  {
  }

  // Restarting

  /** A restart keeps exclusivity exactly when every pending ballot shares its address with an aggregated one. */
  lemma RestartKeepsIff(db: Db)
    requires Exclusive(db)
    ensures Exclusive(Recovered(db)) <==> PendingLocks(db) <= LocksOfAggregated(db)
  {
    hide VotesOfVerified, VotesOfAggregated, LocksOfAggregated;
    assert forall v :: v in db.pending ==> PendingLock(db.pending[v]) !in LocksOfVerified(db);
    if Exclusive(Recovered(db)) {
      assert forall v :: v in db.pending ==> PendingLock(db.pending[v]) in Recovered(db).addressLocks;
    }
  }

  /** It keeps the law exactly when, besides, every aggregated ballot shares its address with a queued one. */
  lemma RestartKeepsLawIff(db: Db)
    requires LockLaw(db)
    ensures LockLaw(Recovered(db)) <==>
            PendingLocks(db) <= LocksOfAggregated(db) <= PendingLocks(db) + LocksOfVerified(db)
  {
    hide VotesOfVerified, VotesOfAggregated, Exclusive;
    RestartKeepsIff(db);
    var after := Recovered(db);
    assert PendingLocks(after) == PendingLocks(db) && LocksOfVerified(after) == LocksOfVerified(db);
  }

  // Every step

  /** What a step must meet for exclusivity: checked before it is taken. */
  ghost predicate Guarded(n: Node, s: Step) {
    && (s.Ballots? && s.b.MarkBallotVerified? ==>
          (Stores(n.db, s.b.voteID, s.b.verified) ==> OwnsLock(n.db, s.b.voteID, s.b.verified.value)))
    && (s == Admin(Restart) ==> PendingLocks(n.db) <= LocksOfAggregated(n.db))
  }

  /** What it must meet for the law. */
  ghost predicate StrictlyGuarded(n: Node, s: Step) {
    && (s.Ballots? && s.b.MarkBallotVerified? ==>
          (Stores(n.db, s.b.voteID, s.b.verified) ==> Moves(n.db, s.b.voteID, s.b.verified.value)))
    && (s == Admin(Restart) ==>
          PendingLocks(n.db) <= LocksOfAggregated(n.db) <= PendingLocks(n.db) + LocksOfVerified(n.db))
  }

  lemma BallotStepKeeps(n: Node, s: BallotStep, n': Node)
    requires Exclusive(n.db) && KeysMatch(n.db) && NextBallots(n, s, n') && !s.MarkBallotVerified?
    ensures Exclusive(n'.db)
    ensures LockLaw(n.db) ==> LockLaw(n'.db)
  {
    hide Updated, UpdateStats, SetStatus, FailAllVerified, FailBooks, Pulled, VerifiedOf, Discounted,
         WithoutPending, WithoutVerified, PushPending, RemovePending, Exclusive, KeysMatch;
    match s
    case Push(b) => PushingKeeps(n.db, b);
    case RemovePendingBallot(p, v) => RemovingKeeps(n.db, p, v);
    case RemovePendingBallots(p) =>
      DroppingPendingKeeps(n.db, PendingOf(n.db, p));
      LocksOnly(WithoutPending(n.db, PendingOf(n.db, p)), n'.db);
    case RemoveVerifiedBallots(p) => DroppingVerifiedKeeps(n.db, VerifiedOf(n.db, p));
    case MarkVerifiedDone(keys) => DroppingVerifiedKeeps(n.db, set k | k in keys);
    case MarkVerifiedFailed(keys, order) =>
      FailingKeeps(n.db, keys);
      LocksOnly(FailAllVerified(n.db, keys).0, n'.db);
    case _ => LocksOnly(n.db, n'.db);
  }

  /** Both properties look at the two queues and the locks alone. */
  lemma LocksOnly(db: Db, db': Db)
    requires db'.pending == db.pending && db'.verified == db.verified && db'.addressLocks == db.addressLocks
    ensures Exclusive(db') <==> Exclusive(db)
    ensures LockLaw(db') <==> LockLaw(db)
  {
  }

  lemma AdminStepKeeps(n: Node, s: AdminStep, n': Node)
    requires Exclusive(n.db) && KeysMatch(n.db) && NextAdmin(n, s, n') && !s.Restart?
    ensures Exclusive(n'.db)
    ensures LockLaw(n.db) ==> LockLaw(n'.db)
  {
    hide Posted, FailKeys, TimedOut, StatusesDone, CleanupEnded, CleanedAll, Exclusive, LockLaw, KeysMatch;
    match s
    case Cleanup(p) => CleaningKeeps(n.db, p);
    case CleanAll(entries) => CleaningAllKeeps(n.db, entries);
    case _ => LocksOnly(n.db, n'.db);
  }

  lemma CleaningKeeps(db: Db, p: ProcessID)
    requires Exclusive(db) && KeysMatch(db)
    ensures Exclusive(CleanupEnded(db, p))
    ensures LockLaw(db) ==> LockLaw(CleanupEnded(db, p))
  {
    hide TimedOut, WithoutPending, WithoutVerified, Exclusive, LockLaw;
    DroppingPendingKeeps(db, PendingOf(db, p));
    var noPending := WithoutPending(db, PendingOf(db, p));
    DroppingVerifiedKeeps(noPending, VerifiedOf(noPending, p));
    LocksOnly(RemoveVerifiedByProcess(noPending, p), CleanupEnded(db, p));
  }

  lemma CleaningAllKeeps(db: Db, entries: seq<(ProcessID, seq<Update>)>)
    requires Exclusive(db)
    ensures Exclusive(CleanedAll(db, entries))
    ensures LockLaw(db) ==> LockLaw(CleanedAll(db, entries))
  {
    hide Posted, FailKeys;
    var after := CleanedAll(db, entries);
    assert after.pending == db.pending && after.verified == map[];
    assert after.addressLocks == db.addressLocks - LocksOfVerified(db);
    assert LocksOfVerified(after) == {};
  }

  lemma VerifyingStep(n: Node, s: BallotStep, n': Node)
    requires NextBallots(n, s, n') && s.MarkBallotVerified?
    ensures n'.db == MarkVerified(n.db, s.voteID, s.verified).db
  {
    hide MarkVerified;
  }

  lemma RestartStep(n: Node, n': Node)
    requires NextAdmin(n, Restart, n')
    ensures n'.db == Recovered(n.db)
  {
    hide Recovered;
  }

  /** A step keeps exclusivity exactly when it is guarded. */
  lemma StepKeepsExclusiveIff(n: Node, s: Step, n': Node)
    requires Exclusive(n.db) && KeysMatch(n.db) && Next(n, s, n')
    ensures Exclusive(n'.db) <==> Guarded(n, s)
  {
    hide NextBallots, NextBatches, NextChain, NextAdmin, Exclusive, KeysMatch, Stores, OwnsLock, MarkVerified, Recovered,
         PendingLocks, LocksOfAggregated;
    match s
    case Ballots(b) =>
      if b.MarkBallotVerified? {
        VerifyingStep(n, b, n');
        VerifyingKeepsIff(n.db, b.voteID, b.verified);
      } else {
        BallotStepKeeps(n, b, n');
      }
    case Batches(a) =>
      BatchStepFrame(n, a, n');
      LocksOnly(n.db, n'.db);
    case Chain(c) =>
      ChainStepFrame(n, c, n');
      LocksOnly(n.db, n'.db);
    case Admin(m) =>
      if m.Restart? {
        RestartStep(n, n');
        RestartKeepsIff(n.db);
      } else {
        AdminStepKeeps(n, m, n');
      }
  }

  /** A step keeps the law exactly when it is strictly guarded. */
  lemma StepKeepsLawIff(n: Node, s: Step, n': Node)
    requires LockLaw(n.db) && KeysMatch(n.db) && Next(n, s, n')
    ensures LockLaw(n'.db) <==> StrictlyGuarded(n, s)
  {
    assert Exclusive(n.db);
    hide NextBallots, NextBatches, NextChain, NextAdmin, Exclusive, LockLaw, KeysMatch, Stores, Moves, MarkVerified, Recovered,
         PendingLocks, LocksOfAggregated, LocksOfVerified;
    match s
    case Ballots(b) =>
      if b.MarkBallotVerified? {
        VerifyingStep(n, b, n');
        VerifyingKeepsLawIff(n.db, b.voteID, b.verified);
      } else {
        BallotStepKeeps(n, b, n');
      }
    case Batches(a) =>
      BatchStepFrame(n, a, n');
      LocksOnly(n.db, n'.db);
    case Chain(c) =>
      ChainStepFrame(n, c, n');
      LocksOnly(n.db, n'.db);
    case Admin(m) =>
      if m.Restart? {
        RestartStep(n, n');
        RestartKeepsLawIff(n.db);
      } else {
        AdminStepKeeps(n, m, n');
      }
  }

  lemma InitialIsLawful()
    ensures LockLaw(INITIAL.db)
  {
  }

  /**
   Along a run each process and address has one ballot in the queues at most,
   with its lock held, for exactly as long as every step is guarded.
   */
  lemma {:induction false} AddressesAreExclusive(nodes: seq<Node>, steps: seq<Step>, i: nat)
    requires Run(nodes, steps) && i < |nodes|
    ensures (forall j :: 0 <= j <= i ==> Exclusive(nodes[j].db)) <==> (forall j :: 0 <= j < i ==> Guarded(nodes[j], steps[j]))
  {
    hide Next, Guarded, Exclusive, KeysMatch;
    if i == 0 {
      InitialIsLawful();
      assert Exclusive(INITIAL.db) by {
        LawIsExclusive(INITIAL.db);
      }
    } else {
      AddressesAreExclusive(nodes, steps, i - 1);
      KeysAlwaysMatch(nodes, steps, i - 1);
      if Exclusive(nodes[i - 1].db) {
        StepKeepsExclusiveIff(nodes[i - 1], steps[i - 1], nodes[i]);
      }
    }
  }

  lemma LawIsExclusive(db: Db)
    requires LockLaw(db)
    ensures Exclusive(db)
  {
  }

  /** And the locks held are exactly those of the queued ballots for as long as every step is strictly guarded. */
  lemma {:induction false} LocksAreExact(nodes: seq<Node>, steps: seq<Step>, i: nat)
    requires Run(nodes, steps) && i < |nodes|
    ensures (forall j :: 0 <= j <= i ==> LockLaw(nodes[j].db))
            <==> (forall j :: 0 <= j < i ==> StrictlyGuarded(nodes[j], steps[j]))
  {
    hide Next, StrictlyGuarded, LockLaw, KeysMatch;
    if i == 0 {
      InitialIsLawful();
    } else {
      LocksAreExact(nodes, steps, i - 1);
      KeysAlwaysMatch(nodes, steps, i - 1);
      if LockLaw(nodes[i - 1].db) {
        StepKeepsLawIff(nodes[i - 1], steps[i - 1], nodes[i]);
      }
    }
  }

  /** Once a ballot is aggregated its address is free again: the voter can push another vote. */
  lemma DoneAllowsOverwrite(db: Db, keys: seq<VerifiedKey>, k: VerifiedKey, next: PendingBallot)
    requires Exclusive(db) && k in keys && k in db.verified
    requires PendingLock(next) == LockOf(db.verified[k])
    requires next.voteID !in db.voteLocks && next.voteID !in db.pending
    ensures PushPending(db, next) == Refused(db, AddressProcessing)
    ensures PushPending(VerifiedDone(db, keys), next).r.Ok?
    ensures Exclusive(PushPending(VerifiedDone(db, keys), next).db)
  {
    hide Updated, SetStatus;
    var gone := set key | key in keys;
    DroppingVerifiedKeeps(db, gone);
    PushingKeeps(WithoutVerified(db, gone), next);
    assert k in gone;
  }

  /** After a restart that forgets the lock of a pending ballot, its address can push a second one. */
  lemma RestartForgetsPendingLocks(db: Db, v: VoteID, second: PendingBallot)
    requires v in db.pending && PendingLock(db.pending[v]) !in LocksOfVerified(db) + LocksOfAggregated(db)
    requires PendingLock(second) == PendingLock(db.pending[v])
    requires second.voteID !in db.pending && second.voteID !in VotesOfVerified(db) + VotesOfAggregated(db)
    ensures PushPending(Recovered(db), second).r.Ok?
    ensures !Exclusive(PushPending(Recovered(db), second).db)
  {
    hide Updated, SetStatus, LocksOfVerified, LocksOfAggregated, VotesOfVerified, VotesOfAggregated;
    var after := PushPending(Recovered(db), second).db;
    assert v in after.pending && second.voteID in after.pending;
  }

  /** A ballot verified after its removal holds no lock, so its address can push a second one. */
  lemma LateVerificationBreaksExclusivity(db: Db, v: VoteID, vb: VerifiedBallot, second: PendingBallot)
    requires v !in db.pending && ValidProcessID(vb.processID) && LockOf(vb) !in db.addressLocks
    requires PendingLock(second) == LockOf(vb) && second.voteID !in db.voteLocks && second.voteID !in db.pending
    ensures var late := MarkVerified(db, v, Some(vb)).db;
            && VerifiedKey(vb.processID, v) in late.verified && !Exclusive(late)
            && PushPending(late, second).r.Ok? && second.voteID in PushPending(late, second).db.pending
  {
    hide UpdateStats, Updated, SetStatus, ValidProcessID;
    var late := MarkVerified(db, v, Some(vb)).db;
    assert LockOf(late.verified[VerifiedKey(vb.processID, v)]) == LockOf(vb);
  }

  // Locks that no queued ballot has

  /** The lock is held, and no queued ballot has it. */
  ghost predicate Leaked(db: Db, lock: AddressLock) {
    lock in db.addressLocks && lock !in PendingLocks(db) + LocksOfVerified(db)
  }

  /** The step stores a verified ballot with this lock. */
  ghost predicate Adopts(n: Node, s: Step, lock: AddressLock) {
    && s.Ballots? && s.b.MarkBallotVerified? && Stores(n.db, s.b.voteID, s.b.verified)
    && StoredLock(n.db, s.b.voteID, s.b.verified.value) == lock
  }

  lemma {:induction false} FailingLeaves(db: Db, keys: seq<VerifiedKey>, lock: AddressLock)
    requires Leaked(db, lock)
    ensures Leaked(FailAllVerified(db, keys).0, lock)
  {
    hide SetStatus, StatusOf;
    if |keys| > 0 {
      FailingLeaves(db, keys[..|keys| - 1], lock);
    }
  }

  lemma VerifyingLeaves(db: Db, v: VoteID, vb: Option<VerifiedBallot>, lock: AddressLock)
    requires Leaked(db, lock) && !(Stores(db, v, vb) && StoredLock(db, v, vb.value) == lock)
    ensures Leaked(MarkVerified(db, v, vb).db, lock)
  {
    hide MarkVerified, ValidProcessID;
    VerifiedEffect(db, v, vb);
    if Stores(db, v, vb) {
      var after, k := MarkVerified(db, v, vb).db, StoredKey(db, v, vb.value);
      assert LockOf(after.verified[k]) == StoredLock(db, v, vb.value);
      assert forall l :: l in after.verified && l != k ==> l in db.verified && after.verified[l] == db.verified[l];
    }
  }

  lemma BallotStepLeaves(n: Node, s: BallotStep, n': Node, lock: AddressLock)
    requires NextBallots(n, s, n') && Leaked(n.db, lock) && !Adopts(n, Ballots(s), lock)
    ensures Leaked(n'.db, lock)
  {
    hide Updated, UpdateStats, SetStatus, FailAllVerified, FailBooks, Pulled, Discounted, MarkVerified, Stores;
    match s
    case MarkBallotVerified(v, vb) => VerifyingLeaves(n.db, v, vb, lock);
    case MarkVerifiedFailed(keys, _) => FailingLeaves(n.db, keys, lock);
    case _ =>
  }

  lemma AdminStepLeaves(n: Node, s: AdminStep, n': Node, lock: AddressLock)
    requires NextAdmin(n, s, n') && Leaked(n.db, lock) && !s.Restart?
    ensures Leaked(n'.db, lock)
  {
    hide Posted, FailKeys, TimedOut, StatusesDone, CleanupEnded;
    if s.Cleanup? {
      CleanupLeaves(n.db, s.processID, lock);
    }
  }

  lemma CleanupLeaves(db: Db, p: ProcessID, lock: AddressLock)
    requires Leaked(db, lock)
    ensures Leaked(CleanupEnded(db, p), lock)
  {
    hide TimedOut;
  }

  /**
   A leaked lock shuts its address out through every step but a restart, until a
   ballot with that very lock is marked verified. No removal and no cleanup of
   the queues releases it.
   */
  lemma LeakedLockStays(n: Node, s: Step, n': Node, lock: AddressLock)
    requires Next(n, s, n') && Leaked(n.db, lock) && s != Admin(Restart) && !Adopts(n, s, lock)
    ensures Leaked(n'.db, lock)
  {
    hide NextBallots, NextBatches, NextChain, NextAdmin, Adopts;
    match s
    case Ballots(b) => BallotStepLeaves(n, b, n', lock);
    case Batches(a) => BatchStepFrame(n, a, n');
    case Chain(c) => ChainStepFrame(n, c, n');
    case Admin(m) => AdminStepLeaves(n, m, n', lock);
  }

  /** A leaked lock refuses every ballot from its address. */
  lemma LeakedLockRefuses(db: Db, lock: AddressLock, next: PendingBallot)
    requires Leaked(db, lock) && PendingLock(next) == lock && next.voteID !in db.voteLocks
    ensures PushPending(db, next) == Refused(db, AddressProcessing)
  {
  }

  /** A restart leaks exactly the locks of aggregated ballots whose address has no ballot in the queues. */
  lemma RestartLeaksIff(db: Db, lock: AddressLock)
    ensures Leaked(Recovered(db), lock) <==>
            lock in LocksOfAggregated(db) && lock !in PendingLocks(db) + LocksOfVerified(db)
  {
    hide VotesOfVerified, VotesOfAggregated, LocksOfAggregated;
    var after := Recovered(db);
    assert PendingLocks(after) == PendingLocks(db) && LocksOfVerified(after) == LocksOfVerified(db);
  }

  /** An aggregated address that also has a verified ballot is freed when that ballot is done. */
  lemma OverwriteFreesRecoveredLock(db: Db, batch: AggregatorBatch, k: VerifiedKey)
    requires k in db.verified && LockOf(db.verified[k]) in LocksOfAggregated(db)
    ensures LockOf(db.verified[k]) in Recovered(db).addressLocks
    ensures LockOf(db.verified[k]) !in VerifiedDone(AggregatorDone(Recovered(db), batch), [k]).addressLocks
  {
    hide VotesOfVerified, VotesOfAggregated, LocksOfAggregated, LocksOfVerified;
    var done := AggregatorDone(Recovered(db), batch);
    assert k in done.verified && done.verified[k] == db.verified[k];
  }
}
