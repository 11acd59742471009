/** What each storage operation does to the queues, locks, reservations, statuses and counters. */
module Store {
  import opened Wrappers
  import opened Params
  import opened Packing
  import opened Queues
  import opened Counters

  datatype Error =
    | NotFound
    | NoMoreElements
    | VoteIDProcessing
    | AddressProcessing
    | BallotAlreadyExists
    | KeyAlreadyExists
    | Failure(reason: string)

  datatype Status =
    | StatusPending | StatusVerified | StatusAggregated | StatusProcessed
    | StatusDone | StatusError | StatusTimeout | StatusSettled

  type Statuses = map<VerifiedKey, Status>
  type AddressLock = (ProcessID, Option<int>)

  /**
   What the storage reads of a process: whether it has a state root, is ready and
   not expired, is registered for sequencing, and the vote IDs in the state at
   its confirmed root (None when that state cannot be loaded).
   */
  datatype ProcessInfo = ProcessInfo(hasRoot: bool, ready: bool, registered: bool, confirmed: Option<set<VoteID>>)

  predicate Accepting(p: ProcessInfo) {
    p.hasRoot && p.ready && p.registered
  }

  /** The whole storage. Batches are stored under a digest of their contents, so a queue of batches is a set. */
  datatype Db = Db(
    pending: map<VoteID, PendingBallot>,
    verified: map<VerifiedKey, VerifiedBallot>,
    aggregated: set<AggregatorBatch>,
    pendingAgg: map<ProcessID, AggregatorBatch>,
    transitions: set<TransitionBatch>,
    reservedPending: set<VoteID>,
    reservedVerified: set<VerifiedKey>,
    reservedAggregated: set<AggregatorBatch>,
    reservedTransitions: set<TransitionBatch>,
    voteLocks: set<VoteID>,
    addressLocks: set<AddressLock>,
    statuses: Statuses,
    pendingTx: set<ProcessID>,
    info: map<ProcessID, ProcessInfo>,
    books: Books)

  datatype Outcome = Outcome(db: Db, r: Result<(), Error>)

  function Done(db: Db): Outcome { Outcome(db, Ok(())) }

  function Refused(db: Db, e: Error): Outcome { Outcome(db, Err(e)) }

  // Vote statuses

  /** Done is final; every other change goes through, valid or not. */
  function SetStatus(m: Statuses, k: VerifiedKey, s: Status): Statuses {
    if k in m && m[k] == StatusDone then m else m[k := s]
  }

  function SetStatuses(m: Statuses, p: ProcessID, ballots: seq<AggregatorBallot>, s: Status): Statuses {
    if |ballots| == 0 then m
    else SetStatus(SetStatuses(m, p, ballots[..|ballots| - 1], s), VerifiedKey(p, ballots[|ballots| - 1].voteID), s)
  }

  function StatusesDone(m: Statuses, p: ProcessID, ids: seq<VoteID>): Statuses {
    if |ids| == 0 then m
    else StatusesDone(m, p, ids[..|ids| - 1])[VerifiedKey(p, ids[|ids| - 1]) := StatusDone]
  }

  function TimedOut(m: Statuses, p: ProcessID): Statuses {
    map k | k in m :: if k.processID == p && m[k] != StatusDone then StatusTimeout else m[k]
  }

  /** The status as read: a done vote in the confirmed state counts as settled. */
  function StatusOf(db: Db, k: VerifiedKey): Result<Status, Error> {
    if k !in db.statuses then Err(NotFound)
    else if db.statuses[k] == StatusDone then
      if k.processID !in db.info then Err(NotFound)
      else
        match db.info[k.processID].confirmed
        case Some(ids) => if k.voteID in ids then Ok(StatusSettled) else Ok(StatusDone)
        case None => Ok(StatusDone)
    else Ok(db.statuses[k])
  }

  // Pending ballots

  function PendingLock(b: PendingBallot): AddressLock {
    (b.processID, b.address)
  }

  function PushPending(db: Db, b: PendingBallot): Outcome {
    if b.voteID in db.voteLocks then Refused(db, VoteIDProcessing)
    else if PendingLock(b) in db.addressLocks then Refused(db, AddressProcessing)
    else if b.voteID in db.pending then Refused(db, BallotAlreadyExists)
    else Done(db.(
      pending := db.pending[b.voteID := b],
      voteLocks := db.voteLocks + {b.voteID},
      addressLocks := db.addressLocks + {PendingLock(b)},
      books := Updated(db.books, b.processID, [PendingVotes(1)]),
      statuses := SetStatus(db.statuses, VerifiedKey(b.processID, b.voteID), StatusPending)))
  }

  function ReservePending(db: Db, v: VoteID): Db {
    db.(reservedPending := db.reservedPending + {v})
  }

  function ReleasePending(db: Db, v: VoteID): Db {
    db.(reservedPending := db.reservedPending - {v})
  }

  function RemovePending(db: Db, p: ProcessID, v: VoteID): Db {
    var known := v in db.pending;
    db.(
      pending := db.pending - {v},
      reservedPending := db.reservedPending - {v},
      voteLocks := if known then db.voteLocks - {db.pending[v].voteID} else db.voteLocks,
      addressLocks := if known then db.addressLocks - {PendingLock(db.pending[v])} else db.addressLocks,
      books := Updated(db.books, p, [PendingVotes(-1)]),
      statuses := SetStatus(db.statuses, VerifiedKey(p, v), StatusError))
  }

  function PendingOf(db: Db, p: ProcessID): set<VoteID> {
    set v | v in db.pending && db.pending[v].processID == p
  }

  /** The vote IDs the entries carry, which are the keys they are removed under. */
  function IDsOf(db: Db, entries: set<VoteID>): set<VoteID>
    requires entries <= db.pending.Keys
  {
    set v | v in entries :: db.pending[v].voteID
  }

  /** Removes the ballots of the given entries, with their reservations and locks. */
  function WithoutPending(db: Db, entries: set<VoteID>): Db
    requires entries <= db.pending.Keys
  {
    var ids := IDsOf(db, entries);
    db.(
      pending := db.pending - ids,
      reservedPending := db.reservedPending - ids,
      voteLocks := db.voteLocks - ids,
      addressLocks := db.addressLocks - set v | v in entries :: PendingLock(db.pending[v]))
  }

  /** The pending counter taken down by one, n times. */
  function Discounted(b: Books, p: ProcessID, n: nat): Books {
    if n == 0 then b else Updated(Discounted(b, p, n - 1), p, [PendingVotes(-1)])
  }

  function RemovePendingByProcess(db: Db, p: ProcessID): Db {
    WithoutPending(db, PendingOf(db, p)).(books := Discounted(db.books, p, |PendingOf(db, p)|))
  }

  // Verified ballots

  /** Moves a ballot to the verified queue; one that is no longer pending is stored under its own process. */
  function MarkVerified(db: Db, v: VoteID, vb: Option<VerifiedBallot>): Outcome {
    if vb.None? then Refused(db, Failure("verified ballot is nil"))
    else
      var found := v in db.pending;
      if !found && !ValidProcessID(vb.value.processID) then Refused(db, Failure("invalid process ID"))
      else
        var p := if found then db.pending[v].processID else vb.value.processID;
        var moved := db.(
          verified := db.verified[VerifiedKey(p, v) := vb.value.(processID := p)],
          reservedPending := db.reservedPending - {v},
          pending := db.pending - {v});
        var updates := [VerifiedVotes(1), CurrentBatchSize(1)] + if found then [PendingVotes(-1)] else [];
        match UpdateStats(db.books, p, updates)
        case Err(e) => Refused(moved, Failure(e))
        case Ok(books) =>
          Done(moved.(books := books, statuses := SetStatus(db.statuses, VerifiedKey(p, v), StatusVerified)))
  }

  function ReserveVerified(db: Db, keys: set<VerifiedKey>): Db {
    db.(reservedVerified := db.reservedVerified + keys)
  }

  function ReleaseVerified(db: Db, keys: seq<VerifiedKey>): Db {
    db.(reservedVerified := db.reservedVerified - set k | k in keys)
  }

  function LockOf(b: VerifiedBallot): AddressLock {
    (b.processID, b.address)
  }

  /** Removes verified ballots with their reservations and locks; unknown keys only lose their reservation. */
  function WithoutVerified(db: Db, keys: set<VerifiedKey>): Db {
    db.(
      verified := db.verified - keys,
      reservedVerified := db.reservedVerified - keys,
      voteLocks := db.voteLocks - set k | k in keys && k in db.verified :: db.verified[k].voteID,
      addressLocks := db.addressLocks - set k | k in keys && k in db.verified :: LockOf(db.verified[k]))
  }

  function VerifiedOf(db: Db, p: ProcessID): set<VerifiedKey> {
    set k | k in db.verified && k.processID == p
  }

  function RemoveVerifiedByProcess(db: Db, p: ProcessID): Db {
    WithoutVerified(db, VerifiedOf(db, p))
  }

  function VerifiedDone(db: Db, keys: seq<VerifiedKey>): Db {
    WithoutVerified(db, set k | k in keys)
  }

  /** The counts of failed ballots that were really in verified status, per process. */
  type Counts = map<ProcessID, int>

  function CountOne(c: Counts, p: ProcessID): Counts {
    c[p := 1 + if p in c then c[p] else 0]
  }

  function FailVerified(db: Db, k: VerifiedKey): Db {
    if k !in db.verified then db
    else
      var b := db.verified[k];
      WithoutVerified(db, {k}).(
        statuses := SetStatus(db.statuses, VerifiedKey(b.processID, b.voteID), StatusError))
  }

  function FailCounts(db: Db, c: Counts, k: VerifiedKey): Counts {
    if k in db.verified
       && StatusOf(db, VerifiedKey(db.verified[k].processID, db.verified[k].voteID)) == Ok(StatusVerified)
    then CountOne(c, db.verified[k].processID)
    else c
  }

  function FailAllVerified(db: Db, keys: seq<VerifiedKey>): (Db, Counts) {
    if |keys| == 0 then (db, map[])
    else
      var (before, c) := FailAllVerified(db, keys[..|keys| - 1]);
      var k := keys[|keys| - 1];
      (FailVerified(before, k), FailCounts(before, c, k))
  }

  /** Takes the failed ballots off the counters, process by process in the given order. */
  function FailBooks(b: Books, c: Counts, order: seq<ProcessID>): Books {
    if |order| == 0 then b
    else
      var before := FailBooks(b, c, order[..|order| - 1]);
      var p := order[|order| - 1];
      if p in c && c[p] > 0 then Updated(before, p, [VerifiedVotes(-c[p]), CurrentBatchSize(-c[p])]) else before
  }

  function VerifiedFailed(db: Db, keys: seq<VerifiedKey>, order: seq<ProcessID>): Db {
    var (after, c) := FailAllVerified(db, keys);
    after.(books := FailBooks(after.books, c, order))
  }

  // Aggregated batches

  function PushAggregator(db: Db, batch: AggregatorBatch): Outcome {
    var n := |batch.ballots|;
    var queued := db.(aggregated := db.aggregated + {batch});
    match UpdateStats(db.books, batch.processID, [AggregatedVotes(n), LastBatchSize(n), CurrentBatchSize(-n)])
    case Err(e) => Refused(queued, Failure(e))
    case Ok(books) =>
      Done(queued.(books := books,
                   statuses := SetStatuses(db.statuses, batch.processID, batch.ballots, StatusAggregated)))
  }

  function WithoutAggregated(db: Db, gone: set<AggregatorBatch>): Db {
    db.(aggregated := db.aggregated - gone, reservedAggregated := db.reservedAggregated - gone)
  }

  function RemoveAggregatorByProcess(db: Db, p: ProcessID): Db {
    WithoutAggregated(db, set b | b in db.aggregated && b.processID == p)
  }

  function AggregatorDone(db: Db, batch: AggregatorBatch): Db {
    WithoutAggregated(db, {batch})
  }

  /** Marks the first n ballots of a batch as failed, counting those in aggregated status or in none. */
  function FailAggregated(db: Db, batch: AggregatorBatch, n: nat): (Db, int)
    requires n <= |batch.ballots|
  {
    if n == 0 then (db, 0)
    else
      var (before, c) := FailAggregated(db, batch, n - 1);
      var k := VerifiedKey(batch.processID, batch.ballots[n - 1].voteID);
      var counted := StatusOf(before, k).Err? || StatusOf(before, k) == Ok(StatusAggregated);
      (before.(statuses := SetStatus(before.statuses, k, StatusError),
               voteLocks := before.voteLocks - {k.voteID}),
       if counted then c + 1 else c)
  }

  function AggregatorFailed(db: Db, batch: AggregatorBatch): Outcome {
    if batch !in db.aggregated then Refused(db, NotFound)
    else
      var (failed, n) := FailAggregated(db, batch, |batch.ballots|);
      var books := if n > 0 then Updated(db.books, batch.processID, [AggregatedVotes(-n), CurrentBatchSize(n)])
                   else db.books;
      Done(WithoutAggregated(failed, {batch}).(books := books))
  }

  function Signed64(x: int): int {
    var m := x % UINT64_LIMIT;
    if m >= UINT64_LIMIT / 2 then m - UINT64_LIMIT else m
  }

  /** 1 << uint(n) in 64-bit arithmetic: a negative n becomes a shift past the end. */
  function ShiftedOne(n: int): int {
    var places := n % UINT64_LIMIT;
    if places >= 64 then 0 else Signed64(Pow2(places))
  }

  /** Seconds a failed batch waits, at most 300. */
  function Cooldown(attempts: int): int {
    var seconds := Signed64(30 * ShiftedOne(attempts - 1));
    if seconds < 300 then seconds else 300
  }

  /** A batch may be taken if it never failed or its cooldown is over. */
  predicate Rested(batch: AggregatorBatch, now: int) {
    batch.lastAttempt.Some? ==> now - batch.lastAttempt.value >= Cooldown(batch.attempts)
  }

  function ReserveAggregated(db: Db, batch: AggregatorBatch): Db {
    db.(reservedAggregated := db.reservedAggregated + {batch})
  }

  /** One pending batch per process. */
  function MarkPending(db: Db, batch: AggregatorBatch): Outcome {
    if batch.processID in db.pendingAgg then Refused(db, KeyAlreadyExists)
    else Done(db.(pendingAgg := db.pendingAgg[batch.processID := batch]))
  }

  // State transitions

  function PushTransition(db: Db, t: TransitionBatch): Outcome {
    var queued := db.(transitions := db.transitions + {t});
    match UpdateStats(db.books, t.processID, [StateTransitions(1)])
    case Err(e) => Refused(queued, Failure(e))
    case Ok(books) =>
      Done(queued.(books := books, statuses := SetStatuses(db.statuses, t.processID, t.ballots, StatusProcessed)))
  }

  function ReserveTransition(db: Db, t: TransitionBatch): Db {
    db.(reservedTransitions := db.reservedTransitions + {t})
  }

  function WithoutTransitions(db: Db, gone: set<TransitionBatch>): Db {
    db.(transitions := db.transitions - gone, reservedTransitions := db.reservedTransitions - gone)
  }

  function RemoveTransitionsByProcess(db: Db, p: ProcessID): Db {
    WithoutTransitions(db, set t | t in db.transitions && t.processID == p)
  }

  function IDList(ballots: seq<AggregatorBallot>): (r: seq<VoteID>)
    ensures |r| == |ballots| && forall i :: 0 <= i < |r| ==> r[i] == ballots[i].voteID
  {
    seq(|ballots|, i requires 0 <= i < |ballots| => ballots[i].voteID)
  }

  /** Settles a confirmed transition; the pending batch is released even when the transition is gone. */
  function TransitionDone(db: Db, t: TransitionBatch, p: ProcessID): Db {
    var settled :=
      if t in db.transitions then
        db.(voteLocks := db.voteLocks - VoteIDs(t.ballots),
            statuses := StatusesDone(db.statuses, p, IDList(t.ballots)))
      else db;
    WithoutTransitions(settled, {t}).(
      pendingAgg := db.pendingAgg - {p},
      books := Updated(db.books, p, [SettledStateTransitions(1), LastTransitionDate]))
  }

  /** Drops a transition whose root no longer matches, and queues its batch again. */
  function TransitionOutdated(db: Db, t: TransitionBatch): Outcome {
    if t !in db.transitions then Done(db.(reservedTransitions := db.reservedTransitions - {t}))
    else
      var dropped := WithoutTransitions(db, {t});
      var pruned := if ValidProcessID(t.processID) then dropped.(pendingTx := db.pendingTx - {t.processID}) else dropped;
      var requeued :=
        if ValidProcessID(t.processID) && t.processID in db.pendingAgg
        then PushAggregator(pruned.(pendingAgg := db.pendingAgg - {t.processID}), db.pendingAgg[t.processID])
        else Done(pruned);
      if requeued.r.Err? then requeued
      else if t.batchID.Some?
      then Done(requeued.db.(reservedAggregated := requeued.db.reservedAggregated - {t.batchID.value}))
      else requeued
  }

  const MAX_STATE_TRANSITION_ATTEMPTS: int := 5

  /** The ballots whose vote is not in the confirmed state. */
  function Unconfirmed(ballots: seq<AggregatorBallot>, ids: set<VoteID>): (r: seq<AggregatorBallot>) {
    if |ballots| == 0 then []
    else
      var before := Unconfirmed(ballots[..|ballots| - 1], ids);
      var b := ballots[|ballots| - 1];
      if b.voteID in ids then before else before + [b]
  }

  function Confirmed(ballots: seq<AggregatorBallot>, ids: set<VoteID>): (r: seq<AggregatorBallot>) {
    if |ballots| == 0 then []
    else
      var before := Confirmed(ballots[..|ballots| - 1], ids);
      var b := ballots[|ballots| - 1];
      if b.voteID in ids then before + [b] else before
  }

  /** The batch as queued again after a failure. */
  function Retried(batch: AggregatorBatch, ballots: seq<AggregatorBallot>, now: int): AggregatorBatch {
    batch.(ballots := ballots, attempts := batch.attempts + 1, lastAttempt := Some(now))
  }

  /** A failed transition with a pending batch: retried, given up, or an error. */
  function Retry(db: Db, t: TransitionBatch, p: ProcessID, batch: AggregatorBatch, now: int): Outcome {
    if batch.attempts + 1 >= MAX_STATE_TRANSITION_ATTEMPTS then
      Done(db.(statuses := SetStatuses(db.statuses, p, t.ballots, StatusError)))
    else if t.processID !in db.info then Refused(db, Failure("failed to get process for validation"))
    else if !Accepting(db.info[t.processID]) then
      Done(db.(statuses := SetStatuses(db.statuses, t.processID, t.ballots, StatusError)))
    else
      match db.info[t.processID].confirmed
      case None => Refused(db, Failure("failed to load state"))
      case Some(ids) =>
        var valid := Unconfirmed(t.ballots, ids);
        var marked := db.(statuses := SetStatuses(db.statuses, t.processID, Confirmed(t.ballots, ids), StatusError));
        if valid == [] then Done(marked)
        else PushAggregator(marked, Retried(batch, valid, now))
  }

  /** Whatever else happens, the transition and the pending transaction mark are gone afterwards. */
  function TransitionFailed(db: Db, t: TransitionBatch, p: ProcessID, now: int): Outcome {
    if t !in db.transitions then Done(db)
    else
      var outcome :=
        if p in db.pendingAgg then Retry(db.(pendingAgg := db.pendingAgg - {p}), t, p, db.pendingAgg[p], now)
        else Done(db.(statuses := SetStatuses(db.statuses, p, t.ballots, StatusError)));
      Outcome(WithoutTransitions(outcome.db, {t}).(pendingTx := outcome.db.pendingTx - {p}), outcome.r)
  }

  function SetPendingTx(db: Db, p: ProcessID): Db {
    db.(pendingTx := db.pendingTx + {p})
  }

  function PrunePendingTx(db: Db, p: ProcessID): Db {
    db.(pendingTx := db.pendingTx - {p})
  }

  // Cleaning up and restarting

  /** An ended process loses its queues, reservations and locks; unfinished votes time out. */
  function CleanupEnded(db: Db, p: ProcessID): Db {
    var noPending := WithoutPending(db, PendingOf(db, p));
    var noVerified := RemoveVerifiedByProcess(noPending, p);
    var noBatches := RemoveTransitionsByProcess(RemoveAggregatorByProcess(noVerified, p), p);
    noBatches.(statuses := TimedOut(db.statuses, p))
  }

  /** Reservations that grew too old, whichever they are. */
  datatype Stale = Stale(pending: set<VoteID>, verified: set<VerifiedKey>,
                         aggregated: set<AggregatorBatch>, transitions: set<TransitionBatch>)

  function Expired(db: Db, s: Stale): Db {
    db.(
      reservedPending := db.reservedPending - s.pending,
      reservedVerified := db.reservedVerified - s.verified,
      reservedAggregated := db.reservedAggregated - s.aggregated,
      reservedTransitions := db.reservedTransitions - s.transitions)
  }

  function LocksOfVerified(db: Db): set<AddressLock> {
    set k | k in db.verified :: LockOf(db.verified[k])
  }

  function LocksOfAggregated(db: Db): set<AddressLock> {
    set b, a | b in db.aggregated && a in b.ballots :: (b.processID, a.address)
  }

  function VotesOfVerified(db: Db): set<VoteID> {
    set k | k in db.verified :: db.verified[k].voteID
  }

  function VotesOfAggregated(db: Db): set<VoteID> {
    set b, a | b in db.aggregated && a in b.ballots :: a.voteID
  }

  /** Sets every one of the keys to error unless it holds one of the kept statuses. */
  function FailKeys(m: Statuses, keys: set<VerifiedKey>, kept: set<Status>): Statuses {
    map k | k in m.Keys + keys :: if k in keys && !(k in m && m[k] in kept) then StatusError else m[k]
  }

  function VerifiedStatusKeys(db: Db): set<VerifiedKey> {
    set k | k in db.verified :: VerifiedKey(db.verified[k].processID, db.verified[k].voteID)
  }

  function AggregatedStatusKeys(db: Db): set<VerifiedKey> {
    set b, a | b in db.aggregated && a in b.ballots :: VerifiedKey(b.processID, a.voteID)
  }

  function TransitionStatusKeys(db: Db): set<VerifiedKey> {
    set t, a | t in db.transitions && a in t.ballots :: VerifiedKey(t.processID, a.voteID)
  }

  function VotesOfTransitions(db: Db): set<VoteID> {
    set t, a | t in db.transitions && a in t.ballots :: a.voteID
  }

  /** Some list of counter updates, each for some process. */
  function Posted(b: Books, entries: seq<(ProcessID, seq<Update>)>): Books {
    if |entries| == 0 then b
    else Updated(Posted(b, entries[..|entries| - 1]), entries[|entries| - 1].0, entries[|entries| - 1].1)
  }

  const KEPT_VERIFIED: set<Status> := {StatusDone, StatusSettled}
  const KEPT_AGGREGATED: set<Status> := {StatusDone}
  const KEPT_TRANSITIONS: set<Status> := {StatusDone, StatusSettled, StatusProcessed}

  function CleanedVerified(db: Db): Db {
    db.(
      verified := map[],
      reservedVerified := db.reservedVerified - db.verified.Keys,
      voteLocks := db.voteLocks - VotesOfVerified(db),
      addressLocks := db.addressLocks - LocksOfVerified(db),
      statuses := FailKeys(db.statuses, VerifiedStatusKeys(db), KEPT_VERIFIED))
  }

  function CleanedAggregated(db: Db): Db {
    db.(
      aggregated := {},
      reservedAggregated := db.reservedAggregated - db.aggregated,
      voteLocks := db.voteLocks - VotesOfAggregated(db),
      statuses := FailKeys(db.statuses, AggregatedStatusKeys(db), KEPT_AGGREGATED))
  }

  function CleanedTransitions(db: Db): Db {
    db.(
      transitions := {},
      reservedTransitions := db.reservedTransitions - db.transitions,
      voteLocks := db.voteLocks - VotesOfTransitions(db),
      statuses := FailKeys(db.statuses, TransitionStatusKeys(db), KEPT_TRANSITIONS))
  }

  /** Everything verified, aggregated or in transition is dropped, for all processes. */
  function CleanedAll(db: Db, entries: seq<(ProcessID, seq<Update>)>): Db {
    CleanedTransitions(CleanedAggregated(CleanedVerified(db))).(books := Posted(db.books, entries))
  }

  /** A restart forgets the locks, clears the reservations, and locks again what is verified or aggregated. */
  function Recovered(db: Db): Db {
    db.(
      reservedPending := {},
      reservedVerified := {},
      reservedAggregated := {},
      reservedTransitions := {},
      voteLocks := VotesOfVerified(db) + VotesOfAggregated(db),
      addressLocks := LocksOfVerified(db) + LocksOfAggregated(db))
  }

  const EMPTY: Db := Db(map[], map[], {}, map[], {}, {}, {}, {}, {}, {}, {}, map[], {}, map[], Books(map[], NO_TOTALS))

  function NewProcess(db: Db, p: ProcessID, info: ProcessInfo): Outcome {
    if p in db.info then Refused(db, Failure("process already exists"))
    else Done(db.(info := db.info[p := info], books := db.books.(stats := db.books.stats[p := NO_STATS])))
  }
}
