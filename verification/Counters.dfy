/** Statistics per process and in total, and the rule that updates them. */
module Counters {
  import opened Wrappers
  import opened Algebra
  import opened Queues

  datatype Stats = Stats(stateTransitions: int, settled: int, aggregated: int, verified: int,
                         pending: int, lastBatchSize: int, currentBatchSize: int)

  datatype Totals = Totals(stateTransitions: int, settled: int, aggregated: int, verified: int, pending: int)

  const NO_STATS := Stats(0, 0, 0, 0, 0, 0, 0)
  const NO_TOTALS := Totals(0, 0, 0, 0, 0)

  datatype Update =
    | StateTransitions(delta: int)
    | SettledStateTransitions(delta: int)
    | AggregatedVotes(delta: int)
    | VerifiedVotes(delta: int)
    | PendingVotes(delta: int)
    | LastBatchSize(delta: int)
    | CurrentBatchSize(delta: int)
    | LastTransitionDate

  function Clamped(x: int): int {
    if x < 0 then 0 else x
  }

  function Counted(s: Stats, u: Update): Stats {
    match u
    case StateTransitions(d) => s.(stateTransitions := s.stateTransitions + d)
    case SettledStateTransitions(d) => s.(settled := s.settled + d)
    case AggregatedVotes(d) => s.(aggregated := s.aggregated + d)
    case VerifiedVotes(d) => s.(verified := s.verified + d)
    case PendingVotes(d) => s.(pending := Clamped(s.pending + d))
    case LastBatchSize(d) => s.(lastBatchSize := Clamped(d))
    case CurrentBatchSize(d) => s.(currentBatchSize := Clamped(s.currentBatchSize + d))
    case LastTransitionDate => s
  }

  /** The totals move with the process; a clamped pending counter takes off only what was there. */
  function Totalled(t: Totals, s: Stats, u: Update): Totals {
    match u
    case StateTransitions(d) => t.(stateTransitions := t.stateTransitions + d)
    case SettledStateTransitions(d) => t.(settled := t.settled + d)
    case AggregatedVotes(d) => t.(aggregated := t.aggregated + d)
    case VerifiedVotes(d) => t.(verified := t.verified + d)
    case PendingVotes(d) =>
      if s.pending + d < 0 then t.(pending := t.pending - s.pending) else t.(pending := t.pending + d)
    case LastBatchSize(_) => t
    case CurrentBatchSize(_) => t
    case LastTransitionDate => t
  }

  function CountedAll(s: Stats, us: seq<Update>): Stats {
    if |us| == 0 then s else Counted(CountedAll(s, us[..|us| - 1]), us[|us| - 1])
  }

  function TotalledAll(t: Totals, s: Stats, us: seq<Update>): Totals {
    if |us| == 0 then t
    else Totalled(TotalledAll(t, s, us[..|us| - 1]), CountedAll(s, us[..|us| - 1]), us[|us| - 1])
  }

  /** The counters of every process, and the totals. */
  datatype Books = Books(stats: map<ProcessID, Stats>, totals: Totals)

  /** An unknown process or an invalid identifier changes nothing; so does an empty list. */
  function UpdateStats(b: Books, p: ProcessID, us: seq<Update>): Result<Books, string> {
    if !ValidProcessID(p) then Err("invalid process ID")
    else if us == [] then Ok(b)
    else if p !in b.stats then Err("failed to get process for stats update")
    else Ok(Books(b.stats[p := CountedAll(b.stats[p], us)], TotalledAll(b.totals, b.stats[p], us)))
  }

  /** Callers that only log the error keep the old books. */
  function Updated(b: Books, p: ProcessID, us: seq<Update>): Books {
    var r := UpdateStats(b, p, us);
    if r.Ok? then r.value else b
  }

  method ApplyUpdates(b: Books, p: ProcessID, us: seq<Update>) returns (r: Result<Books, string>)
    ensures r == UpdateStats(b, p, us)
  {
    hide ValidProcessID;
    if !ValidProcessID(p) {
      return Err("invalid process ID");
    }
    if |us| == 0 {
      return Ok(b);
    }
    if p !in b.stats {
      return Err("failed to get process for stats update");
    }
    var s, t := b.stats[p], b.totals;
    for i := 0 to |us|
      invariant s == CountedAll(b.stats[p], us[..i]) && t == TotalledAll(b.totals, b.stats[p], us[..i])
    {
      assert us[..i + 1][..i] == us[..i];
      match us[i] {
        case StateTransitions(d) =>
          s := s.(stateTransitions := s.stateTransitions + d);
          t := t.(stateTransitions := t.stateTransitions + d);
        case SettledStateTransitions(d) =>
          s := s.(settled := s.settled + d);
          t := t.(settled := t.settled + d);
        case AggregatedVotes(d) =>
          s := s.(aggregated := s.aggregated + d);
          t := t.(aggregated := t.aggregated + d);
        case VerifiedVotes(d) =>
          s := s.(verified := s.verified + d);
          t := t.(verified := t.verified + d);
        case PendingVotes(d) =>
          var newValue := s.pending + d;
          if newValue < 0 {
            t := t.(pending := t.pending - s.pending);
            s := s.(pending := 0);
          } else {
            s := s.(pending := newValue);
            t := t.(pending := t.pending + d);
          }
        case LastBatchSize(d) =>
          s := s.(lastBatchSize := if d < 0 then 0 else d);
        case CurrentBatchSize(d) =>
          var newValue := s.currentBatchSize + d;
          s := s.(currentBatchSize := if newValue < 0 then 0 else newValue);
        case LastTransitionDate =>
      }
    }
    assert us[..|us|] == us;
    r := Ok(Books(b.stats[p := s], t));
  }

  // Conservation

  /** The totals the counters add up to, one column each. */
  ghost function Column(stats: map<ProcessID, Stats>, f: Stats -> int): map<nat, int> {
    map p: nat | p < PROCESS_ID_LIMIT && p in stats :: f(stats[p])
  }

  ghost function Sum(stats: map<ProcessID, Stats>, f: Stats -> int): int {
    SumTo(INTEGERS, Column(stats, f), PROCESS_ID_LIMIT)
  }

  const PENDING: Stats -> int := (s: Stats) => s.pending
  const VERIFIED: Stats -> int := (s: Stats) => s.verified
  const AGGREGATED: Stats -> int := (s: Stats) => s.aggregated
  const TRANSITIONS: Stats -> int := (s: Stats) => s.stateTransitions
  const SETTLED: Stats -> int := (s: Stats) => s.settled

  ghost predicate NonNegative(s: Stats) {
    s.pending >= 0 && s.lastBatchSize >= 0 && s.currentBatchSize >= 0
  }

  /** Every total is the sum of its column, and no clamped counter is negative. */
  ghost predicate Conserved(b: Books) {
    && b.totals.pending == Sum(b.stats, PENDING)
    && b.totals.verified == Sum(b.stats, VERIFIED)
    && b.totals.aggregated == Sum(b.stats, AGGREGATED)
    && b.totals.stateTransitions == Sum(b.stats, TRANSITIONS)
    && b.totals.settled == Sum(b.stats, SETTLED)
    && (forall p :: p in b.stats ==> NonNegative(b.stats[p]))
  }

  /** Each total moves by as much as its counter, clamped or not. */
  lemma {:induction false} TotalsFollow(t: Totals, s: Stats, us: seq<Update>)
    requires NonNegative(s)
    ensures var s', t' := CountedAll(s, us), TotalledAll(t, s, us);
            && NonNegative(s')
            && t'.pending - t.pending == s'.pending - s.pending
            && t'.verified - t.verified == s'.verified - s.verified
            && t'.aggregated - t.aggregated == s'.aggregated - s.aggregated
            && t'.stateTransitions - t.stateTransitions == s'.stateTransitions - s.stateTransitions
            && t'.settled - t.settled == s'.settled - s.settled
  {
    if |us| > 0 {
      TotalsFollow(t, s, us[..|us| - 1]);
    }
  }

  lemma SumMoves(stats: map<ProcessID, Stats>, p: ProcessID, s: Stats, f: Stats -> int)
    ensures Sum(stats[p := s], f) == Sum(stats, f) + f(s) - if p in stats then f(stats[p]) else 0
  {
    IntegersAreLawful();
    var c := Column(stats, f);
    assert Column(stats[p := s], f) == c[p := f(s)];
    SumToUpdate(INTEGERS, c, p, f(s), PROCESS_ID_LIMIT);
  }

  /** No list of updates, for any process, unbalances the books. */
  lemma UpdatesConserve(b: Books, p: ProcessID, us: seq<Update>)
    requires Conserved(b)
    ensures UpdateStats(b, p, us).Ok? ==> Conserved(UpdateStats(b, p, us).value)
    ensures Conserved(Updated(b, p, us))
  {
    hide ValidProcessID, Sum, CountedAll, TotalledAll;
    if UpdateStats(b, p, us).Ok? && us != [] {
      var s' := CountedAll(b.stats[p], us);
      TotalsFollow(b.totals, b.stats[p], us);
      SumMoves(b.stats, p, s', PENDING);
      SumMoves(b.stats, p, s', VERIFIED);
      SumMoves(b.stats, p, s', AGGREGATED);
      SumMoves(b.stats, p, s', TRANSITIONS);
      SumMoves(b.stats, p, s', SETTLED);
    }
  }

  /** A process that starts from zero keeps the books balanced. */
  lemma NewProcessConserves(b: Books, p: ProcessID)
    requires Conserved(b) && p !in b.stats
    ensures Conserved(b.(stats := b.stats[p := NO_STATS]))
  {
    hide Sum;
    SumMoves(b.stats, p, NO_STATS, PENDING);
    SumMoves(b.stats, p, NO_STATS, VERIFIED);
    SumMoves(b.stats, p, NO_STATS, AGGREGATED);
    SumMoves(b.stats, p, NO_STATS, TRANSITIONS);
    SumMoves(b.stats, p, NO_STATS, SETTLED);
  }

  lemma {:induction false} EmptyColumn(f: Stats -> int, n: nat)
    ensures SumTo(INTEGERS, Column(map[], f), n) == 0
  {
    if n > 0 {
      EmptyColumn(f, n - 1);
    }
  }

  lemma NothingIsConserved()
    ensures Conserved(Books(map[], NO_TOTALS))
  {
    EmptyColumn(PENDING, PROCESS_ID_LIMIT);
    EmptyColumn(VERIFIED, PROCESS_ID_LIMIT);
    EmptyColumn(AGGREGATED, PROCESS_ID_LIMIT);
    EmptyColumn(TRANSITIONS, PROCESS_ID_LIMIT);
    EmptyColumn(SETTLED, PROCESS_ID_LIMIT);
  }
}
