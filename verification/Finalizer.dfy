/** Decrypting the final results: the search bound, and why the search finds the exact tally. */
module Finalizer {
  import opened Wrappers
  import opened Arithmetic
  import opened Algebra
  import opened Params
  import opened Packing
  import opened Ballots
  import opened Tree
  import opened Votes
  import opened Staging
  import opened TallyInvariant
  import opened Elgamal

  const MAX_POSSIBLE_RESULT_CAP: nat := 1_000_000_000_000

  datatype Process = Process(votersCount: Option<int>, ballotMode: BallotMode)

  /** The bound in 64-bit arithmetic, the product taken modulo 2^64. */
  function MaxPossibleResult(process: Option<Process>): nat {
    if process.None? then MAX_POSSIBLE_RESULT_CAP
    else if process.value.votersCount.None? then 0
    else
      var votersCount := process.value.votersCount.value;
      if !(0 <= votersCount < UINT64_LIMIT) then MAX_POSSIBLE_RESULT_CAP
      else
        var maxValue := process.value.ballotMode.maxValue;
        if votersCount == 0 || maxValue == 0 then 0
        else if maxValue > MAX_POSSIBLE_RESULT_CAP / votersCount then MAX_POSSIBLE_RESULT_CAP
        else (maxValue * votersCount) % UINT64_LIMIT
  }

  function Min(a: int, b: int): int {
    if a <= b then a else b
  }

  /**
   The bound is the capped product for every 64-bit count, so the 64-bit
   product never wraps. For other counts it is the cap, which is the capped
   product exactly when the count is too large and the maximum value is not 0.
   */
  lemma BoundIsCappedProduct(p: Process)
    requires p.votersCount.Some?
    ensures var count := p.votersCount.value;
            MaxPossibleResult(Some(p)) == Min(MAX_POSSIBLE_RESULT_CAP, count * p.ballotMode.maxValue)
            <==> 0 <= count < UINT64_LIMIT || (count >= UINT64_LIMIT && p.ballotMode.maxValue > 0)
    ensures MaxPossibleResult(Some(p)) <= MAX_POSSIBLE_RESULT_CAP
  {
    var count, maxValue := p.votersCount.value, p.ballotMode.maxValue;
    if 0 < count < UINT64_LIMIT && maxValue > 0 {
      QuotientBound(maxValue, MAX_POSSIBLE_RESULT_CAP, count);
    } else if count >= UINT64_LIMIT && maxValue > 0 {
      ProductOrder(UINT64_LIMIT, 1, count, maxValue);
    } else if count < 0 {
      assert count * maxValue <= 0;
    }
  }

  /** Dividing instead of multiplying decides the same comparison. */
  lemma QuotientBound(v: nat, cap: nat, n: nat)
    requires n > 0
    ensures v > cap / n <==> v * n > cap
  {
    var q := cap / n;
    assert cap == q * n + cap % n;
    if v > q {
      ProductOrder(q + 1, n, v, n);
      assert (q + 1) * n == q * n + n;
    } else {
      ProductOrder(v, n, q, n);
    }
  }

  /** What the voters encrypted in field `i`: one message per stored ballot. */
  ghost predicate Messages(c: Curve, gen: Point, d: nat, leaves: Leaves, i: nat, messages: map<nat, int>)
    requires i < FIELDS_PER_BALLOT
  {
    && messages.Keys == BallotsOf(leaves).Keys
    && (forall k :: k in messages ==> messages[k] >= 0 && Encrypts(c, gen, d, BallotsOf(leaves)[k][i], messages[k]))
  }

  /** The sum of what the voters encrypted. */
  ghost function Total(messages: map<nat, int>): int {
    SumTo(INTEGERS, messages, BALLOT_MAX + 1)
  }

  /** A sum of ballots encrypts, field by field, the sum of what the ballots encrypt. */
  lemma {:induction false} SumEncryptsSum(c: Curve, gen: Point, d: nat, ballots: map<nat, Ballot>,
                                          messages: map<nat, int>, i: nat, n: nat)
    requires c.Lawful() && BallotGroup(c).Lawful() && c.has(gen) && i < FIELDS_PER_BALLOT
    requires Within(BallotGroup(c), ballots) && messages.Keys == ballots.Keys
    requires forall k :: k in ballots ==> messages[k] >= 0 && Encrypts(c, gen, d, ballots[k][i], messages[k])
    ensures SumTo(INTEGERS, messages, n) >= 0
    ensures Encrypts(c, gen, d, SumTo(BallotGroup(c), ballots, n)[i], SumTo(INTEGERS, messages, n))
  {
    hide PlainPoint;
    if n == 0 {
      PlainPointOfZero(c, d);
    } else {
      SumEncryptsSum(c, gen, d, ballots, messages, i, n - 1);
      if n - 1 in ballots {
        SumToIsIn(BallotGroup(c), ballots, n - 1);
        EncryptionsAdd(c, gen, d, SumTo(BallotGroup(c), ballots, n - 1)[i], ballots[n - 1][i],
                       SumTo(INTEGERS, messages, n - 1), messages[n - 1]);
      }
    }
  }

  ghost function Below(messages: map<nat, int>, n: nat): set<nat> {
    set k | k in messages && k < n
  }

  lemma BelowStep(messages: map<nat, int>, n: nat)
    ensures |Below(messages, n + 1)| == |Below(messages, n)| + if n in messages then 1 else 0
  {
    if n in messages {
      assert Below(messages, n + 1) == Below(messages, n) + {n};
    } else {
      assert Below(messages, n + 1) == Below(messages, n);
    }
  }

  lemma {:induction false} SumIsBounded(messages: map<nat, int>, max: nat, n: nat)
    requires forall k :: k in messages ==> 0 <= messages[k] <= max
    ensures 0 <= SumTo(INTEGERS, messages, n) <= |Below(messages, n)| * max
  {
    hide Below;
    if n > 0 {
      SumIsBounded(messages, max, n - 1);
      BelowStep(messages, n - 1);
      assert (|Below(messages, n - 1)| + 1) * max == |Below(messages, n - 1)| * max + max;
    }
  }

  /**
   Each field of balanced results decrypts to the exact sum of what the voters
   encrypted, and that sum is within the search bound.
   */
  lemma ResultsDecryptWithinBound(c: Curve, gen: Point, d: nat, leaves: Leaves, i: nat,
                                  messages: map<nat, int>, p: Process)
    requires c.Lawful() && c.has(gen) && i < FIELDS_PER_BALLOT
    requires Balanced(c, leaves) && Messages(c, gen, d, leaves, i, messages)
    requires forall k :: k in messages ==> messages[k] <= p.ballotMode.maxValue
    requires p.votersCount.Some? && |BallotsOf(leaves)| <= p.votersCount.value < UINT64_LIMIT
    requires p.votersCount.value * p.ballotMode.maxValue <= MAX_POSSIBLE_RESULT_CAP
    ensures 0 <= Total(messages) <= MaxPossibleResult(Some(p))
    ensures Encrypts(c, gen, d, LeafResults(leaves).value[i], Total(messages))
  {
    hide LeafResults, BallotsOf, Encrypts, WellFormedLeaf;
    BallotsAreLawful(c);
    ResultsAreIn(c, leaves);
    StoredBallotIsIn(c, leaves);
    SumEncryptsSum(c, gen, d, BallotsOf(leaves), messages, i, BALLOT_MAX + 1);
    SumIsBounded(messages, p.ballotMode.maxValue, BALLOT_MAX + 1);
    var counted := Below(messages, BALLOT_MAX + 1);
    SubsetIsSmaller(counted, messages.Keys);
    assert |messages.Keys| == |BallotsOf(leaves).Keys|;
    ProductOrder(|counted|, p.ballotMode.maxValue, p.votersCount.value, p.ballotMode.maxValue);
    BoundIsCappedProduct(p);
  }

  lemma SubsetIsSmaller(a: set<nat>, b: set<nat>)
    requires a <= b
    ensures |a| <= |b|
  {
    assert b == a + (b - a);
  }

  /** Decrypts the accumulator field by field; any field out of range is an error. */
  method DecryptResults(c: Curve, gen: Point, d: nat, results: Ballot, max: nat) returns (r: Result<seq<nat>, string>)
    requires c.Lawful() && c.has(gen) && OnCurve(c, results)
    requires max <= MAX_POSSIBLE_RESULT_CAP && OrderExceeds(c, gen, max)
    ensures r.Ok? <==> forall i :: 0 <= i < FIELDS_PER_BALLOT ==> HasLog(c, PlainPoint(c, d, results[i]), gen, max)
    ensures r.Ok? ==> |r.value| == FIELDS_PER_BALLOT
                      && forall i :: 0 <= i < FIELDS_PER_BALLOT ==>
                           r.value[i] <= max && Encrypts(c, gen, d, results[i], r.value[i])
  {
    hide PlainPoint, OrderExceeds, HasLog;
    var values: seq<nat> := [];
    for i := 0 to FIELDS_PER_BALLOT
      invariant |values| == i
      invariant forall j :: 0 <= j < i ==>
        && values[j] <= max && Encrypts(c, gen, d, results[j], values[j])
        && HasLog(c, PlainPoint(c, d, results[j]), gen, max)
    {
      PlainPointIsIn(c, d, results[i]);
      var found := DiscreteLog(c, PlainPoint(c, d, results[i]), gen, max);
      if found.None? {
        return Err("could not decrypt results accumulator");
      }
      values := values + [found.value];
    }
    r := Ok(values);
  }

  /** Whatever value the search finds for a field, it is the sum of what the voters encrypted. */
  lemma DecryptedIsTotal(c: Curve, gen: Point, d: nat, leaves: Leaves, i: nat,
                         messages: map<nat, int>, p: Process, found: nat)
    requires c.Lawful() && c.has(gen) && i < FIELDS_PER_BALLOT
    requires Balanced(c, leaves) && Messages(c, gen, d, leaves, i, messages)
    requires forall k :: k in messages ==> messages[k] <= p.ballotMode.maxValue
    requires p.votersCount.Some? && |BallotsOf(leaves)| <= p.votersCount.value < UINT64_LIMIT
    requires p.votersCount.value * p.ballotMode.maxValue <= MAX_POSSIBLE_RESULT_CAP
    requires OrderExceeds(c, gen, MaxPossibleResult(Some(p))) && found <= MaxPossibleResult(Some(p))
    requires Encrypts(c, gen, d, LeafResults(leaves).value[i], found)
    ensures found == Total(messages)
    ensures HasLog(c, PlainPoint(c, d, LeafResults(leaves).value[i]), gen, MaxPossibleResult(Some(p)))
  {
    hide Balanced, LeafResults, PlainPoint, MaxPossibleResult, OrderExceeds, Times;
    ResultsDecryptWithinBound(c, gen, d, leaves, i, messages, p);
    LogIsUnique(c, gen, found, Total(messages), MaxPossibleResult(Some(p)));
  }

  /**
   The decryption of a balanced state always succeeds, and field by field gives
   the sum of what the voters encrypted.
   */
  method FinalizeResults(c: Curve, gen: Point, d: nat, leaves: Leaves, p: Process, ghost messages: seq<map<nat, int>>)
    returns (r: Result<seq<nat>, string>)
    requires c.Lawful() && c.has(gen) && Balanced(c, leaves)
    requires OrderExceeds(c, gen, MAX_POSSIBLE_RESULT_CAP)
    requires |messages| == FIELDS_PER_BALLOT
    requires forall i :: 0 <= i < FIELDS_PER_BALLOT ==> Messages(c, gen, d, leaves, i, messages[i])
    requires forall i, k :: 0 <= i < FIELDS_PER_BALLOT && k in messages[i] ==> messages[i][k] <= p.ballotMode.maxValue
    requires p.votersCount.Some? && |BallotsOf(leaves)| <= p.votersCount.value < UINT64_LIMIT
    requires p.votersCount.value * p.ballotMode.maxValue <= MAX_POSSIBLE_RESULT_CAP
    ensures r.Ok? && |r.value| == FIELDS_PER_BALLOT
    ensures forall i :: 0 <= i < FIELDS_PER_BALLOT ==> r.value[i] == Total(messages[i])
  {
    hide PlainPoint, Times, MaxPossibleResult, Balanced, LeafResults, BallotsOf, Messages, Total;
    ReadableResults(c, leaves);
    BoundIsCappedProduct(p);
    var max := MaxPossibleResult(Some(p));
    var results := LeafResults(leaves).value;
    forall i | 0 <= i < FIELDS_PER_BALLOT
      ensures Total(messages[i]) >= 0 && Total(messages[i]) <= max && HasLog(c, PlainPoint(c, d, results[i]), gen, max)
    {
      ResultsDecryptWithinBound(c, gen, d, leaves, i, messages[i], p);
    }
    r := DecryptResults(c, gen, d, results, max);
    forall i | 0 <= i < FIELDS_PER_BALLOT ensures r.value[i] == Total(messages[i]) {
      DecryptedIsTotal(c, gen, d, leaves, i, messages[i], p, r.value[i]);
    }
  }

  lemma ReadableResults(c: Curve, leaves: Leaves)
    requires c.Lawful() && Balanced(c, leaves)
    ensures LeafResults(leaves).Ok? && OnCurve(c, LeafResults(leaves).value)
  {
  }
}
