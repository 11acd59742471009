/** Choosing the ballots of a batch: every reserved ballot gets exactly one fate. */
module Selection {
  import opened Wrappers
  import opened Params
  import opened Ballots
  import opened Queues
  import opened Aggregator

  /** Everything the selection asks from outside. */
  datatype Context = Context(
    containsVoteID: VoteID -> bool,
    containsBallot: nat -> bool,
    maxVotersReached: bool,
    inSubGroup: VoteProof -> bool,
    verifies: Option<VerifiedBallot -> bool>,
    convert: VoteProof -> (RecursionProof, bool))

  /** Without a vote ID or an address a ballot is refused before anything else is looked at. */
  predicate Incomplete(b: Option<VerifiedBallot>) {
    b.None? || b.value.voteID == 0 || b.value.address.None?
  }

  /** With the voter limit reached, the census proof of a new vote is read, and its index must be a voter's. */
  predicate HasIndex(ctx: Context, b: Option<VerifiedBallot>) {
    !Incomplete(b) && !ctx.containsVoteID(b.value.voteID) && ctx.maxVotersReached ==>
      b.value.voterIndex.Some? && b.value.voterIndex.value <= VOTER_INDEX_MAX
  }

  /** A ballot that passes every check. */
  predicate Eligible(ctx: Context, b: Option<VerifiedBallot>): (r: bool)
    requires HasIndex(ctx, b)
    ensures r ==> !Incomplete(b)
  {
    && !Incomplete(b)
    && !ctx.containsVoteID(b.value.voteID)
    && (ctx.maxVotersReached ==> ctx.containsBallot(CalculateBallotIndex(b.value.voterIndex.value).value))
    && b.value.proof.Some?
    && b.value.inputsHash.Some?
    && ctx.inSubGroup(b.value.proof.value)
    && (ctx.verifies.Some? ==> ctx.verifies.value(b.value))
    && ctx.convert(b.value.proof.value).1
  }

  // What a ballot must meet, one demand at a time

  datatype Demand =
    | Identified | Addressed | NewVote | RoomForVoter | Proved | Hashed | InSubGroup | Verified | Convertible

  ghost predicate Meets(ctx: Context, b: VerifiedBallot, d: Demand) {
    match d
    case Identified => b.voteID != 0
    case Addressed => b.address.Some?
    case NewVote => !ctx.containsVoteID(b.voteID)
    case RoomForVoter =>
      // a voter past the limit may only overwrite
      ctx.maxVotersReached ==>
        b.voterIndex.Some? && 16 + b.voterIndex.value < 0x8000_0000_0000_0000 && ctx.containsBallot(16 + b.voterIndex.value)
    case Proved => b.proof.Some?
    case Hashed => b.inputsHash.Some?
    case InSubGroup => b.proof.Some? && ctx.inSubGroup(b.proof.value)
    case Verified => ctx.verifies == None || ctx.verifies.value(b)
    case Convertible => b.proof.Some? && ctx.convert(b.proof.value).1
  }

  ghost predicate Acceptable(ctx: Context, b: Option<VerifiedBallot>) {
    b.Some? && forall d :: Meets(ctx, b.value, d)
  }

  lemma EligibleIffAcceptable(ctx: Context, b: Option<VerifiedBallot>)
    requires HasIndex(ctx, b)
    ensures Eligible(ctx, b) <==> Acceptable(ctx, b)
  {
    if Eligible(ctx, b) {
      forall d ensures Meets(ctx, b.value, d) {
      }
    }
    if Acceptable(ctx, b) {
      assert Meets(ctx, b.value, Identified) && Meets(ctx, b.value, Addressed) && Meets(ctx, b.value, NewVote);
      assert Meets(ctx, b.value, RoomForVoter) && Meets(ctx, b.value, Proved) && Meets(ctx, b.value, Hashed);
      assert Meets(ctx, b.value, InSubGroup) && Meets(ctx, b.value, Verified) && Meets(ctx, b.value, Convertible);
    }
  }

  type Pulled = seq<Option<VerifiedBallot>>

  predicate Indexed(ctx: Context, ballots: Pulled) {
    forall i :: 0 <= i < |ballots| ==> HasIndex(ctx, ballots[i])
  }

  /** Among the first n: the first eligible ones, up to the batch size. */
  function Selected(ctx: Context, ballots: Pulled, n: nat): (r: seq<nat>)
    requires n <= |ballots| && Indexed(ctx, ballots)
    ensures |r| <= VOTES_PER_BATCH
    ensures forall k :: 0 <= k < |r| ==> r[k] < n && Eligible(ctx, ballots[r[k]])
  {
    if n == 0 then []
    else
      var before := Selected(ctx, ballots, n - 1);
      if |before| < VOTES_PER_BATCH && Eligible(ctx, ballots[n - 1]) then before + [n - 1] else before
  }

  /** Those looked at and refused. */
  function Rejected(ctx: Context, ballots: Pulled, n: nat): (r: seq<nat>)
    requires n <= |ballots| && Indexed(ctx, ballots)
    ensures forall k :: 0 <= k < |r| ==> r[k] < n && !Eligible(ctx, ballots[r[k]])
  {
    if n == 0 then []
    else
      var before := Rejected(ctx, ballots, n - 1);
      if |Selected(ctx, ballots, n - 1)| < VOTES_PER_BATCH && !Eligible(ctx, ballots[n - 1]) then before + [n - 1]
      else before
  }

  /** Those left over once the batch is full. */
  function LeftOver(ctx: Context, ballots: Pulled, n: nat): (r: seq<nat>)
    requires n <= |ballots| && Indexed(ctx, ballots)
    ensures forall k :: 0 <= k < |r| ==> r[k] < n
  {
    if n == 0 then []
    else
      var before := LeftOver(ctx, ballots, n - 1);
      if |Selected(ctx, ballots, n - 1)| == VOTES_PER_BATCH then before + [n - 1] else before
  }

  predicate Increasing(s: seq<nat>) {
    forall i, j :: 0 <= i < j < |s| ==> s[i] < s[j]
  }

  datatype Fate = Taken | Refusal | Spare

  /** Decided by the ballot and by how many were taken before it. */
  function FateOf(ctx: Context, ballots: Pulled, i: nat): Fate
    requires i < |ballots| && Indexed(ctx, ballots)
  {
    if |Selected(ctx, ballots, i)| == VOTES_PER_BATCH then Spare
    else if Eligible(ctx, ballots[i]) then Taken
    else Refusal
  }

  lemma {:induction false} SelectedAre(ctx: Context, ballots: Pulled, n: nat)
    requires n <= |ballots| && Indexed(ctx, ballots)
    ensures Increasing(Selected(ctx, ballots, n))
    ensures forall i :: 0 <= i < n ==> (i in Selected(ctx, ballots, n) <==> FateOf(ctx, ballots, i) == Taken)
  {
    hide Eligible;
    if n > 0 {
      SelectedAre(ctx, ballots, n - 1);
    }
  }

  lemma {:induction false} RejectedAre(ctx: Context, ballots: Pulled, n: nat)
    requires n <= |ballots| && Indexed(ctx, ballots)
    ensures Increasing(Rejected(ctx, ballots, n))
    ensures forall i :: 0 <= i < n ==> (i in Rejected(ctx, ballots, n) <==> FateOf(ctx, ballots, i) == Refusal)
  {
    hide Eligible, Selected;
    if n > 0 {
      RejectedAre(ctx, ballots, n - 1);
    }
  }

  lemma {:induction false} LeftOverAre(ctx: Context, ballots: Pulled, n: nat)
    requires n <= |ballots| && Indexed(ctx, ballots)
    ensures Increasing(LeftOver(ctx, ballots, n))
    ensures forall i :: 0 <= i < n ==> (i in LeftOver(ctx, ballots, n) <==> FateOf(ctx, ballots, i) == Spare)
  {
    hide Eligible, Selected;
    if n > 0 {
      LeftOverAre(ctx, ballots, n - 1);
    }
  }

  lemma {:induction false} FatesAddUp(ctx: Context, ballots: Pulled, n: nat)
    requires n <= |ballots| && Indexed(ctx, ballots)
    ensures |Selected(ctx, ballots, n)| + |Rejected(ctx, ballots, n)| + |LeftOver(ctx, ballots, n)| == n
  {
    hide Eligible;
    if n > 0 {
      FatesAddUp(ctx, ballots, n - 1);
    }
  }

  /** Every pulled ballot is in exactly one of the three lists, once, and order is kept within each. */
  lemma FatesPartition(ctx: Context, ballots: Pulled, i: nat)
    requires i < |ballots| && Indexed(ctx, ballots)
    ensures var n := |ballots|;
            var taken, refused, spare := Selected(ctx, ballots, n), Rejected(ctx, ballots, n), LeftOver(ctx, ballots, n);
            && Increasing(taken) && Increasing(refused) && Increasing(spare)
            && |taken| + |refused| + |spare| == n
            && (i in taken || i in refused || i in spare)
            && !(i in taken && i in refused) && !(i in taken && i in spare) && !(i in refused && i in spare)
  {
    hide Selected, Rejected, LeftOver, FateOf, Increasing;
    SelectedAre(ctx, ballots, |ballots|);
    RejectedAre(ctx, ballots, |ballots|);
    LeftOverAre(ctx, ballots, |ballots|);
    FatesAddUp(ctx, ballots, |ballots|);
  }

  lemma {:induction false} NothingLeftOver(ctx: Context, ballots: Pulled, n: nat)
    requires n <= |ballots| && Indexed(ctx, ballots) && |Selected(ctx, ballots, n)| < VOTES_PER_BATCH
    ensures LeftOver(ctx, ballots, n) == []
  {
    if n > 0 {
      NothingLeftOver(ctx, ballots, n - 1);
    }
  }

  function Range(a: nat, b: nat): (r: seq<nat>)
    requires a <= b
    ensures |r| == b - a && forall k :: 0 <= k < b - a ==> r[k] == a + k
  {
    seq(b - a, k requires 0 <= k => a + k)
  }

  lemma {:induction false} FullStops(ctx: Context, ballots: Pulled, m: nat, n: nat)
    requires m <= n <= |ballots| && Indexed(ctx, ballots) && |Selected(ctx, ballots, m)| == VOTES_PER_BATCH
    ensures Selected(ctx, ballots, n) == Selected(ctx, ballots, m)
    ensures Rejected(ctx, ballots, n) == Rejected(ctx, ballots, m)
    ensures LeftOver(ctx, ballots, n) == LeftOver(ctx, ballots, m) + Range(m, n)
  {
    if m < n {
      FullStops(ctx, ballots, m, n - 1);
      assert Range(m, n) == Range(m, n - 1) + [n - 1];
    }
  }

  // What happens to the keys

  datatype Event = Failed(key: VerifiedKey) | Released(key: VerifiedKey) {
    predicate Refuses(k: VerifiedKey) { this == Failed(k) || this == Released(k) }
  }

  /** The storage as the selection sees it: a log of what it was asked and did. */
  class AggregationStorage {
    var log: seq<Event>

    constructor ()
      ensures log == []
    {
      log := [];
    }

    /** May fail for reasons of its own. */
    method MarkVerifiedBallotsFailed(key: VerifiedKey) returns (ok: bool)
      modifies this
      ensures log == if ok then old(log) + [Failed(key)] else old(log)
    {
      ok := *;
      if ok {
        log := log + [Failed(key)];
      }
    }

    method ReleaseVerifiedBallotReservations(keys: seq<VerifiedKey>)
      modifies this
      ensures log == old(log) + Releases(keys)
    {
      for i := 0 to |keys|
        invariant log == old(log) + Releases(keys[..i])
      {
        log := log + [Released(keys[i])];
        assert Releases(keys[..i + 1]) == Releases(keys[..i]) + [Released(keys[i])];
      }
      assert keys[..|keys|] == keys;
    }
  }

  function Releases(keys: seq<VerifiedKey>): (r: seq<Event>)
    ensures |r| == |keys| && forall k :: 0 <= k < |keys| ==> r[k] == Released(keys[k])
  {
    seq(|keys|, k requires 0 <= k < |keys| => Released(keys[k]))
  }

  /** Marks one ballot as failed, and releases it if that fails. */
  method Refuse(stg: AggregationStorage, key: VerifiedKey) returns (ghost event: Event)
    modifies stg
    ensures stg.log == old(stg.log) + [event] && event.Refuses(key)
  {
    var ok := stg.MarkVerifiedBallotsFailed(key);
    event := Failed(key);
    if !ok {
      stg.ReleaseVerifiedBallotReservations([key]);
      event := Released(key);
    }
  }

  /** The keys at the given indices; a ballot without a key has nothing to refuse or release. */
  function KeysOf(keys: seq<VerifiedKey>, indices: seq<nat>): seq<VerifiedKey> {
    if |indices| == 0 then []
    else
      var last := indices[|indices| - 1];
      KeysOf(keys, indices[..|indices| - 1]) + if last < |keys| then [keys[last]] else []
  }

  /** The keys at consecutive indices are a stretch of the keys, cut where they run out. */
  lemma {:induction false} KeysOfRange(keys: seq<VerifiedKey>, a: nat, b: nat, indices: seq<nat>)
    requires a <= |keys| && a <= b
    requires |indices| == b - a && forall k :: 0 <= k < b - a ==> indices[k] == a + k
    ensures KeysOf(keys, indices) == if b <= |keys| then keys[a..b] else keys[a..]
  {
    if a < b {
      KeysOfRange(keys, a, b - 1, indices[..|indices| - 1]);
    }
  }

  lemma KeysToTheEnd(keys: seq<VerifiedKey>, a: nat, b: nat)
    requires a <= |keys| <= b
    ensures KeysOf(keys, [] + Range(a, b)) == keys[a..]
  {
    hide KeysOf;
    KeysOfRange(keys, a, b, [] + Range(a, b));
  }

  /** Keys may run out before the ballots do, as long as the ballots without a key are incomplete. */
  predicate Keyed(ballots: Pulled, keys: seq<VerifiedKey>) {
    && |keys| <= |ballots|
    && (forall i :: |keys| <= i < |ballots| ==> Incomplete(ballots[i]))
  }

  datatype AggregatorInputs = AggregatorInputs(
    proofs: seq<RecursionProof>,
    proofsInputHash: seq<Limbs>,
    aggBallots: seq<AggregatorBallot>,
    verifiedBallots: seq<VerifiedBallot>,
    processedKeys: seq<VerifiedKey>,
    proofsInputsHashInputs: seq<int>)

  /** Entry k of every list describes ballot b, whose key is `key`. */
  ghost predicate Describes(q: nat, ctx: Context, inputs: AggregatorInputs, k: nat,
                            b: Option<VerifiedBallot>, key: VerifiedKey)
    requires q > 0 && |inputs.proofs| == |inputs.proofsInputHash| == VOTES_PER_BATCH && k < VOTES_PER_BATCH
    requires k < |inputs.aggBallots| == |inputs.verifiedBallots|
    requires |inputs.processedKeys| == |inputs.proofsInputsHashInputs| == |inputs.aggBallots|
  {
    && b == Some(inputs.verifiedBallots[k])
    && b.value.proof.Some?
    && b.value.inputsHash == Some(inputs.proofsInputsHashInputs[k])
    && inputs.aggBallots[k] == AsAggregated(b.value)
    && inputs.processedKeys[k] == key
    && inputs.proofs[k] == ctx.convert(b.value.proof.value).0
    && inputs.proofsInputHash[k] == ValueOf(q, inputs.proofsInputsHashInputs[k])
  }

  /** All lists are as long as the choice, and entry k of each describes the k-th chosen ballot. */
  ghost predicate Aligned(q: nat, ctx: Context, ballots: Pulled, keys: seq<VerifiedKey>, chosen: seq<nat>,
                          inputs: AggregatorInputs)
    requires q > 0
  {
    && |inputs.proofs| == |inputs.proofsInputHash| == VOTES_PER_BATCH
    && |inputs.aggBallots| == |inputs.verifiedBallots| == |chosen| <= VOTES_PER_BATCH
    && |inputs.processedKeys| == |inputs.proofsInputsHashInputs| == |chosen|
    && (forall k :: 0 <= k < |chosen| ==>
          && chosen[k] < |ballots| && chosen[k] < |keys|
          && Describes(q, ctx, inputs, k, ballots[chosen[k]], keys[chosen[k]]))
  }

  ghost predicate InputsAligned(q: nat, ctx: Context, ballots: Pulled, keys: seq<VerifiedKey>, inputs: AggregatorInputs)
    requires q > 0 && Indexed(ctx, ballots)
  {
    Aligned(q, ctx, ballots, keys, Selected(ctx, ballots, |ballots|), inputs)
  }

  /** A proof left behind by a failed conversion is beyond every slot in use. */
  lemma GarbageIsBeyond(q: nat, ctx: Context, ballots: Pulled, keys: seq<VerifiedKey>, chosen: seq<nat>,
                        inputs: AggregatorInputs, garbage: RecursionProof)
    requires q > 0 && Aligned(q, ctx, ballots, keys, chosen, inputs) && |chosen| < VOTES_PER_BATCH
    ensures Aligned(q, ctx, ballots, keys, chosen, inputs.(proofs := inputs.proofs[|chosen| := garbage]))
  {
    hide ValueOf, AsAggregated;
    var after := inputs.(proofs := inputs.proofs[|chosen| := garbage]);
    forall k | 0 <= k < |chosen| ensures Describes(q, ctx, after, k, ballots[chosen[k]], keys[chosen[k]]) {
      assert Describes(q, ctx, inputs, k, ballots[chosen[k]], keys[chosen[k]]);
    }
  }

  /** The lists after taking one more ballot. */
  function Taking(q: nat, ctx: Context, inputs: AggregatorInputs, b: VerifiedBallot, key: VerifiedKey): AggregatorInputs
    requires q > 0 && b.proof.Some? && b.inputsHash.Some?
    requires |inputs.aggBallots| < VOTES_PER_BATCH == |inputs.proofs| == |inputs.proofsInputHash|
  {
    var n := |inputs.aggBallots|;
    AggregatorInputs(
      inputs.proofs[n := ctx.convert(b.proof.value).0],
      inputs.proofsInputHash[n := ValueOf(q, b.inputsHash.value)],
      inputs.aggBallots + [AsAggregated(b)],
      inputs.verifiedBallots + [b],
      inputs.processedKeys + [key],
      inputs.proofsInputsHashInputs + [b.inputsHash.value])
  }

  lemma TakingKeepsAlignment(q: nat, ctx: Context, ballots: Pulled, keys: seq<VerifiedKey>, chosen: seq<nat>,
                             inputs: AggregatorInputs, i: nat)
    requires q > 0 && Aligned(q, ctx, ballots, keys, chosen, inputs) && |chosen| < VOTES_PER_BATCH
    requires i < |ballots| && i < |keys| && ballots[i].Some? && ballots[i].value.proof.Some? && ballots[i].value.inputsHash.Some?
    ensures Aligned(q, ctx, ballots, keys, chosen + [i], Taking(q, ctx, inputs, ballots[i].value, keys[i]))
  {
    hide ValueOf, AsAggregated;
    var after := Taking(q, ctx, inputs, ballots[i].value, keys[i]);
    var now := chosen + [i];
    forall k | 0 <= k < |now| ensures Describes(q, ctx, after, k, ballots[now[k]], keys[now[k]]) {
      if k < |chosen| {
        assert Describes(q, ctx, inputs, k, ballots[chosen[k]], keys[chosen[k]]);
      }
    }
  }

  /** Each refused key was marked failed or released, once and in order. */
  ghost predicate RefusedKeys(events: seq<Event>, refused: seq<VerifiedKey>) {
    && |events| == |refused|
    && (forall k :: 0 <= k < |refused| ==> events[k].Refuses(refused[k]))
  }

  /** Refuses one more ballot, if it has a key. */
  method RefuseNext(stg: AggregationStorage, keys: seq<VerifiedKey>, i: nat,
                    ghost refusals: seq<Event>, ghost refused: seq<nat>) returns (ghost more: seq<Event>)
    requires RefusedKeys(refusals, KeysOf(keys, refused))
    modifies stg
    ensures stg.log == old(stg.log) + more
    ensures RefusedKeys(refusals + more, KeysOf(keys, refused + [i]))
  {
    hide Event.Refuses;
    assert (refused + [i])[..|refused|] == refused;
    more := [];
    if i < |keys| {
      ghost var event := Refuse(stg, keys[i]);
      more := [event];
    }
  }

  /** The batch is made of the ballots at the chosen positions, in order, with everything the aggregator keeps of them. */
  ghost predicate MadeOf(ballots: Pulled, keys: seq<VerifiedKey>, inputs: AggregatorInputs, chosen: seq<nat>) {
    && Increasing(chosen)
    && |chosen| == |inputs.verifiedBallots| == |inputs.aggBallots| == |inputs.processedKeys| <= 60
    && (forall k :: 0 <= k < |chosen| ==>
          && chosen[k] < |ballots| && chosen[k] < |keys|
          && ballots[chosen[k]] == Some(inputs.verifiedBallots[k]) && inputs.processedKeys[k] == keys[chosen[k]])
    && (forall k :: 0 <= k < |chosen| ==>
          var b, a := inputs.verifiedBallots[k], inputs.aggBallots[k];
          && a.voteID == b.voteID && a.address == b.address && a.weight == b.voterWeight
          && a.encryptedBallot == b.encryptedBallot && a.voterIndex == b.voterIndex)
  }

  /** The position was looked at: the batch was not yet full. */
  predicate Reached(chosen: seq<nat>, i: nat) {
    |chosen| < 60 || i <= chosen[59]
  }

  /** Exactly the keys at the given positions, as far as there are keys. */
  ghost predicate KeysAt(keys: seq<VerifiedKey>, picked: seq<VerifiedKey>, positions: set<nat>) {
    && (forall i :: i in positions && i < |keys| ==> keys[i] in picked)
    && (forall key :: key in picked ==> exists i :: i in positions && i < |keys| && keys[i] == key)
  }

  ghost function ChosenAt(ctx: Context, ballots: Pulled, chosen: seq<nat>): set<nat> {
    set i | 0 <= i < |ballots| && Reached(chosen, i) && Acceptable(ctx, ballots[i])
  }

  ghost function RefusedAt(ctx: Context, ballots: Pulled, chosen: seq<nat>): set<nat> {
    set i | 0 <= i < |ballots| && Reached(chosen, i) && !Acceptable(ctx, ballots[i])
  }

  ghost function SpareAt(ballots: Pulled, chosen: seq<nat>): set<nat> {
    set i | 0 <= i < |ballots| && !Reached(chosen, i)
  }

  /**
   The chosen ballots are the acceptable ones reached; the refused keys are those
   of the unacceptable ones reached; the spare keys are those of the rest.
   */
  ghost predicate Collected(ctx: Context, ballots: Pulled, keys: seq<VerifiedKey>, inputs: AggregatorInputs,
                            chosen: seq<nat>, refused: seq<VerifiedKey>, spare: seq<VerifiedKey>) {
    && |keys| <= |ballots| && MadeOf(ballots, keys, inputs, chosen)
    && (forall i :: i in chosen <==> i in ChosenAt(ctx, ballots, chosen))
    && KeysAt(keys, refused, RefusedAt(ctx, ballots, chosen))
    && KeysAt(keys, spare, SpareAt(ballots, chosen))
  }

  /** The checks before the proof is converted. */
  method Passes(ctx: Context, ballot: Option<VerifiedBallot>) returns (r: bool)
    requires HasIndex(ctx, ballot)
    ensures r ==> ballot.Some? && !Incomplete(ballot) && ballot.value.proof.Some? && ballot.value.inputsHash.Some?
    ensures Eligible(ctx, ballot) <==> r && ctx.convert(ballot.value.proof.value).1
  {
    if ballot.None? {
      return false;
    }
    var b := ballot.value;
    if b.voteID == 0 {
      return false;
    }
    if b.address.None? {
      return false;
    }
    if ctx.containsVoteID(b.voteID) {
      return false;
    }
    if ctx.maxVotersReached && !ctx.containsBallot(CalculateBallotIndex(b.voterIndex.value).value) {
      return false;
    }
    if b.proof.None? {
      return false;
    }
    if b.inputsHash.None? {
      return false;
    }
    if !ctx.inSubGroup(b.proof.value) {
      return false;
    }
    if ctx.verifies.Some? {
      if !ctx.verifies.value(b) {
        return false;
      }
    }
    r := true;
  }

  /**
   Selects the first eligible ballots, refuses the others it looks at, and
   releases whatever is left once the batch is full.
   */
  method CollectAggregationBatchInputs(q: nat, stg: AggregationStorage, ctx: Context,
                                       ballots: Pulled, keys: seq<VerifiedKey>)
    returns (inputs: AggregatorInputs, ghost refusals: seq<Event>)
    requires q > 0 && Keyed(ballots, keys) && Indexed(ctx, ballots)
    modifies stg
    ensures InputsAligned(q, ctx, ballots, keys, inputs)
    ensures RefusedKeys(refusals, KeysOf(keys, Rejected(ctx, ballots, |ballots|)))
    ensures stg.log == old(stg.log) + refusals + Releases(KeysOf(keys, LeftOver(ctx, ballots, |ballots|)))
    ensures exists chosen, refused, spare ::
              && Collected(ctx, ballots, keys, inputs, chosen, refused, spare)
              && RefusedKeys(refusals, refused) && stg.log == old(stg.log) + refusals + Releases(spare)
  {
    hide Eligible, ValueOf, HasIndex, Aligned, RefusedKeys, AsAggregated, Selected, Rejected, LeftOver,
         Releases, KeysOf, Range, Event.Refuses, Incomplete;
    SelectionStarts(ctx, ballots);
    var proofs := new RecursionProof[VOTES_PER_BATCH];
    var proofsInputHash := new Limbs[VOTES_PER_BATCH];
    var aggBallots: seq<AggregatorBallot> := [];
    var verifiedBallots: seq<VerifiedBallot> := [];
    var processedKeys: seq<VerifiedKey> := [];
    var hashes: seq<int> := [];
    ghost var lists := AggregatorInputs(proofs[..], proofsInputHash[..], [], [], [], []);
    NothingTaken(q, ctx, ballots, keys, lists);
    refusals := [];
    var i := 0;
    while i < |ballots|
      invariant 0 <= i <= |ballots|
      invariant |aggBallots| == |Selected(ctx, ballots, i)| < VOTES_PER_BATCH
      invariant lists == AggregatorInputs(proofs[..], proofsInputHash[..], aggBallots, verifiedBallots, processedKeys, hashes)
      invariant Aligned(q, ctx, ballots, keys, Selected(ctx, ballots, i), lists)
      invariant stg.log == old(stg.log) + refusals && RefusedKeys(refusals, KeysOf(keys, Rejected(ctx, ballots, i)))
    {
      var passes := Passes(ctx, ballots[i]);
      if !passes {
        ghost var more := RefuseNext(stg, keys, i, refusals, Rejected(ctx, ballots, i));
        SelectionStep(ctx, ballots, i);
        refusals := refusals + more;
        i := i + 1;
        continue;
      }
      var b := ballots[i].value;
      var batchIdx := |aggBallots|;
      if batchIdx >= VOTES_PER_BATCH {
        assert false;
      }
      var converted := ctx.convert(b.proof.value);
      proofs[batchIdx] := converted.0;
      if !converted.1 {
        GarbageIsBeyond(q, ctx, ballots, keys, Selected(ctx, ballots, i), lists, converted.0);
        lists := lists.(proofs := lists.proofs[batchIdx := converted.0]);
        ghost var more := RefuseNext(stg, keys, i, refusals, Rejected(ctx, ballots, i));
        SelectionStep(ctx, ballots, i);
        refusals := refusals + more;
        i := i + 1;
        continue;
      }
      TakingKeepsAlignment(q, ctx, ballots, keys, Selected(ctx, ballots, i), lists, i);
      SelectionStep(ctx, ballots, i);
      lists := Taking(q, ctx, lists, b, keys[i]);
      proofsInputHash[batchIdx] := ValueOf(q, b.inputsHash.value);
      hashes := hashes + [b.inputsHash.value];
      aggBallots := aggBallots + [AsAggregated(b)];
      verifiedBallots := verifiedBallots + [b];
      processedKeys := processedKeys + [keys[i]];
      if |aggBallots| >= VOTES_PER_BATCH {
        stg.ReleaseVerifiedBallotReservations(keys[i + 1..]);
        FullStops(ctx, ballots, i + 1, |ballots|);
        KeysToTheEnd(keys, i + 1, |ballots|);
        inputs := AggregatorInputs(proofs[..], proofsInputHash[..], aggBallots, verifiedBallots, processedKeys, hashes);
        SelectionIsCollected(q, ctx, ballots, keys, inputs);
        return;
      }
      i := i + 1;
    }
    NothingLeftOver(ctx, ballots, |ballots|);
    inputs := AggregatorInputs(proofs[..], proofsInputHash[..], aggBallots, verifiedBallots, processedKeys, hashes);
    SelectionIsCollected(q, ctx, ballots, keys, inputs);
  }

  lemma {:induction false} KeysAreOf(keys: seq<VerifiedKey>, indices: seq<nat>)
    ensures forall i :: i in indices && i < |keys| ==> keys[i] in KeysOf(keys, indices)
    ensures forall key :: key in KeysOf(keys, indices) ==> exists i :: i in indices && i < |keys| && keys[i] == key
  {
    if |indices| > 0 {
      var init, last := indices[..|indices| - 1], indices[|indices| - 1];
      KeysAreOf(keys, init);
      assert indices == init + [last];
      forall key | key in KeysOf(keys, indices) ensures exists i :: i in indices && i < |keys| && keys[i] == key {
        if key in KeysOf(keys, init) {
          var i :| i in init && i < |keys| && keys[i] == key;
          assert i in indices;
        } else {
          assert last in indices;
        }
      }
    }
  }

  /** A position is reached exactly when fewer than 60 ballots were taken before it. */
  lemma ReachedIff(ctx: Context, ballots: Pulled, i: nat)
    requires i < |ballots| && Indexed(ctx, ballots)
    ensures Reached(Selected(ctx, ballots, |ballots|), i) <==> |Selected(ctx, ballots, i)| < VOTES_PER_BATCH
  {
    var chosen, before := Selected(ctx, ballots, |ballots|), Selected(ctx, ballots, i);
    if |before| == VOTES_PER_BATCH {
      FullStops(ctx, ballots, i, |ballots|);
      assert before[59] < i;
    } else {
      SelectedGrows(ctx, ballots, i, |ballots|);
      if |chosen| == 60 {
        assert chosen[59] >= i;
      }
    }
  }

  lemma {:induction false} SelectedGrows(ctx: Context, ballots: Pulled, m: nat, n: nat)
    requires m <= n <= |ballots| && Indexed(ctx, ballots)
    ensures Selected(ctx, ballots, m) <= Selected(ctx, ballots, n)
    ensures forall k :: |Selected(ctx, ballots, m)| <= k < |Selected(ctx, ballots, n)| ==> Selected(ctx, ballots, n)[k] >= m
  {
    hide Eligible;
    if m < n {
      SelectedGrows(ctx, ballots, m, n - 1);
    }
  }

  /** What becomes of a position, in terms of the ballot there and of whether it is reached. */
  lemma PositionsAre(ctx: Context, ballots: Pulled, i: nat)
    requires i < |ballots| && Indexed(ctx, ballots)
    ensures var n := |ballots|;
            var chosen := Selected(ctx, ballots, n);
            && (i in chosen <==> Acceptable(ctx, ballots[i]) && Reached(chosen, i))
            && (i in Rejected(ctx, ballots, n) <==> !Acceptable(ctx, ballots[i]) && Reached(chosen, i))
            && (i in LeftOver(ctx, ballots, n) <==> !Reached(chosen, i))
  {
    hide Selected, Rejected, LeftOver, Eligible, Acceptable, Reached, Increasing;
    SelectedAre(ctx, ballots, |ballots|);
    RejectedAre(ctx, ballots, |ballots|);
    LeftOverAre(ctx, ballots, |ballots|);
    ReachedIff(ctx, ballots, i);
    EligibleIffAcceptable(ctx, ballots[i]);
    SelectedIsBounded(ctx, ballots, i);
  }

  lemma SelectedIsBounded(ctx: Context, ballots: Pulled, n: nat)
    requires n <= |ballots| && Indexed(ctx, ballots)
    ensures |Selected(ctx, ballots, n)| <= VOTES_PER_BATCH
  {
  }

  lemma KeysOfPositions(keys: seq<VerifiedKey>, indices: seq<nat>, positions: set<nat>)
    requires forall i :: i in indices <==> i in positions
    ensures KeysAt(keys, KeysOf(keys, indices), positions)
  {
    hide KeysOf;
    KeysAreOf(keys, indices);
  }

  lemma SelectionIsCollected(q: nat, ctx: Context, ballots: Pulled, keys: seq<VerifiedKey>, inputs: AggregatorInputs)
    requires q > 0 && Keyed(ballots, keys) && Indexed(ctx, ballots) && InputsAligned(q, ctx, ballots, keys, inputs)
    ensures var n := |ballots|;
            Collected(ctx, ballots, keys, inputs, Selected(ctx, ballots, n), KeysOf(keys, Rejected(ctx, ballots, n)),
                      KeysOf(keys, LeftOver(ctx, ballots, n)))
  {
    var n := |ballots|;
    var chosen, rejected, left := Selected(ctx, ballots, n), Rejected(ctx, ballots, n), LeftOver(ctx, ballots, n);
    assert |keys| <= |ballots| && MadeOf(ballots, keys, inputs, chosen) by {
      SelectedAre(ctx, ballots, n);
      AlignedIsMade(q, ctx, ballots, keys, chosen, inputs);
    }
    assert forall i :: (i in chosen ==> i < n) && (i in rejected ==> i < n) && (i in left ==> i < n);
    hide Selected, Rejected, LeftOver, InputsAligned, Acceptable, Reached, MadeOf, KeysOf, Indexed, KeysAt;
    forall i: nat | i < n
      ensures i in chosen <==> i in ChosenAt(ctx, ballots, chosen)
      ensures i in rejected <==> i in RefusedAt(ctx, ballots, chosen)
      ensures i in left <==> i in SpareAt(ballots, chosen)
    {
      PositionsAre(ctx, ballots, i);
    }
    KeysOfPositions(keys, rejected, RefusedAt(ctx, ballots, chosen));
    KeysOfPositions(keys, left, SpareAt(ballots, chosen));
  }

  lemma AlignedIsMade(q: nat, ctx: Context, ballots: Pulled, keys: seq<VerifiedKey>, chosen: seq<nat>, inputs: AggregatorInputs)
    requires q > 0 && Aligned(q, ctx, ballots, keys, chosen, inputs) && Increasing(chosen)
    ensures MadeOf(ballots, keys, inputs, chosen)
  {
    hide ValueOf;
    forall k | 0 <= k < |chosen|
      ensures ballots[chosen[k]] == Some(inputs.verifiedBallots[k]) && inputs.processedKeys[k] == keys[chosen[k]]
      ensures inputs.aggBallots[k] == AsAggregated(inputs.verifiedBallots[k])
    {
      assert Describes(q, ctx, inputs, k, ballots[chosen[k]], keys[chosen[k]]);
    }
  }

  lemma SelectionStarts(ctx: Context, ballots: Pulled)
    requires Indexed(ctx, ballots)
    ensures Selected(ctx, ballots, 0) == [] && Rejected(ctx, ballots, 0) == []
  {
  }

  /** While the batch is not full, the next ballot is taken or refused. */
  lemma SelectionStep(ctx: Context, ballots: Pulled, i: nat)
    requires i < |ballots| && Indexed(ctx, ballots) && |Selected(ctx, ballots, i)| < VOTES_PER_BATCH
    ensures Selected(ctx, ballots, i + 1) ==
            if Eligible(ctx, ballots[i]) then Selected(ctx, ballots, i) + [i] else Selected(ctx, ballots, i)
    ensures Rejected(ctx, ballots, i + 1) ==
            if Eligible(ctx, ballots[i]) then Rejected(ctx, ballots, i) else Rejected(ctx, ballots, i) + [i]
    ensures LeftOver(ctx, ballots, i + 1) == []
  {
    NothingLeftOver(ctx, ballots, i);
  }

  lemma NothingTaken(q: nat, ctx: Context, ballots: Pulled, keys: seq<VerifiedKey>, inputs: AggregatorInputs)
    requires q > 0 && |inputs.proofs| == |inputs.proofsInputHash| == VOTES_PER_BATCH
    requires inputs == AggregatorInputs(inputs.proofs, inputs.proofsInputHash, [], [], [], [])
    ensures Aligned(q, ctx, ballots, keys, [], inputs) && RefusedKeys([], KeysOf(keys, []))
  {
  }

  /** Distinct addresses among the pulled ballots stay distinct in the batch. */
  lemma BatchKeepsDistinctAddresses(q: nat, ctx: Context, ballots: Pulled, keys: seq<VerifiedKey>, inputs: AggregatorInputs)
    requires q > 0 && Indexed(ctx, ballots) && InputsAligned(q, ctx, ballots, keys, inputs)
    requires forall i, j :: 0 <= i < j < |ballots| && ballots[i].Some? && ballots[j].Some? ==>
                              ballots[i].value.address != ballots[j].value.address
    ensures DistinctAddresses(inputs.aggBallots)
  {
    SelectedAre(ctx, ballots, |ballots|);
    var chosen := Selected(ctx, ballots, |ballots|);
    forall i, j | 0 <= i < j < |chosen| ensures inputs.aggBallots[i].address != inputs.aggBallots[j].address {
      assert chosen[i] < chosen[j];
    }
  }

  /** The circuit assignment of a collected batch: dummies from the first unused slot on. */
  method Assign(q: nat, inputs: AggregatorInputs, dummy: Option<RecursionProof>) returns (r: Option<Circuit>)
    requires q > 0 && |inputs.proofs| == |inputs.proofsInputHash| == VOTES_PER_BATCH
    requires |inputs.proofsInputsHashInputs| == |inputs.aggBallots| <= VOTES_PER_BATCH
    requires forall k :: 0 <= k < |inputs.aggBallots| ==>
               inputs.proofsInputHash[k] == ValueOf(q, inputs.proofsInputsHashInputs[k])
    ensures r.None? <==> |inputs.aggBallots| < VOTES_PER_BATCH && dummy.None?
    ensures r.Some? ==> r.value.Valid() && PaddedSlots(q, inputs.proofsInputsHashInputs, r.value.ballotHashes[..])
    ensures r.Some? ==> forall k :: 0 <= k < VOTES_PER_BATCH ==>
              r.value.proofs[k] == if k < |inputs.aggBallots| then inputs.proofs[k] else dummy.value
  {
    hide ValueOf;
    var assignment := new Circuit(inputs.proofsInputHash, inputs.proofs);
    if |inputs.aggBallots| < VOTES_PER_BATCH {
      var filled := assignment.FillWithDummy(|inputs.aggBallots|, dummy);
      if filled.Err? {
        return None;
      }
    }
    r := Some(assignment);
  }
}
