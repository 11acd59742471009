/**
 The aggregator circuit around the proofs themselves: the mask of real slots,
 the witness of every slot, and the padding on both sides of the circuit.
 */
module Aggregator {
  import opened Wrappers
  import opened Arithmetic
  import opened Params

  // Arithmetic of the circuit over a prime field of order p

  function Sub(p: nat, a: int, b: int): int
    requires p > 0
  {
    (a - b) % p
  }

  function Mul(p: nat, a: int, b: int): int
    requires p > 0
  {
    (a * b) % p
  }

  function IsZero(a: int): int {
    if a == 0 then 1 else 0
  }

  /** if b then x else y, for a bit b: y + b (x - y). */
  function Select(p: nat, b: int, x: int, y: int): int
    requires p > 0
  {
    (y + Mul(p, b, Sub(p, x, y))) % p
  }

  /** An element of an emulated field as 64-bit limbs, lowest first. */
  type Limbs = l: seq<int> | |l| == LIMBS witness [0, 0, 0, 0]

  const LIMBS: nat := 4
  const DUMMY_LIMBS: Limbs := [1, 0, 0, 0]

  function ValueOf(q: nat, x: int): Limbs
    requires q > 0
  {
    var v := x % q;
    [v % UINT64_LIMIT, v / UINT64_LIMIT % UINT64_LIMIT, v / UINT64_LIMIT / UINT64_LIMIT % UINT64_LIMIT,
     v / UINT64_LIMIT / UINT64_LIMIT / UINT64_LIMIT]
  }

  /** The number the limbs stand for. */
  function Value(limbs: Limbs): int {
    limbs[0] + UINT64_LIMIT * (limbs[1] + UINT64_LIMIT * (limbs[2] + UINT64_LIMIT * limbs[3]))
  }

  /** The limbs of a field element give it back. */
  lemma LimbsRoundTrip(q: nat, x: nat)
    requires x < q
    ensures Value(ValueOf(q, x)) == x
    ensures var l := ValueOf(q, x);
            x == l[0] + 0x1_0000_0000_0000_0000 * (l[1] + 0x1_0000_0000_0000_0000 * (l[2] + 0x1_0000_0000_0000_0000 * l[3]))
  {
    Reduced(x, q);
    Split(x, UINT64_LIMIT);
    Split(x / UINT64_LIMIT, UINT64_LIMIT);
    Split(x / UINT64_LIMIT / UINT64_LIMIT, UINT64_LIMIT);
  }

  lemma Split(x: nat, b: nat)
    requires b > 0
    ensures x == x % b + b * (x / b)
  {
  }

  /** The mask of n real votes: ones, then zeros. */
  function Mask(n: int, size: nat): (r: seq<int>)
    ensures |r| == size
    ensures forall i :: 0 <= i < size ==> r[i] == if i < n then 1 else 0
  {
    seq(size, i => if i < n then 1 else 0)
  }

  /** The latch over a field element: it fails for a count above the batch size, and else marks the first slots. */
  method VoteMask(p: nat, votersCount: int) returns (r: Option<seq<int>>)
    requires p > VOTES_PER_BATCH && 0 <= votersCount < p
    ensures r.Some? <==> votersCount <= VOTES_PER_BATCH
    ensures r.Some? ==> r.value == Mask(votersCount, VOTES_PER_BATCH)
  {
    if votersCount > VOTES_PER_BATCH {
      return None;
    }
    var mask: seq<int> := [];
    var isReal := Sub(p, 1, IsZero(votersCount));
    LatchValue(p, IsZero(votersCount));
    for i := 0 to VOTES_PER_BATCH
      invariant |mask| == i && isReal == if i < votersCount then 1 else 0
      invariant forall j :: 0 <= j < i ==> mask[j] == if j < votersCount then 1 else 0
    {
      mask := mask + [isReal];
      var isEnd := IsZero(Sub(p, votersCount, i + 1));
      CountEnds(p, votersCount, i + 1);
      LatchValue(p, isEnd);
      isReal := Mul(p, isReal, Sub(p, 1, isEnd));
    }
    r := Some(mask);
    assert mask == Mask(votersCount, VOTES_PER_BATCH);
  }

  /** Below the modulus, the difference is zero in the field only if it is zero. */
  lemma CountEnds(p: nat, n: int, k: int)
    requires p > VOTES_PER_BATCH && 0 <= n <= VOTES_PER_BATCH && 0 <= k <= VOTES_PER_BATCH
    ensures Sub(p, n, k) == 0 <==> n == k
  {
    if n >= k {
      Reduced(n - k, p);
    } else {
      Reduced(n - k + p, p);
    }
  }

  lemma LatchValue(p: nat, bit: int)
    requires p > 1 && (bit == 0 || bit == 1)
    ensures Sub(p, 1, bit) == 1 - bit
    ensures Mul(p, 1, 1 - bit) == 1 - bit && Mul(p, 0, 1 - bit) == 0
  {
    assert 1 % p == 1 && 0 % p == 0;
  }

  /** The public inputs of one inner proof, each a list of limbs. */
  type Witness = seq<Limbs>

  /** What slot i must show: (1, hash) if it is real, and (0, 1) if it is not. */
  ghost predicate Shows(w: Witness, isReal: bool, hash: Limbs) {
    && |w| == 1 + LIMBS
    && w[0] == [if isReal then 1 else 0, 0, 0, 0]
    && (forall j :: 0 <= j < LIMBS ==>
          w[1 + j] == [if isReal then hash[j] else DUMMY_LIMBS[j], 0, 0, 0])
  }

  /** The hash a witness carries, read from the first limb of each input. */
  ghost function HashOf(w: Witness): int
    requires |w| == 1 + LIMBS
  {
    Value([w[1][0], w[2][0], w[3][0], w[4][0]])
  }

  predicate FieldLimbs(p: nat, hash: Limbs) {
    forall j :: 0 <= j < LIMBS ==> 0 <= hash[j] < p
  }

  lemma SelectIsChoice(p: nat, b: int, x: int, y: int)
    requires p > 1 && (b == 0 || b == 1) && 0 <= x < p && 0 <= y < p
    ensures Select(p, b, x, y) == if b == 1 then x else y
  {
    var d := Sub(p, x, y);
    if x >= y {
      Reduced(x - y, p);
    } else {
      Reduced(x - y + p, p);
    }
    Reduced(d, p);
    Reduced(x, p);
    Reduced(y, p);
    Reduced(0, p);
  }

  method SlotWitness(p: nat, isReal: int, hash: Limbs) returns (w: Witness)
    requires p > 1 && (isReal == 0 || isReal == 1)
    requires FieldLimbs(p, hash)
    ensures Shows(w, isReal == 1, hash)
  {
    w := [[isReal, 0, 0, 0]];
    for j := 0 to LIMBS
      invariant |w| == 1 + j && w[0] == [isReal, 0, 0, 0]
      invariant forall k :: 0 <= k < j ==> w[1 + k] == [if isReal == 1 then hash[k] else DUMMY_LIMBS[k], 0, 0, 0]
    {
      var dummyLimb := 0;
      if j == 0 {
        dummyLimb := 1;
      }
      SelectIsChoice(p, isReal, hash[j], dummyLimb);
      w := w + [[Select(p, isReal, hash[j], dummyLimb), 0, 0, 0]];
    }
  }

  /** One witness per slot, in slot order. */
  method CalculateWitnesses(p: nat, votersCount: int, ballotHashes: seq<Limbs>) returns (r: Option<seq<Witness>>)
    requires p > VOTES_PER_BATCH && 0 <= votersCount < p
    requires |ballotHashes| == VOTES_PER_BATCH
    requires forall i :: 0 <= i < VOTES_PER_BATCH ==> FieldLimbs(p, ballotHashes[i])
    ensures r.Some? <==> votersCount <= VOTES_PER_BATCH
    ensures r.Some? ==> |r.value| == VOTES_PER_BATCH
    ensures r.Some? ==> forall i :: 0 <= i < VOTES_PER_BATCH ==> Shows(r.value[i], i < votersCount, ballotHashes[i])
  {
    hide Shows;
    var mask := VoteMask(p, votersCount);
    if mask.None? {
      return None;
    }
    var witnesses: seq<Witness> := [];
    for i := 0 to VOTES_PER_BATCH
      invariant |witnesses| == i
      invariant forall k :: 0 <= k < i ==> Shows(witnesses[k], k < votersCount, ballotHashes[k])
    {
      var w := SlotWitness(p, mask.value[i], ballotHashes[i]);
      witnesses := witnesses + [w];
    }
    r := Some(witnesses);
  }

  // Padding

  /** A vote proof in the form the circuit verifies; what it encodes is left open. */
  datatype RecursionProof = RecursionProof(encoding: int)

  /** The circuit assignment: one hash and one proof per slot. */
  class Circuit {
    const ballotHashes: array<Limbs>
    const proofs: array<RecursionProof>

    constructor (hashes: seq<Limbs>, ps: seq<RecursionProof>)
      requires |hashes| == |ps| == VOTES_PER_BATCH
      ensures Valid() && fresh(ballotHashes) && fresh(proofs)
      ensures ballotHashes[..] == hashes && proofs[..] == ps
    {
      ballotHashes := new Limbs[VOTES_PER_BATCH](i requires 0 <= i < |hashes| => hashes[i]);
      proofs := new RecursionProof[VOTES_PER_BATCH](i requires 0 <= i < |ps| => ps[i]);
    }

    predicate Valid() {
      ballotHashes.Length == proofs.Length == VOTES_PER_BATCH
    }

    /** Overwrites every slot from `fromIdx` on with the dummy hash and the dummy proof, and no other. */
    method FillWithDummy(fromIdx: nat, dummy: Option<RecursionProof>) returns (r: Result<(), string>)
      requires Valid()
      modifies ballotHashes, proofs
      ensures r.Ok? <==> dummy.Some?
      ensures r.Err? ==> ballotHashes[..] == old(ballotHashes[..]) && proofs[..] == old(proofs[..])
      ensures r.Ok? ==> forall i :: 0 <= i < VOTES_PER_BATCH ==>
        && ballotHashes[i] == (if i < fromIdx then old(ballotHashes[i]) else DUMMY_LIMBS)
        && proofs[i] == (if i < fromIdx then old(proofs[i]) else dummy.value)
    {
      if dummy.None? {
        return Err("dummy proof value error");
      }
      var i := fromIdx;
      while i < proofs.Length
        invariant fromIdx <= i
        invariant forall k :: 0 <= k < VOTES_PER_BATCH ==>
          && ballotHashes[k] == (if fromIdx <= k < i then DUMMY_LIMBS else old(ballotHashes[k]))
          && proofs[k] == (if fromIdx <= k < i then dummy.value else old(proofs[k]))
      {
        ballotHashes[i] := DUMMY_LIMBS;
        proofs[i] := dummy.value;
        i := i + 1;
      }
      r := Ok(());
    }
  }

  function Ones(n: nat): (r: seq<int>)
    ensures |r| == n && forall i :: 0 <= i < n ==> r[i] == 1
  {
    seq(n, _ => 1)
  }

  /** The list that is hashed: the input hashes, padded with ones to the batch size. */
  function Padded(hashes: seq<int>): seq<int> {
    hashes + Ones(if |hashes| < VOTES_PER_BATCH then VOTES_PER_BATCH - |hashes| else 0)
  }

  /** A hash over lists of field elements; anything else is refused. */
  type Poseidon = seq<int> -> Option<int>

  method InputsHash(poseidon: Poseidon, inputs: seq<int>) returns (r: Option<int>)
    ensures r == poseidon(Padded(inputs))
  {
    var hashes := inputs;
    while |hashes| < VOTES_PER_BATCH
      invariant |inputs| <= |hashes| && (|hashes| <= VOTES_PER_BATCH || hashes == inputs)
      invariant hashes == inputs + Ones(|hashes| - |inputs|)
    {
      hashes := hashes + [1];
    }
    assert hashes == Padded(inputs);
    r := poseidon(hashes);
  }

  /** The numbers in the slots of the circuit. */
  function Values(slots: seq<Limbs>): (r: seq<int>)
    ensures |r| == |slots| && forall i :: 0 <= i < |slots| ==> r[i] == Value(slots[i])
  {
    seq(|slots|, i requires 0 <= i < |slots| => Value(slots[i]))
  }

  /** The slots of a padded assignment. */
  ghost predicate PaddedSlots(q: nat, inputs: seq<int>, slots: seq<Limbs>)
    requires q > 0
  {
    && |slots| == VOTES_PER_BATCH
    && (forall i :: 0 <= i < VOTES_PER_BATCH ==>
          slots[i] == if i < |inputs| then ValueOf(q, inputs[i]) else DUMMY_LIMBS)
  }

  /**
   For every batch the list hashed outside the circuit is, slot by slot, the
   list the circuit hashes, so the circuit's check on the batch hash holds.
   */
  lemma PaddingAgrees(q: nat, poseidon: Poseidon, inputs: seq<int>, slots: seq<Limbs>)
    requires q > 1 && |inputs| <= VOTES_PER_BATCH && PaddedSlots(q, inputs, slots)
    requires forall i :: 0 <= i < |inputs| ==> 0 <= inputs[i] < q
    ensures Values(slots) == Padded(inputs)
    ensures poseidon(Values(slots)) == poseidon(Padded(inputs))
  {
    hide ValueOf;
    forall i | 0 <= i < VOTES_PER_BATCH ensures Values(slots)[i] == Padded(inputs)[i] {
      if i < |inputs| {
        LimbsRoundTrip(q, inputs[i]);
      }
    }
    assert Values(slots) == Padded(inputs);
  }

  /**
   The inner proof of a real slot is checked against (1, its input hash), and
   that of a padding slot against (0, 1).
   */
  lemma WitnessesAgree(q: nat, inputs: seq<int>, slots: seq<Limbs>, witnesses: seq<Witness>, i: nat)
    requires q > 1 && PaddedSlots(q, inputs, slots) && i < VOTES_PER_BATCH == |witnesses|
    requires i < |inputs| ==> 0 <= inputs[i] < q
    requires Shows(witnesses[i], i < |inputs|, slots[i])
    ensures Value(witnesses[i][0]) == if i < |inputs| then 1 else 0
    ensures HashOf(witnesses[i]) == if i < |inputs| then inputs[i] else 1
  {
    var w := witnesses[i];
    assert w[1 + 0] == w[1] && w[1 + 1] == w[2] && w[1 + 2] == w[3] && w[1 + 3] == w[4];
    var read := [w[1][0], w[2][0], w[3][0], w[4][0]];
    if i < |inputs| {
      hide ValueOf;
      assert read == slots[i];
      LimbsRoundTrip(q, inputs[i]);
    } else {
      assert read == DUMMY_LIMBS;
    }
  }
}
