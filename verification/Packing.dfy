/** Packing a ballot mode into one 247-bit field element. */
module Packing {
  import opened Wrappers
  import opened Arithmetic
  import opened Params

  type uint8 = x: nat | x < 256
  type uint64 = x: nat | x < UINT64_LIMIT

  datatype BallotMode = BallotMode(numFields: uint8, groupSize: uint8, uniqueValues: bool, costExponent: uint8,
                                   maxValue: uint64, minValue: uint64, maxValueSum: uint64, minValueSum: uint64)

  datatype PackError = GroupSizeExceedsNumFields | MaxValueTooWide | MinValueTooWide | MaxValueSumTooWide | MinValueSumTooWide

  function Pow2(n: nat): (r: nat)
    ensures r > 0
  {
    if n == 0 then 1 else 2 * Pow2(n - 1)
  }

  function Lsh(x: nat, n: nat): nat {
    x * Pow2(n)
  }

  /** Bitwise or, bit by bit. */
  function Or(a: nat, b: nat): nat {
    if a == 0 && b == 0 then 0
    else (if a % 2 == 1 || b % 2 == 1 then 1 else 0) + 2 * Or(a / 2, b / 2)
  }

  /** The limits in the order they are checked. */
  const CHECKS: seq<PackError> :=
    [GroupSizeExceedsNumFields, MaxValueTooWide, MinValueTooWide, MaxValueSumTooWide, MinValueSumTooWide]

  predicate Violates(bm: BallotMode, e: PackError) {
    match e
    case GroupSizeExceedsNumFields => bm.groupSize > bm.numFields
    case MaxValueTooWide => bm.maxValue >= Pow2(48)
    case MinValueTooWide => bm.minValue >= Pow2(48)
    case MaxValueSumTooWide => bm.maxValueSum >= Pow2(63)
    case MinValueSumTooWide => bm.minValueSum >= Pow2(63)
  }

  predicate Packable(bm: BallotMode) {
    forall i :: 0 <= i < |CHECKS| ==> !Violates(bm, CHECKS[i])
  }

  // Values laid out side by side, lowest first

  datatype Field = Field(value: nat, width: nat)

  function Width(fs: seq<Field>): nat {
    if |fs| == 0 then 0 else Width(fs[..|fs| - 1]) + fs[|fs| - 1].width
  }

  /** The sum of the values, each shifted past the ones below it. */
  function Laid(fs: seq<Field>): nat {
    if |fs| == 0 then 0 else Laid(fs[..|fs| - 1]) + Lsh(fs[|fs| - 1].value, Width(fs[..|fs| - 1]))
  }

  ghost predicate Fits(fs: seq<Field>) {
    forall i :: 0 <= i < |fs| ==> fs[i].value < Pow2(fs[i].width)
  }

  /** The fields of a mode: 8 + 8 + 1 + 8 + 48 + 48 + 63 + 63 bits. */
  function Layout(bm: BallotMode): seq<Field> {
    [Field(bm.numFields, 8), Field(bm.groupSize, 8), Field(if bm.uniqueValues then 1 else 0, 1),
     Field(bm.costExponent, 8), Field(bm.maxValue, 48), Field(bm.minValue, 48),
     Field(bm.maxValueSum, 63), Field(bm.minValueSum, 63)]
  }

  lemma {:induction false} Pow2Sum(a: nat, b: nat)
    ensures Pow2(a + b) == Pow2(a) * Pow2(b)
  {
    if a > 0 {
      Pow2Sum(a - 1, b);
    }
  }

  /** Or-ing numbers with no bit in common adds them. */
  lemma {:induction false} OrIsSum(a: nat, x: nat, k: nat)
    requires a < Pow2(k)
    ensures Or(a, Lsh(x, k)) == a + Lsh(x, k)
  {
    if k == 0 {
      OrZero(x);
    } else {
      var rest := Lsh(x, k - 1);
      assert Lsh(x, k) == 2 * rest;
      OrIsSum(a / 2, x, k - 1);
    }
  }

  /** Bit k of the result is set exactly when it is set in one of the two. */
  lemma {:induction false} OrIsBitwise(a: nat, b: nat, k: nat)
    ensures BitsAt(Or(a, b), k, 1) == if BitsAt(a, k, 1) == 1 || BitsAt(b, k, 1) == 1 then 1 else 0
  {
    hide BitsAt, Or;
    OrSplits(a, b);
    LowestBit(a, k);
    LowestBit(b, k);
    LowestBit(Or(a, b), k);
    if k > 0 {
      OrIsBitwise(a / 2, b / 2, k - 1);
    }
  }

  lemma OrSplits(a: nat, b: nat)
    ensures Or(a, b) % 2 == (if a % 2 == 1 || b % 2 == 1 then 1 else 0) && Or(a, b) / 2 == Or(a / 2, b / 2)
  {
  }

  /** The bits of a number: its parity, and the bits of its half. */
  lemma LowestBit(x: nat, k: nat)
    ensures BitsAt(x, 0, 1) == x % 2
    ensures k > 0 ==> BitsAt(x, k, 1) == BitsAt(x / 2, k - 1, 1)
  {
    assert Pow2(0) == 1 && Pow2(1) == 2;
    if k > 0 {
      var w := Pow2(k - 1);
      var d, r := x / (2 * w), x % (2 * w);
      assert x == 2 * (w * d) + r;
      assert x / 2 == w * d + r / 2 && 0 <= r / 2 < w;
      QuotientIs(x / 2, w, d, r / 2);
    }
  }

  lemma {:induction false} OrZero(x: nat)
    ensures Or(0, x) == x
  {
    if x > 0 {
      OrZero(x / 2);
    }
  }

  lemma BoundStep(low: nat, p: nat, v: nat, q: nat)
    requires low < p && v < q
    ensures low + v * p < p * q
  {
    assert v * p <= (q - 1) * p == p * q - p;
  }

  lemma {:induction false} LaidIsBounded(fs: seq<Field>)
    requires Fits(fs)
    ensures Laid(fs) < Pow2(Width(fs))
  {
    if |fs| > 0 {
      var init, last := fs[..|fs| - 1], fs[|fs| - 1];
      LaidIsBounded(init);
      Pow2Sum(Width(init), last.width);
      BoundStep(Laid(init), Pow2(Width(init)), last.value, Pow2(last.width));
    }
  }

  /** A digit is not disturbed by anything above it. */
  lemma DigitStays(low: nat, p: nat, q: nat, k: nat)
    requires p > 0 && q > 0
    ensures (low + p * (q * k)) / p % q == low / p % q
  {
    QuotientShift(low, p, q * k);
    RemainderShift(low / p, q, k);
  }

  lemma QuotientShift(low: nat, p: nat, k: nat)
    requires p > 0
    ensures (low + p * k) / p == low / p + k
  {
    var d := low / p;
    assert p * (d + k) == p * d + p * k;
    QuotientIs(low + p * k, p, d + k, low % p);
  }

  lemma RemainderShift(low: nat, q: nat, k: nat)
    requires q > 0
    ensures (low + q * k) % q == low % q
  {
    QuotientShift(low, q, k);
    assert q * (low / q + k) == q * (low / q) + q * k;
  }

  lemma {:induction false} WidthSplits(fs: seq<Field>, i: nat)
    requires i < |fs|
    ensures Width(fs) >= Width(fs[..i]) + fs[i].width
    decreases |fs|
  {
    var init := fs[..|fs| - 1];
    if i == |fs| - 1 {
    } else {
      WidthSplits(init, i);
      assert init[..i] == fs[..i];
    }
  }

  /** The number in the bits from `below` on, `width` of them. */
  function BitsAt(x: nat, below: nat, width: nat): nat {
    x / Pow2(below) % Pow2(width)
  }

  /** Every field is found at its own bit range, whatever the others hold. */
  lemma {:induction false} LaidReadsBack(fs: seq<Field>, i: nat)
    requires Fits(fs) && i < |fs|
    ensures BitsAt(Laid(fs), Width(fs[..i]), fs[i].width) == fs[i].value
    decreases |fs|
  {
    hide Pow2, Lsh, Laid, Width, BitsAt;
    var n := |fs| - 1;
    if i == n {
      LastReadsBack(fs);
    } else {
      LaidReadsBack(fs[..n], i);
      EarlierReadsBack(fs, i);
    }
  }

  /** What is laid up to the last field, and the last field above it. */
  lemma LaidSplits(fs: seq<Field>, i: nat) returns (gap: nat)
    requires i < |fs| - 1
    ensures var n := |fs| - 1; Laid(fs) == Laid(fs[..n]) + Lsh(fs[n].value, Width(fs[..i]) + fs[i].width + gap)
  {
    hide Lsh;
    var n := |fs| - 1;
    assert fs[..n][..i] == fs[..i];
    WidthSplits(fs[..n], i);
    gap := Width(fs[..n]) - Width(fs[..i]) - fs[i].width;
  }

  lemma EarlierReadsBack(fs: seq<Field>, i: nat)
    requires i < |fs| - 1
    requires BitsAt(Laid(fs[..|fs| - 1]), Width(fs[..|fs| - 1][..i]), fs[..|fs| - 1][i].width) == fs[..|fs| - 1][i].value
    ensures BitsAt(Laid(fs), Width(fs[..i]), fs[i].width) == fs[i].value
  {
    hide Pow2, Lsh, Laid, Width, BitsAt;
    var init := fs[..|fs| - 1];
    assert init[..i] == fs[..i] && init[i] == fs[i];
    var gap := LaidSplits(fs, i);
    LaterFieldStays(Laid(init), fs[|fs| - 1].value, Width(fs[..i]), fs[i].width, gap);
  }

  lemma LastReadsBack(fs: seq<Field>)
    requires Fits(fs) && |fs| > 0
    ensures var n := |fs| - 1; BitsAt(Laid(fs), Width(fs[..n]), fs[n].width) == fs[n].value
  {
    hide Pow2;
    var n := |fs| - 1;
    LaidIsBounded(fs[..n]);
    QuotientIs(Laid(fs), Pow2(Width(fs[..n])), fs[n].value, Laid(fs[..n]));
    QuotientIs(fs[n].value, Pow2(fs[n].width), 0, fs[n].value);
  }

  /** A field laid above a bit range does not change what is read from it. */
  lemma LaterFieldStays(low: nat, v: nat, below: nat, width: nat, gap: nat)
    ensures BitsAt(low + Lsh(v, below + width + gap), below, width) == BitsAt(low, below, width)
  {
    ShiftedFar(v, below, width, gap);
    hide Pow2, Lsh;
    DigitStays(low, Pow2(below), Pow2(width), Pow2(gap) * v);
  }

  lemma ShiftedFar(v: nat, below: nat, width: nat, gap: nat)
    ensures Lsh(v, below + width + gap) == Pow2(below) * (Pow2(width) * (Pow2(gap) * v))
  {
    ThreeWidths(below, width, gap);
    hide Pow2, Lsh;
    Regroup(v, below + width + gap, Pow2(below), Pow2(width), Pow2(gap));
  }

  lemma ThreeWidths(a: nat, b: nat, c: nat)
    ensures Pow2(a + b + c) == Pow2(a) * (Pow2(b) * Pow2(c))
  {
    hide Pow2;
    Pow2Sum(a, b + c);
    Pow2Sum(b, c);
    assert a + (b + c) == a + b + c;
  }

  lemma Regroup(v: nat, n: nat, p: nat, q: nat, g: nat)
    requires Pow2(n) == p * (q * g)
    ensures Lsh(v, n) == p * (q * (g * v))
  {
    hide Pow2;
    assert v * (p * (q * g)) == p * (q * (g * v));
  }

  lemma LaidStep(fs: seq<Field>, i: nat)
    requires Fits(fs) && i < |fs|
    ensures Or(Laid(fs[..i]), Lsh(fs[i].value, Width(fs[..i]))) == Laid(fs[..i + 1])
    ensures Width(fs[..i + 1]) == Width(fs[..i]) + fs[i].width
  {
    assert fs[..i + 1][..i] == fs[..i];
    LaidIsBounded(fs[..i]);
    OrIsSum(Laid(fs[..i]), fs[i].value, Width(fs[..i]));
  }

  lemma LayoutFits(bm: BallotMode)
    requires Packable(bm)
    ensures Fits(Layout(bm))
  {
    assert !Violates(bm, CHECKS[1]) && !Violates(bm, CHECKS[2]) && !Violates(bm, CHECKS[3]) && !Violates(bm, CHECKS[4]);
    assert Pow2(8) == 256 && Pow2(1) == 2;
  }

  method FirstViolation(bm: BallotMode) returns (e: Option<PackError>)
    ensures e.None? <==> Packable(bm)
    ensures e.Some? ==> exists i :: 0 <= i < |CHECKS| && CHECKS[i] == e.value && Violates(bm, CHECKS[i])
                                    && forall j :: 0 <= j < i ==> !Violates(bm, CHECKS[j])
  {
    hide Pow2;
    assert CHECKS[0] == GroupSizeExceedsNumFields && CHECKS[1] == MaxValueTooWide && CHECKS[2] == MinValueTooWide;
    assert CHECKS[3] == MaxValueSumTooWide && CHECKS[4] == MinValueSumTooWide;
    if bm.groupSize > bm.numFields {
      return Some(GroupSizeExceedsNumFields);
    }
    if bm.maxValue >= Pow2(48) {
      return Some(MaxValueTooWide);
    }
    if bm.minValue >= Pow2(48) {
      return Some(MinValueTooWide);
    }
    if bm.maxValueSum >= Pow2(63) {
      return Some(MaxValueSumTooWide);
    }
    if bm.minValueSum >= Pow2(63) {
      return Some(MinValueSumTooWide);
    }
    e := None;
  }

  /** Ors the fields together; the result is their sum at their own offsets, below 2^247. */
  method Pack(bm: BallotMode) returns (r: Result<nat, PackError>)
    ensures r.Ok? <==> Packable(bm)
    ensures r.Ok? <==> bm.groupSize <= bm.numFields && bm.maxValue < Pow2(48) && bm.minValue < Pow2(48)
                       && bm.maxValueSum < Pow2(63) && bm.minValueSum < Pow2(63)
    ensures r.Ok? ==> r.value == Laid(Layout(bm)) < Pow2(247)
    ensures r.Ok? ==> FieldsAt(r.value, bm)
    ensures r.Err? ==> exists i :: 0 <= i < |CHECKS| && CHECKS[i] == r.error && Violates(bm, CHECKS[i])
                                   && forall j :: 0 <= j < i ==> !Violates(bm, CHECKS[j])
  {
    hide Or, Lsh, Pow2, Laid, Width, FieldsAt;
    PackableMeans(bm);
    var violation := FirstViolation(bm);
    if violation.Some? {
      return Err(violation.value);
    }
    ghost var fs := Layout(bm);
    LayoutFits(bm);
    NothingLaid(fs);
    LaidStep(fs, 0);
    LaidStep(fs, 1);
    LaidStep(fs, 2);
    LaidStep(fs, 3);
    LaidStep(fs, 4);
    LaidStep(fs, 5);
    LaidStep(fs, 6);
    LaidStep(fs, 7);
    NoBits(bm.numFields);
    var packed: nat := bm.numFields;
    packed := Or(packed, Lsh(bm.groupSize, 8));
    if bm.uniqueValues {
      packed := Or(packed, Lsh(1, 16));
    } else {
      NoBitsAbove(packed, 16);
    }
    packed := Or(packed, Lsh(bm.costExponent, 17));
    packed := Or(packed, Lsh(bm.maxValue, 25));
    packed := Or(packed, Lsh(bm.minValue, 73));
    packed := Or(packed, Lsh(bm.maxValueSum, 121));
    packed := Or(packed, Lsh(bm.minValueSum, 184));
    assert fs[..8] == fs;
    LaidIsBounded(fs);
    FieldsAreAt(bm);
    r := Ok(packed);
  }

  lemma PackableMeans(bm: BallotMode)
    ensures Packable(bm) <==> bm.groupSize <= bm.numFields && bm.maxValue < Pow2(48) && bm.minValue < Pow2(48)
                              && bm.maxValueSum < Pow2(63) && bm.minValueSum < Pow2(63)
  {
    hide Pow2;
    assert CHECKS[0] == GroupSizeExceedsNumFields && CHECKS[1] == MaxValueTooWide && CHECKS[2] == MinValueTooWide;
    assert CHECKS[3] == MaxValueSumTooWide && CHECKS[4] == MinValueSumTooWide;
    if Packable(bm) {
      assert !Violates(bm, CHECKS[0]) && !Violates(bm, CHECKS[1]) && !Violates(bm, CHECKS[2]);
      assert !Violates(bm, CHECKS[3]) && !Violates(bm, CHECKS[4]);
    }
  }

  /** The named bit ranges of a packed mode. */
  ghost predicate FieldsAt(x: nat, bm: BallotMode) {
    && BitsAt(x, 0, 8) == bm.numFields
    && BitsAt(x, 8, 8) == bm.groupSize
    && BitsAt(x, 16, 1) == (if bm.uniqueValues then 1 else 0)
    && BitsAt(x, 17, 8) == bm.costExponent
    && BitsAt(x, 25, 48) == bm.maxValue
    && BitsAt(x, 73, 48) == bm.minValue
    && BitsAt(x, 121, 63) == bm.maxValueSum
    && BitsAt(x, 184, 63) == bm.minValueSum
  }

  lemma FieldsAreAt(bm: BallotMode)
    requires Packable(bm)
    ensures FieldsAt(Laid(Layout(bm)), bm)
  {
    hide Laid, Pow2, Lsh, BitsAt;
    LayoutFits(bm);
    var fs := Layout(bm);
    Offsets(fs);
    hide Width;
    LaidReadsBack(fs, 0);
    LaidReadsBack(fs, 1);
    LaidReadsBack(fs, 2);
    LaidReadsBack(fs, 3);
    LaidReadsBack(fs, 4);
    LaidReadsBack(fs, 5);
    LaidReadsBack(fs, 6);
    LaidReadsBack(fs, 7);
  }

  lemma WidthStep(fs: seq<Field>, i: nat)
    requires i < |fs|
    ensures Width(fs[..i + 1]) == Width(fs[..i]) + fs[i].width
  {
    assert fs[..i + 1][..i] == fs[..i];
  }

  lemma Offsets(fs: seq<Field>)
    requires |fs| == 8
    requires fs[0].width == 8 && fs[1].width == 8 && fs[2].width == 1 && fs[3].width == 8
    requires fs[4].width == 48 && fs[5].width == 48 && fs[6].width == 63
    ensures Width(fs[..0]) == 0 && Width(fs[..1]) == 8 && Width(fs[..2]) == 16 && Width(fs[..3]) == 17
    ensures Width(fs[..4]) == 25 && Width(fs[..5]) == 73 && Width(fs[..6]) == 121 && Width(fs[..7]) == 184
  {
    NothingLaid(fs);
    hide Width;
    WidthStep(fs, 0);
    WidthStep(fs, 1);
    WidthStep(fs, 2);
    WidthStep(fs, 3);
    WidthStep(fs, 4);
    WidthStep(fs, 5);
    WidthStep(fs, 6);
  }

  lemma NothingLaid(fs: seq<Field>)
    ensures Laid(fs[..0]) == 0 && Width(fs[..0]) == 0
  {
  }

  lemma NoBits(x: nat)
    ensures Or(0, Lsh(x, 0)) == x
  {
    OrZero(x);
  }

  lemma {:induction false} NoBitsAbove(x: nat, n: nat)
    ensures Or(x, Lsh(0, n)) == x
  {
    if x > 0 {
      NoBitsAbove(x / 2, n);
    }
  }

  /** Modes with the same packing are the same mode. */
  lemma PackIsInjective(a: BallotMode, b: BallotMode)
    requires Packable(a) && Packable(b)
    requires Laid(Layout(a)) == Laid(Layout(b))
    ensures a == b
  {
    hide Laid, Pow2, Width, Lsh, BitsAt;
    LayoutFits(a);
    LayoutFits(b);
    var fa, fb := Layout(a), Layout(b);
    forall i | 0 <= i < 8 ensures fa[i].value == fb[i].value {
      LaidReadsBack(fa, i);
      LaidReadsBack(fb, i);
      SameOffsets(fa, fb, i);
    }
    assert fa[0] == fb[0] && fa[1] == fb[1] && fa[2] == fb[2] && fa[3] == fb[3];
    assert fa[4] == fb[4] && fa[5] == fb[5] && fa[6] == fb[6] && fa[7] == fb[7];
  }

  lemma {:induction false} SameOffsets(fs: seq<Field>, gs: seq<Field>, i: nat)
    requires |fs| == |gs| && i <= |fs| && forall j :: 0 <= j < i ==> fs[j].width == gs[j].width
    ensures Width(fs[..i]) == Width(gs[..i])
  {
    if i > 0 {
      SameOffsets(fs, gs, i - 1);
      assert fs[..i][..i - 1] == fs[..i - 1] && gs[..i][..i - 1] == gs[..i - 1];
    }
  }
}
