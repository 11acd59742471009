/** Additive ElGamal over the abstract curve: decryption, re-encryption and the bounded discrete logarithm. */
module Elgamal {
  import opened Wrappers
  import opened Arithmetic
  import opened Algebra
  import opened Params
  import opened Ballots

  /** n times a point. */
  function Times(c: Curve, n: nat, p: Point): Point {
    if n == 0 then c.zero else c.add(Times(c, n - 1, p), p)
  }

  /** Several times in a row: n is below the order of p. */
  ghost predicate OrderExceeds(c: Curve, p: Point, n: nat) {
    forall k: nat :: 0 < k <= n ==> Times(c, k, p) != c.zero
  }

  /** C2 - d C1: the message times the generator. */
  function PlainPoint(c: Curve, d: nat, ct: Ciphertext): Point {
    c.add(ct.c2, c.neg(Times(c, d, ct.c1)))
  }

  ghost predicate Encrypts(c: Curve, gen: Point, d: nat, ct: Ciphertext, m: nat) {
    PlainPoint(c, d, ct) == Times(c, m, gen)
  }

  function EncryptedZero(c: Curve, gen: Point, key: Point, k: nat): Ciphertext {
    Ciphertext(Times(c, k, gen), c.add(Times(c, 0, gen), Times(c, k, key)))
  }

  lemma {:induction false} TimesIsIn(c: Curve, n: nat, p: Point)
    requires c.Lawful() && c.has(p)
    ensures c.has(Times(c, n, p))
  {
    if n > 0 {
      TimesIsIn(c, n - 1, p);
      assert c.Closed(Times(c, n - 1, p), p);
    }
  }

  lemma {:induction false} TimesSum(c: Curve, a: nat, b: nat, p: Point)
    requires c.Lawful() && c.has(p)
    ensures Times(c, a + b, p) == c.add(Times(c, a, p), Times(c, b, p))
  {
    TimesIsIn(c, a, p);
    if b == 0 {
      assert c.Inverts(Times(c, a, p));
    } else {
      TimesSum(c, a, b - 1, p);
      TimesIsIn(c, b - 1, p);
      assert c.Associates(Times(c, a, p), Times(c, b - 1, p), p);
    }
  }

  lemma OnceIsItself(c: Curve, p: Point)
    requires c.Lawful() && c.has(p)
    ensures Times(c, 1, p) == p
  {
    assert Times(c, 0, p) == c.zero;
    assert c.Commutes(c.zero, p) && c.Inverts(p);
  }

  lemma {:induction false} TimesOfSum(c: Curve, n: nat, p: Point, q: Point)
    requires c.Lawful() && c.has(p) && c.has(q)
    ensures Times(c, n, c.add(p, q)) == c.add(Times(c, n, p), Times(c, n, q))
  {
    if n == 0 {
      assert c.Inverts(c.zero);
    } else {
      TimesOfSum(c, n - 1, p, q);
      TimesIsIn(c, n - 1, p);
      TimesIsIn(c, n - 1, q);
      Interchange(c, Times(c, n - 1, p), Times(c, n - 1, q), p, q);
    }
  }

  lemma {:induction false} TimesZero(c: Curve, n: nat)
    requires c.Lawful()
    ensures Times(c, n, c.zero) == c.zero
  {
    if n > 0 {
      TimesZero(c, n - 1);
      assert c.Inverts(c.zero);
    }
  }

  /** k (d p) == d (k p). */
  lemma {:induction false} TimesCommutes(c: Curve, k: nat, d: nat, p: Point)
    requires c.Lawful() && c.has(p)
    ensures Times(c, k, Times(c, d, p)) == Times(c, d, Times(c, k, p))
  {
    if k == 0 {
      TimesZero(c, d);
    } else {
      TimesCommutes(c, k - 1, d, p);
      TimesIsIn(c, k - 1, p);
      TimesOfSum(c, d, Times(c, k - 1, p), p);
    }
  }

  /** The plain point of a sum is the sum of the plain points. */
  lemma PlainPointAdds(c: Curve, d: nat, a: Ciphertext, b: Ciphertext)
    requires c.Lawful() && CiphertextGroup(c).has(a) && CiphertextGroup(c).has(b)
    ensures PlainPoint(c, d, CiphertextGroup(c).add(a, b)) == c.add(PlainPoint(c, d, a), PlainPoint(c, d, b))
  {
    TimesOfSum(c, d, a.c1, b.c1);
    TimesIsIn(c, d, a.c1);
    TimesIsIn(c, d, b.c1);
    SubOfSums(c, a.c2, b.c2, Times(c, d, a.c1), Times(c, d, b.c1));
  }

  lemma PlainPointOfZero(c: Curve, d: nat)
    requires c.Lawful()
    ensures PlainPoint(c, d, CiphertextGroup(c).zero) == c.zero
  {
    TimesZero(c, d);
    assert c.Inverts(c.zero);
  }

  lemma PlainPointIsIn(c: Curve, d: nat, a: Ciphertext)
    requires c.Lawful() && CiphertextGroup(c).has(a)
    ensures c.has(PlainPoint(c, d, a))
  {
    TimesIsIn(c, d, a.c1);
    assert c.Inverts(Times(c, d, a.c1)) && c.Closed(a.c2, c.neg(Times(c, d, a.c1)));
  }

  /** An encryption of zero under the matching key decrypts to the identity, for every k. */
  lemma EncryptedZeroIsZero(c: Curve, gen: Point, d: nat, k: nat)
    requires c.Lawful() && c.has(gen)
    ensures var z := EncryptedZero(c, gen, Times(c, d, gen), k);
            CiphertextGroup(c).has(z) && PlainPoint(c, d, z) == c.zero
  {
    TimesIsIn(c, d, gen);
    TimesIsIn(c, k, gen);
    TimesIsIn(c, k, Times(c, d, gen));
    TimesCommutes(c, k, d, gen);
    var s := Times(c, k, Times(c, d, gen));
    assert c.Commutes(c.zero, s) && c.Inverts(s);
  }

  /** The encryption of m with k: (k G, m G + k key). */
  function EncryptWithK(c: Curve, gen: Point, key: Point, m: nat, k: nat): Ciphertext {
    Ciphertext(Times(c, k, gen), c.add(Times(c, m, gen), Times(c, k, key)))
  }

  /** Decryption takes back whatever was encrypted under the matching key, for every k. */
  lemma DecryptionInverts(c: Curve, gen: Point, d: nat, m: nat, k: nat)
    requires c.Lawful() && c.has(gen)
    ensures Encrypts(c, gen, d, EncryptWithK(c, gen, Times(c, d, gen), m, k), m)
  {
    TimesIsIn(c, d, gen);
    TimesIsIn(c, m, gen);
    TimesIsIn(c, k, Times(c, d, gen));
    TimesCommutes(c, k, d, gen);
    AddSubCancel(c, Times(c, m, gen), Times(c, k, Times(c, d, gen)));
  }

  /** Messages add up under the encryption. */
  lemma EncryptionsAdd(c: Curve, gen: Point, d: nat, a: Ciphertext, b: Ciphertext, m: nat, n: nat)
    requires c.Lawful() && c.has(gen) && CiphertextGroup(c).has(a) && CiphertextGroup(c).has(b)
    requires Encrypts(c, gen, d, a, m) && Encrypts(c, gen, d, b, n)
    ensures Encrypts(c, gen, d, CiphertextGroup(c).add(a, b), m + n)
  {
    PlainPointAdds(c, d, a, b);
    TimesSum(c, m, n, gen);
  }

  // Re-encryption

  /** The hash that derives each k from the previous one. */
  type Hash = nat -> nat

  /** A ballot of encrypted zeros, the k of every field hashed from the one before. */
  method EncryptedZeroBallot(c: Curve, gen: Point, key: Point, hash: Hash, k: nat) returns (r: Ballot)
    ensures r == ZeroEncryptions(c, gen, key, hash, k)
    ensures c.Lawful() && c.has(key) ==> forall i :: 0 <= i < |r| ==>
              r[i].c1 == Times(c, Iterated(hash, k, i), gen) && r[i].c2 == Times(c, Iterated(hash, k, i), key)
  {
    var fields: seq<Ciphertext> := [];
    var lastK := k;
    for i := 0 to FIELDS_PER_BALLOT
      invariant |fields| == i && lastK == Iterated(hash, k, i)
      invariant forall j :: 0 <= j < i ==> fields[j] == EncryptedZero(c, gen, key, Iterated(hash, k, j))
    {
      fields := fields + [EncryptedZero(c, gen, key, lastK)];
      lastK := hash(lastK);
    }
    r := fields;
    assert r == ZeroEncryptions(c, gen, key, hash, k);
    if c.Lawful() && c.has(key) {
      forall i | 0 <= i < |r|
        ensures r[i].c1 == Times(c, Iterated(hash, k, i), gen) && r[i].c2 == Times(c, Iterated(hash, k, i), key)
      {
        ZeroPoints(c, gen, key, Iterated(hash, k, i));
      }
    }
  }

  lemma ZeroPoints(c: Curve, gen: Point, key: Point, k: nat)
    requires c.Lawful() && c.has(key)
    ensures var z := EncryptedZero(c, gen, key, k); z.c1 == Times(c, k, gen) && z.c2 == Times(c, k, key)
  {
    TimesIsIn(c, k, key);
    assert Times(c, 0, gen) == c.zero;
    assert c.Commutes(c.zero, Times(c, k, key)) && c.Inverts(Times(c, k, key));
  }

  function Iterated(hash: Hash, k: nat, n: nat): nat {
    if n == 0 then k else hash(Iterated(hash, k, n - 1))
  }

  function ZeroEncryptions(c: Curve, gen: Point, key: Point, hash: Hash, k: nat): (r: Ballot)
    ensures forall j :: 0 <= j < FIELDS_PER_BALLOT ==> r[j] == EncryptedZero(c, gen, key, Iterated(hash, k, j))
  {
    var at := (i: nat) => EncryptedZero(c, gen, key, Iterated(hash, k, i));
    [at(0), at(1), at(2), at(3), at(4), at(5), at(6), at(7)]
  }

  /** What re-encrypting with k gives, the k actually used being its hash. */
  function Reencrypted(c: Curve, gen: Point, key: Point, hash: Hash, b: Ballot, k: nat): Ballot {
    AddBallots(c, b, ZeroEncryptions(c, gen, key, hash, hash(k)))
  }

  /** A ciphertext moved by (k G, k key). */
  ghost predicate Moved(c: Curve, gen: Point, key: Point, from: Ciphertext, k: nat, to: Ciphertext) {
    to.c1 == c.add(from.c1, Times(c, k, gen)) && to.c2 == c.add(from.c2, Times(c, k, key))
  }

  method Reencrypt(c: Curve, gen: Point, key: Point, hash: Hash, b: Ballot, k: nat) returns (r: Ballot, used: nat)
    ensures r == Reencrypted(c, gen, key, hash, b, k) && used == hash(k)
    ensures c.Lawful() && c.has(gen) && c.has(key) ==>
              forall i :: 0 <= i < |b| ==> Moved(c, gen, key, b[i], Iterated(hash, k, i + 1), r[i])
  {
    if c.Lawful() && c.has(gen) && c.has(key) {
      ReencryptionMoves(c, gen, key, hash, b, k);
    }
    used := hash(k);
    var zeros := EncryptedZeroBallot(c, gen, key, hash, used);
    r := AddBallots(c, b, zeros);
  }

  lemma {:induction false} IteratedShift(hash: Hash, k: nat, n: nat)
    ensures Iterated(hash, hash(k), n) == Iterated(hash, k, n + 1)
  {
    if n > 0 {
      IteratedShift(hash, k, n - 1);
    }
  }

  lemma {:induction false} IteratedTwice(hash: Hash, k: nat, n: nat, m: nat)
    ensures Iterated(hash, Iterated(hash, k, n), m) == Iterated(hash, k, n + m)
  {
    if m > 0 {
      IteratedTwice(hash, k, n, m - 1);
    }
  }

  /** Field i moves by the points of k hashed i + 1 times. */
  lemma ReencryptionMoves(c: Curve, gen: Point, key: Point, hash: Hash, b: Ballot, k: nat)
    requires c.Lawful() && c.has(gen) && c.has(key)
    ensures var r := Reencrypted(c, gen, key, hash, b, k);
            forall i :: 0 <= i < |b| ==> Moved(c, gen, key, b[i], Iterated(hash, k, i + 1), r[i])
  {
    var r := Reencrypted(c, gen, key, hash, b, k);
    forall i | 0 <= i < |b| ensures Moved(c, gen, key, b[i], Iterated(hash, k, i + 1), r[i]) {
      IteratedShift(hash, k, i);
      ZeroPoints(c, gen, key, Iterated(hash, k, i + 1));
    }
  }

  /** Unless its k is a multiple of the generator's order, a field never comes out as it was. */
  lemma ReencryptionChanges(c: Curve, gen: Point, key: Point, from: Ciphertext, k: nat, to: Ciphertext)
    requires c.Lawful() && c.has(gen) && CiphertextGroup(c).has(from)
    requires Moved(c, gen, key, from, k, to) && Times(c, k, gen) != c.zero
    ensures to != from
  {
    TimesIsIn(c, k, gen);
    assert c.Commutes(from.c1, Times(c, k, gen));
    AddSubCancel(c, Times(c, k, gen), from.c1);
    assert c.Inverts(from.c1);
  }

  /** Re-encryption stays on the curve and changes no plaintext. */
  lemma ReencryptionKeepsPlaintext(c: Curve, gen: Point, d: nat, hash: Hash, b: Ballot, k: nat, i: nat)
    requires c.Lawful() && c.has(gen) && OnCurve(c, b) && i < FIELDS_PER_BALLOT
    ensures var r := Reencrypted(c, gen, Times(c, d, gen), hash, b, k);
            OnCurve(c, r) && PlainPoint(c, d, r[i]) == PlainPoint(c, d, b[i])
  {
    hide EncryptedZero, PlainPoint, Times;
    var key := Times(c, d, gen);
    var z := ZeroEncryptions(c, gen, key, hash, hash(k));
    forall j | 0 <= j < FIELDS_PER_BALLOT ensures CiphertextGroup(c).has(z[j]) && PlainPoint(c, d, z[j]) == c.zero {
      EncryptedZeroIsZero(c, gen, d, Iterated(hash, hash(k), j));
    }
    CiphertextsAreLawful(c);
    BallotPairLaws(c, b, z);
    PlainPointAdds(c, d, b[i], z[i]);
    PlainPointIsIn(c, d, b[i]);
    assert c.Inverts(PlainPoint(c, d, b[i]));
  }

  // Bounded discrete logarithm

  function FloorSqrt(n: nat): (r: nat)
    ensures r * r <= n < (r + 1) * (r + 1)
  {
    if n == 0 then 0
    else
      var s := FloorSqrt(n - 1);
      if (s + 1) * (s + 1) <= n then s + 1 else s
  }

  /** Below the order, a multiple has one logarithm only. */
  lemma LogIsUnique(c: Curve, p: Point, a: nat, b: nat, n: nat)
    requires c.Lawful() && c.has(p) && OrderExceeds(c, p, n) && a <= n && b <= n
    requires Times(c, a, p) == Times(c, b, p)
    ensures a == b
  {
    if a < b {
      LogDifference(c, p, a, b);
    } else if b < a {
      LogDifference(c, p, b, a);
    }
  }

  lemma LogDifference(c: Curve, p: Point, a: nat, b: nat)
    requires c.Lawful() && c.has(p) && a < b && Times(c, a, p) == Times(c, b, p)
    ensures Times(c, b - a, p) == c.zero
  {
    TimesIsIn(c, a, p);
    TimesIsIn(c, b - a, p);
    TimesSum(c, b - a, a, p);
    AddSubCancel(c, Times(c, b - a, p), Times(c, a, p));
    assert c.Inverts(Times(c, a, p));
  }

  /** The largest bound for which no product of the search overflows 64 bits. */
  const SEARCH_LIMIT: nat := 0xFFFF_FFFF * 0xFFFF_FFFF

  ghost predicate HasLog(c: Curve, beta: Point, alpha: Point, max: nat) {
    exists x: nat :: x <= max && Times(c, x, alpha) == beta
  }

  /** The 64-bit product of the search has wrapped: the logarithm lies just above 2^64. */
  ghost predicate HasWrappedLog(c: Curve, beta: Point, alpha: Point, max: nat) {
    max > SEARCH_LIMIT && exists y: nat :: UINT64_LIMIT <= y < UINT64_LIMIT + MAX_STEPS && Times(c, y, alpha) == beta
  }

  /** Steps for the largest bounds, whose product with itself is 2^64. */
  const MAX_STEPS: nat := 0x1_0000_0000

  /** The first m multiples, each with its factor. */
  method BabySteps(c: Curve, alpha: Point, m: nat) returns (table: map<Point, nat>)
    ensures Table(c, alpha, m, table)
  {
    hide Times;
    NoMultiple(c, alpha);
    table := map[];
    var baby := c.zero;
    for j := 0 to m
      invariant baby == Times(c, j, alpha)
      invariant forall p :: p in table ==> table[p] < j && Times(c, table[p], alpha) == p
      invariant forall k :: 0 <= k < j ==> Times(c, k, alpha) in table
    {
      NextMultiple(c, alpha, j);
      table := table[baby := j];
      baby := c.add(baby, alpha);
    }
  }

  /** With giant + (i m) alpha == beta, the logarithms of giant and beta differ by i m. */
  lemma GiantStep(c: Curve, alpha: Point, beta: Point, giant: Point, base: nat, j: nat)
    requires c.Lawful() && c.has(alpha) && c.has(giant) && c.add(giant, Times(c, base, alpha)) == beta
    ensures Times(c, base + j, alpha) == beta <==> Times(c, j, alpha) == giant
  {
    TimesSum(c, j, base, alpha);
    TimesIsIn(c, base, alpha);
    TimesIsIn(c, j, alpha);
    AddSubCancel(c, giant, Times(c, base, alpha));
    AddSubCancel(c, Times(c, j, alpha), Times(c, base, alpha));
  }

  lemma NextGiant(c: Curve, alpha: Point, beta: Point, giant: Point, base: nat, m: nat)
    requires c.Lawful() && c.has(alpha) && c.has(giant) && c.add(giant, Times(c, base, alpha)) == beta
    ensures var next := c.add(giant, c.neg(Times(c, m, alpha)));
            c.has(next) && c.add(next, Times(c, base + m, alpha)) == beta
  {
    TimesSum(c, m, base, alpha);
    TimesIsIn(c, base, alpha);
    TimesIsIn(c, m, alpha);
    AddSubCancel(c, giant, Times(c, m, alpha));
    assert c.Associates(c.Sub(giant, Times(c, m, alpha)), Times(c, m, alpha), Times(c, base, alpha));
  }

  /**
   Baby-step giant-step. It finds the logarithm whenever there is one up to
   `max`; when there is none it answers only for bounds above the search limit,
   and then exactly if the logarithm lies just above 2^64.
   */
  method DiscreteLog(c: Curve, beta: Point, alpha: Point, max: nat) returns (r: Option<nat>)
    requires c.Lawful() && c.has(alpha) && c.has(beta)
    requires max < UINT64_LIMIT && OrderExceeds(c, alpha, max)
    ensures r.Some? <==> HasLog(c, beta, alpha, max) || HasWrappedLog(c, beta, alpha, max)
    ensures r.Some? ==> r.value <= max
    ensures HasLog(c, beta, alpha, max) ==> r.Some? && Times(c, r.value, alpha) == beta
    ensures r.Some? && !HasLog(c, beta, alpha, max) ==> Times(c, UINT64_LIMIT + r.value, alpha) == beta
  {
    hide Times, OrderExceeds, FloorSqrt, Group.Lawful, NoLogBelow, Candidate, HasWrappedLog, HasLog;
    NoMultiple(c, alpha);
    if max == 0 {
      LogOfZero(c, beta, alpha);
      if beta == c.zero {
        return Some(0);
      }
      return None;
    }
    var m := FloorSqrt(max);
    if m * m < max {
      m := m + 1;
    }
    StepBounds(max, m);
    var table := BabySteps(c, alpha, m);
    var step := c.neg(Times(c, m, alpha));
    var giant := beta;
    SearchStarts(c, beta, alpha, max);
    ghost var base: nat := 0;
    for i := 0 to m + 1
      invariant base == i * m
      invariant c.has(giant) && c.add(giant, Times(c, base, alpha)) == beta
      invariant NoLogBelow(c, beta, alpha, max, base)
      invariant i == m + 1 ==> !HasWrappedLog(c, beta, alpha, max)
    {
      if giant in table {
        var j := table[giant];
        var x := Candidate(i, m, j);
        if x <= max {
          FoundLog(c, alpha, beta, giant, i, m, j, max);
          return Some(x);
        }
        StepsPastTheEnd(c, alpha, beta, giant, i, m, j, max);
      }
      if i == m {
        LastWindow(c, alpha, beta, giant, m, table, max);
      }
      NoLogInWindow(c, alpha, beta, giant, base, m, table, max);
      NextGiant(c, alpha, beta, giant, base, m);
      giant := c.add(giant, step);
      base := base + m;
      NextBase(i, m);
    }
    NextBase(m, m);
    SearchEnds(c, beta, alpha, max, base);
    r := None;
  }

  lemma LogOfZero(c: Curve, beta: Point, alpha: Point)
    ensures HasLog(c, beta, alpha, 0) <==> beta == c.zero
    ensures !HasWrappedLog(c, beta, alpha, 0)
    ensures Times(c, 0, alpha) == c.zero
  {
    assert Times(c, 0, alpha) == c.zero;
  }

  /** A candidate within the bound is the logarithm, except in the very last step of the largest searches. */
  lemma FoundLog(c: Curve, alpha: Point, beta: Point, giant: Point, i: nat, m: nat, j: nat, max: nat)
    requires c.Lawful() && c.has(alpha) && c.has(giant) && c.add(giant, Times(c, i * m, alpha)) == beta
    requires i <= m <= MAX_STEPS && j < m && Times(c, j, alpha) == giant
    requires max < UINT64_LIMIT && max <= m * m && (m == MAX_STEPS <==> max > SEARCH_LIMIT)
    requires NoLogBelow(c, beta, alpha, max, i * m) && Candidate(i, m, j) <= max
    ensures var x := Candidate(i, m, j);
            if i < MAX_STEPS then Times(c, x, alpha) == beta && HasLog(c, beta, alpha, max)
            else Times(c, UINT64_LIMIT + x, alpha) == beta && !HasLog(c, beta, alpha, max) && HasWrappedLog(c, beta, alpha, max)
  {
    hide Times, Candidate, NoLogBelow, HasLog, HasWrappedLog, Group.Lawful;
    if i < MAX_STEPS {
      NoOverflow(m, i, j);
      FoundInside(c, alpha, beta, giant, i * m, j, max);
    } else {
      Wraps(j);
      FoundBeyond(c, alpha, beta, giant, j, max);
    }
  }

  lemma FoundInside(c: Curve, alpha: Point, beta: Point, giant: Point, base: nat, j: nat, max: nat)
    requires c.Lawful() && c.has(alpha) && c.has(giant) && c.add(giant, Times(c, base, alpha)) == beta
    requires Times(c, j, alpha) == giant && base + j <= max
    ensures Times(c, base + j, alpha) == beta && HasLog(c, beta, alpha, max)
  {
    hide Times, HasLog, Group.Lawful;
    GiantStep(c, alpha, beta, giant, base, j);
    IsLog(c, beta, alpha, max, base + j);
  }

  lemma FoundBeyond(c: Curve, alpha: Point, beta: Point, giant: Point, j: nat, max: nat)
    requires c.Lawful() && c.has(alpha) && c.has(giant) && c.add(giant, Times(c, UINT64_LIMIT, alpha)) == beta
    requires Times(c, j, alpha) == giant && j < MAX_STEPS && SEARCH_LIMIT < max < UINT64_LIMIT
    requires NoLogBelow(c, beta, alpha, max, UINT64_LIMIT)
    ensures Times(c, UINT64_LIMIT + j, alpha) == beta
    ensures !HasLog(c, beta, alpha, max) && HasWrappedLog(c, beta, alpha, max)
  {
    hide Times, NoLogBelow, HasLog, HasWrappedLog, Group.Lawful;
    GiantStep(c, alpha, beta, giant, UINT64_LIMIT, j);
    SearchEnds(c, beta, alpha, max, UINT64_LIMIT);
    IsWrappedLog(c, beta, alpha, max, UINT64_LIMIT + j);
  }

  lemma IsLog(c: Curve, beta: Point, alpha: Point, max: nat, x: nat)
    requires x <= max && Times(c, x, alpha) == beta
    ensures HasLog(c, beta, alpha, max)
  {
    hide Times;
  }

  lemma IsWrappedLog(c: Curve, beta: Point, alpha: Point, max: nat, y: nat)
    requires max > SEARCH_LIMIT && UINT64_LIMIT <= y < UINT64_LIMIT + MAX_STEPS && Times(c, y, alpha) == beta
    ensures HasWrappedLog(c, beta, alpha, max)
  {
    hide Times;
  }

  /** A candidate past the bound has not wrapped. */
  lemma StepsPastTheEnd(c: Curve, alpha: Point, beta: Point, giant: Point, i: nat, m: nat, j: nat, max: nat)
    requires i <= m <= MAX_STEPS && j < m && max <= m * m && (m == MAX_STEPS <==> max > SEARCH_LIMIT)
    requires Candidate(i, m, j) > max
    ensures i < MAX_STEPS && i * m + j > max
  {
    hide Candidate;
    if i < MAX_STEPS {
      NoOverflow(m, i, j);
    } else {
      Wraps(j);
    }
  }

  /** If the last step of a largest search finds nothing, the logarithm is not just above 2^64 either. */
  lemma LastWindow(c: Curve, alpha: Point, beta: Point, giant: Point, m: nat, table: map<Point, nat>, max: nat)
    requires c.Lawful() && c.has(alpha) && c.has(giant) && c.add(giant, Times(c, m * m, alpha)) == beta
    requires Table(c, alpha, m, table) && m <= MAX_STEPS && (m == MAX_STEPS <==> max > SEARCH_LIMIT)
    requires giant in table ==> m < MAX_STEPS
    ensures !HasWrappedLog(c, beta, alpha, max)
  {
    hide Times;
    if m == MAX_STEPS {
      Wraps(0);
      forall y: nat | UINT64_LIMIT <= y < UINT64_LIMIT + MAX_STEPS ensures Times(c, y, alpha) != beta {
        GiantStep(c, alpha, beta, giant, m * m, y - UINT64_LIMIT);
      }
    }
  }

  lemma SearchStarts(c: Curve, beta: Point, alpha: Point, max: nat)
    requires c.Lawful() && c.has(beta)
    ensures c.add(beta, Times(c, 0, alpha)) == beta && NoLogBelow(c, beta, alpha, max, 0)
  {
    assert c.Inverts(beta);
  }

  lemma SearchEnds(c: Curve, beta: Point, alpha: Point, max: nat, n: nat)
    requires NoLogBelow(c, beta, alpha, max, n) && max < n
    ensures !HasLog(c, beta, alpha, max)
  {
    hide Times;
  }

  ghost predicate NoLogBelow(c: Curve, beta: Point, alpha: Point, max: nat, n: nat) {
    forall x: nat :: x < n && x <= max ==> Times(c, x, alpha) != beta
  }

  ghost predicate Table(c: Curve, alpha: Point, m: nat, table: map<Point, nat>) {
    && (forall p :: p in table ==> table[p] < m && Times(c, table[p], alpha) == p)
    && (forall k :: 0 <= k < m ==> Times(c, k, alpha) in table)
  }

  /** A giant step that finds nothing rules out the next m logarithms. */
  lemma NoLogInWindow(c: Curve, alpha: Point, beta: Point, giant: Point, base: nat, m: nat,
                      table: map<Point, nat>, max: nat)
    requires c.Lawful() && c.has(alpha) && c.has(giant) && c.add(giant, Times(c, base, alpha)) == beta
    requires Table(c, alpha, m, table) && m <= max && OrderExceeds(c, alpha, max)
    requires giant in table ==> base + table[giant] > max
    requires NoLogBelow(c, beta, alpha, max, base)
    ensures NoLogBelow(c, beta, alpha, max, base + m)
  {
    hide Times, OrderExceeds;
    forall x: nat | base <= x < base + m && x <= max ensures Times(c, x, alpha) != beta {
      var k := x - base;
      GiantStep(c, alpha, beta, giant, base, k);
      if Times(c, k, alpha) == giant {
        LogIsUnique(c, alpha, k, table[giant], max);
      }
    }
  }

  lemma NextMultiple(c: Curve, p: Point, n: nat)
    ensures Times(c, n + 1, p) == c.add(Times(c, n, p), p)
  {
  }

  lemma NoMultiple(c: Curve, p: Point)
    ensures Times(c, 0, p) == c.zero
  {
  }

  lemma StepBounds(max: nat, m: nat)
    requires 0 < max < UINT64_LIMIT
    requires m == FloorSqrt(max) + if FloorSqrt(max) * FloorSqrt(max) < max then 1 else 0
    ensures 0 < m <= max && max <= m * m && m <= MAX_STEPS
    ensures m == MAX_STEPS <==> max > SEARCH_LIMIT
  {
    hide FloorSqrt;
    var s := FloorSqrt(max);
    SquareOrder(s, 0xFFFF_FFFF);
    SquareOrder(0xFFFF_FFFF, s);
    SquareOrder(s, MAX_STEPS);
    assert s <= s * s;
  }

  /** The 64-bit i m + j of the search. */
  function Candidate(i: nat, m: nat, j: nat): nat {
    ((i * m) % UINT64_LIMIT + j) % UINT64_LIMIT
  }

  lemma NextBase(i: nat, m: nat)
    ensures (i + 1) * m == i * m + m
  {
  }

  lemma NoOverflow(m: nat, i: nat, j: nat)
    requires i <= m <= MAX_STEPS && i < MAX_STEPS && j < m
    ensures Candidate(i, m, j) == i * m + j
  {
    ProductOrder(i + 1, m, MAX_STEPS, MAX_STEPS);
    assert (i + 1) * m == i * m + m;
  }

  lemma Wraps(j: nat)
    requires j < MAX_STEPS
    ensures Candidate(MAX_STEPS, MAX_STEPS, j) == j
    ensures MAX_STEPS * MAX_STEPS == UINT64_LIMIT
  {
  }
}
