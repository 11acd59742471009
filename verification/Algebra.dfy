/**
 Commutative groups and sums over finite maps keyed by naturals.

 The tally, the statistics and the decryption bound are all statements about
 "the sum of one quantity over every entry of a store", so the sum and its
 update law are stated once, for any commutative group.
 */
module Algebra {

  /** A commutative group on the values satisfying `has`. */
  datatype Group<!T(!new)> = Group(has: T -> bool, zero: T, add: (T, T) -> T, neg: T -> T) {

    // The laws are named so that a proof instantiates them one at a time.

    ghost predicate Closed(a: T, b: T) { has(add(a, b)) }

    ghost predicate Commutes(a: T, b: T) { add(a, b) == add(b, a) }

    ghost predicate Associates(a: T, b: T, c: T) { add(add(a, b), c) == add(a, add(b, c)) }

    ghost predicate Inverts(a: T) { has(neg(a)) && add(a, neg(a)) == zero && add(a, zero) == a }

    ghost predicate Lawful() {
      && has(zero)
      && (forall a, b {:trigger Closed(a, b)} :: has(a) && has(b) ==> Closed(a, b))
      && (forall a, b {:trigger Commutes(a, b)} :: has(a) && has(b) ==> Commutes(a, b))
      && (forall a, b, c {:trigger Associates(a, b, c)} :: has(a) && has(b) && has(c) ==> Associates(a, b, c))
      && (forall a {:trigger Inverts(a)} :: has(a) ==> Inverts(a))
    }

    function Sub(a: T, b: T): T {
      add(a, neg(b))
    }
  }

  /** Every value of the map belongs to the group. */
  ghost predicate Within<T(!new)>(g: Group<T>, m: map<nat, T>) {
    forall k :: k in m ==> g.has(m[k])
  }

  /** The sum of the entries of `m` with key below `n`. */
  ghost function SumTo<T(!new)>(g: Group<T>, m: map<nat, T>, n: nat): T {
    if n == 0 then g.zero
    else if n - 1 in m then g.add(SumTo(g, m, n - 1), m[n - 1])
    else SumTo(g, m, n - 1)
  }

  /** What the map holds at `k`, an absent entry counting as zero. */
  function At<T(!new)>(g: Group<T>, m: map<nat, T>, k: nat): T {
    if k in m then m[k] else g.zero
  }

  lemma {:induction false} SumToIsIn<T(!new)>(g: Group<T>, m: map<nat, T>, n: nat)
    requires g.Lawful() && Within(g, m)
    ensures g.has(SumTo(g, m, n))
  {
    if n > 0 {
      SumToIsIn(g, m, n - 1);
      if n - 1 in m {
        assert g.Closed(SumTo(g, m, n - 1), m[n - 1]);
      }
    }
  }

  /** Maps that agree below `n` have the same sum. */
  lemma {:induction false} SumToAgrees<T(!new)>(g: Group<T>, m: map<nat, T>, m': map<nat, T>, n: nat)
    requires forall k :: k < n ==> (k in m <==> k in m')
    requires forall k :: k < n && k in m ==> m[k] == m'[k]
    ensures SumTo(g, m, n) == SumTo(g, m', n)
  {
    if n > 0 {
      SumToAgrees(g, m, m', n - 1);
    }
  }

  /** (a - b) + b and (a + b) - b are both a. */
  lemma AddSubCancel<T(!new)>(g: Group<T>, a: T, b: T)
    requires g.Lawful() && g.has(a) && g.has(b)
    ensures g.has(g.Sub(a, b))
    ensures g.add(g.Sub(a, b), b) == a
    ensures g.Sub(g.add(a, b), b) == a
  {
    assert g.Inverts(a) && g.Inverts(b);
    assert g.Closed(a, g.neg(b));
    assert g.Commutes(g.neg(b), b);
    assert g.Associates(a, g.neg(b), b) && g.Associates(a, b, g.neg(b));
  }

  /** Adding the difference y - x turns a + x into a + y. */
  lemma Exchange<T(!new)>(g: Group<T>, a: T, x: T, y: T)
    requires g.Lawful() && g.has(a) && g.has(x) && g.has(y)
    ensures g.add(g.add(a, x), g.Sub(y, x)) == g.add(a, y)
  {
    AddSubCancel(g, y, x);
    assert g.Associates(a, x, g.Sub(y, x)) && g.Commutes(x, g.Sub(y, x));
  }

  lemma SwapLast<T(!new)>(g: Group<T>, a: T, b: T, c: T)
    requires g.Lawful() && g.has(a) && g.has(b) && g.has(c)
    ensures g.add(g.add(a, b), c) == g.add(g.add(a, c), b)
  {
    assert g.Commutes(b, c) && g.Associates(a, b, c) && g.Associates(a, c, b);
  }

  /** (a + b) + (x + y) == (a + x) + (b + y). */
  lemma Interchange<T(!new)>(g: Group<T>, a: T, b: T, x: T, y: T)
    requires g.Lawful() && g.has(a) && g.has(b) && g.has(x) && g.has(y)
    ensures g.has(g.add(a, b)) && g.has(g.add(x, y))
    ensures g.add(g.add(a, b), g.add(x, y)) == g.add(g.add(a, x), g.add(b, y))
  {
    assert g.Closed(a, b) && g.Closed(x, y) && g.Closed(b, y) && g.Closed(a, x);
    assert g.Associates(a, b, g.add(x, y)) && g.Associates(b, x, y);
    assert g.Commutes(b, x);
    assert g.Associates(x, b, y) && g.Associates(a, x, g.add(b, y));
  }

  /** What cancels a member is its negation. */
  lemma InverseIsUnique<T(!new)>(g: Group<T>, a: T, n: T)
    requires g.Lawful() && g.has(a) && g.has(n) && g.add(a, n) == g.zero
    ensures n == g.neg(a)
  {
    assert g.Inverts(a) && g.Inverts(n) && g.Inverts(g.neg(a));
    assert g.Commutes(a, n) && g.Associates(n, a, g.neg(a));
    assert g.Commutes(g.zero, g.neg(a));
  }

  /** (a + b) - (x + y) == (a - x) + (b - y). */
  lemma SubOfSums<T(!new)>(g: Group<T>, a: T, b: T, x: T, y: T)
    requires g.Lawful() && g.has(a) && g.has(b) && g.has(x) && g.has(y)
    ensures g.has(g.Sub(a, x)) && g.has(g.Sub(b, y)) && g.has(g.add(a, b)) && g.has(g.add(x, y))
    ensures g.Sub(g.add(a, b), g.add(x, y)) == g.add(g.Sub(a, x), g.Sub(b, y))
  {
    assert g.Inverts(x) && g.Inverts(y) && g.Inverts(g.zero);
    Interchange(g, x, y, g.neg(x), g.neg(y));
    InverseIsUnique(g, g.add(x, y), g.add(g.neg(x), g.neg(y)));
    Interchange(g, a, b, g.neg(x), g.neg(y));
    assert g.Closed(a, g.neg(x)) && g.Closed(b, g.neg(y));
  }

  /** (b - x) + (x - s) == b - s. */
  lemma Telescope<T(!new)>(g: Group<T>, b: T, x: T, s: T)
    requires g.Lawful() && g.has(b) && g.has(x) && g.has(s)
    ensures g.has(g.Sub(b, x)) && g.has(g.Sub(x, s)) && g.has(g.Sub(b, s))
    ensures g.add(g.Sub(b, x), g.Sub(x, s)) == g.Sub(b, s)
  {
    assert g.Inverts(x) && g.Inverts(s);
    assert g.Closed(b, g.neg(x)) && g.Closed(x, g.neg(s)) && g.Closed(b, g.neg(s));
    AddSubCancel(g, b, x);
    assert g.Associates(g.Sub(b, x), x, g.neg(s));
  }

  /**
   One accounted step: the sum t moves by b - x, the drift d by x - s, the
   additions a by b and the subtractions o by s; the balance is kept.
   */
  lemma BalancedStep<T(!new)>(g: Group<T>, t0: T, t: T, d: T, a: T, o: T, b: T, x: T, s: T)
    requires g.Lawful()
    requires g.has(t0) && g.has(t) && g.has(d) && g.has(a) && g.has(o) && g.has(b) && g.has(x) && g.has(s)
    requires g.add(t, d) == g.add(t0, g.Sub(a, o))
    ensures g.add(g.add(t, g.Sub(b, x)), g.add(d, g.Sub(x, s))) == g.add(t0, g.Sub(g.add(a, b), g.add(o, s)))
  {
    Telescope(g, b, x, s);
    SubOfSums(g, a, b, o, s);
    Interchange(g, t, g.Sub(b, x), d, g.Sub(x, s));
    assert g.Associates(t0, g.Sub(a, o), g.Sub(b, s));
  }

  /** With r the old results and t0 the old tally, what the batch leaves over is exactly the drift. */
  lemma BalancedTotal<T(!new)>(g: Group<T>, r: T, t0: T, t: T, d: T, a: T, o: T)
    requires g.Lawful()
    requires g.has(r) && g.has(t0) && g.has(t) && g.has(d) && g.has(a) && g.has(o)
    requires g.add(t, d) == g.add(t0, g.Sub(a, o))
    ensures g.Sub(g.add(g.add(r, a), g.neg(o)), t) == g.add(g.Sub(r, t0), d)
  {
    assert g.Inverts(o) && g.Inverts(t) && g.Inverts(t0) && g.Inverts(d);
    AddSubCancel(g, a, o);
    AddSubCancel(g, r, t0);
    var n := g.Sub(a, o);
    assert g.Associates(r, a, g.neg(o));
    // r + n - t == (r - t0) + (t0 + n) - t == (r - t0) + (t + d) - t
    assert g.Associates(g.Sub(r, t0), t0, n);
    assert g.Closed(r, n) && g.Closed(t, d);
    assert g.Associates(g.Sub(r, t0), g.add(t, d), g.neg(t));
    assert g.Commutes(t, d);
    AddSubCancel(g, d, t);
  }

  /** Two members are equal exactly when their difference is zero. */
  lemma DifferenceIsZero<T(!new)>(g: Group<T>, a: T, b: T)
    requires g.Lawful() && g.has(a) && g.has(b)
    ensures a == b <==> g.Sub(a, b) == g.zero
  {
    assert g.Inverts(a) && g.Inverts(b);
    AddSubCancel(g, a, b);
    assert g.Commutes(g.zero, b);
  }

  /**
   Replacing or adding one entry moves the sum by exactly the difference
   between the new and the old value.
   */
  lemma {:induction false} SumToUpdate<T(!new)>(g: Group<T>, m: map<nat, T>, k: nat, v: T, n: nat)
    requires g.Lawful() && Within(g, m) && g.has(v) && k < n
    ensures SumTo(g, m[k := v], n) == g.add(SumTo(g, m, n), g.Sub(v, At(g, m, k)))
  {
    var m' := m[k := v];
    var was := At(g, m, k);
    var below := SumTo(g, m, n - 1);
    AddSubCancel(g, v, was);
    SumToIsIn(g, m, n - 1);
    if k == n - 1 {
      SumToAgrees(g, m, m', n - 1);
      Exchange(g, below, was, v);
      assert g.Inverts(below);
    } else {
      SumToUpdate(g, m, k, v, n - 1);
      if n - 1 in m {
        SwapLast(g, below, g.Sub(v, was), m[n - 1]);
      }
    }
  }

  /** The integers under addition. */
  const INTEGERS: Group<int> := Group((a: int) => true, 0, (a: int, b: int) => a + b, (a: int) => -a)

  lemma IntegersAreLawful()
    ensures INTEGERS.Lawful()
  {
  }
}
