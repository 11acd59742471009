/** Homomorphic ballots: vectors of ElGamal ciphertexts over an abstract curve. */
module Ballots {
  import opened Wrappers
  import opened Algebra
  import opened Params

  datatype Point = Point(x: int, y: int)

  datatype Ciphertext = Ciphertext(c1: Point, c2: Point)

  const NO_CIPHERTEXT := Ciphertext(Point(0, 0), Point(0, 0))

  type Ballot = b: seq<Ciphertext> | |b| == FIELDS_PER_BALLOT
    witness seq(FIELDS_PER_BALLOT, _ => NO_CIPHERTEXT)

  /** The curve: its points, its identity, addition and negation. */
  type Curve = Group<Point>

  function CiphertextGroup(c: Curve): Group<Ciphertext> {
    Group(
      (a: Ciphertext) => c.has(a.c1) && c.has(a.c2),
      Ciphertext(c.zero, c.zero),
      (a: Ciphertext, b: Ciphertext) => Ciphertext(c.add(a.c1, b.c1), c.add(a.c2, b.c2)),
      (a: Ciphertext) => Ciphertext(c.neg(a.c1), c.neg(a.c2)))
  }

  predicate OnCurve(c: Curve, a: Ballot) {
    forall i :: 0 <= i < FIELDS_PER_BALLOT ==> CiphertextGroup(c).has(a[i])
  }

  function ZeroBallot(c: Curve): Ballot {
    var z := CiphertextGroup(c).zero;
    [z, z, z, z, z, z, z, z]
  }

  function AddBallots(c: Curve, a: Ballot, b: Ballot): (r: Ballot)
    ensures forall i :: 0 <= i < FIELDS_PER_BALLOT ==> r[i] == CiphertextGroup(c).add(a[i], b[i])
  {
    var g := CiphertextGroup(c);
    [g.add(a[0], b[0]), g.add(a[1], b[1]), g.add(a[2], b[2]), g.add(a[3], b[3]),
     g.add(a[4], b[4]), g.add(a[5], b[5]), g.add(a[6], b[6]), g.add(a[7], b[7])]
  }

  function NegBallot(c: Curve, a: Ballot): (r: Ballot)
    ensures forall i :: 0 <= i < FIELDS_PER_BALLOT ==> r[i] == CiphertextGroup(c).neg(a[i])
  {
    var g := CiphertextGroup(c);
    [g.neg(a[0]), g.neg(a[1]), g.neg(a[2]), g.neg(a[3]), g.neg(a[4]), g.neg(a[5]), g.neg(a[6]), g.neg(a[7])]
  }

  /** Ballots are added and negated field by field. */
  function BallotGroup(c: Curve): Group<Ballot> {
    var has: Ballot -> bool := (a: Ballot) => OnCurve(c, a);
    var add: (Ballot, Ballot) -> Ballot := (a: Ballot, b: Ballot) => AddBallots(c, a, b);
    var neg: Ballot -> Ballot := (a: Ballot) => NegBallot(c, a);
    Group(has, ZeroBallot(c), add, neg)
  }

  lemma CiphertextsAreLawful(c: Curve)
    requires c.Lawful()
    ensures CiphertextGroup(c).Lawful()
  {
    var g := CiphertextGroup(c);
    forall a, b | g.has(a) && g.has(b) ensures g.Closed(a, b) && g.Commutes(a, b) {
      assert c.Closed(a.c1, b.c1) && c.Closed(a.c2, b.c2);
      assert c.Commutes(a.c1, b.c1) && c.Commutes(a.c2, b.c2);
    }
    forall a, b, d | g.has(a) && g.has(b) && g.has(d) ensures g.Associates(a, b, d) {
      assert c.Associates(a.c1, b.c1, d.c1) && c.Associates(a.c2, b.c2, d.c2);
    }
    forall a | g.has(a) ensures g.Inverts(a) {
      assert c.Inverts(a.c1) && c.Inverts(a.c2);
    }
  }

  lemma BallotPairLaws(c: Curve, a: Ballot, b: Ballot)
    requires CiphertextGroup(c).Lawful() && OnCurve(c, a) && OnCurve(c, b)
    ensures OnCurve(c, AddBallots(c, a, b))
    ensures AddBallots(c, a, b) == AddBallots(c, b, a)
  {
    var g := CiphertextGroup(c);
    var s, t := AddBallots(c, a, b), AddBallots(c, b, a);
    forall i | 0 <= i < FIELDS_PER_BALLOT ensures g.has(s[i]) && s[i] == t[i] {
      assert g.Closed(a[i], b[i]) && g.Commutes(a[i], b[i]);
    }
  }

  lemma BallotTripleLaw(c: Curve, a: Ballot, b: Ballot, d: Ballot)
    requires CiphertextGroup(c).Lawful() && OnCurve(c, a) && OnCurve(c, b) && OnCurve(c, d)
    ensures AddBallots(c, AddBallots(c, a, b), d) == AddBallots(c, a, AddBallots(c, b, d))
  {
    var g := CiphertextGroup(c);
    var s, t := AddBallots(c, AddBallots(c, a, b), d), AddBallots(c, a, AddBallots(c, b, d));
    forall i | 0 <= i < FIELDS_PER_BALLOT ensures s[i] == t[i] {
      assert g.Associates(a[i], b[i], d[i]);
    }
  }

  lemma BallotInverseLaw(c: Curve, a: Ballot)
    requires CiphertextGroup(c).Lawful() && OnCurve(c, a)
    ensures OnCurve(c, NegBallot(c, a))
    ensures AddBallots(c, a, NegBallot(c, a)) == ZeroBallot(c)
    ensures AddBallots(c, a, ZeroBallot(c)) == a
  {
    var g := CiphertextGroup(c);
    var n := NegBallot(c, a);
    var s, t := AddBallots(c, a, n), AddBallots(c, a, ZeroBallot(c));
    forall i | 0 <= i < FIELDS_PER_BALLOT ensures g.has(n[i]) && s[i] == ZeroBallot(c)[i] && t[i] == a[i] {
      assert g.Inverts(a[i]);
    }
  }

  lemma ZeroIsOnCurve(c: Curve)
    requires CiphertextGroup(c).Lawful()
    ensures OnCurve(c, ZeroBallot(c))
  {
  }

  /** The ballots over a lawful curve form a commutative group. */
  lemma BallotsAreLawful(c: Curve)
    requires c.Lawful()
    ensures BallotGroup(c).Lawful()
  {
    hide OnCurve, AddBallots, NegBallot, ZeroBallot;
    CiphertextsAreLawful(c);
    ZeroIsOnCurve(c);
    hide CiphertextGroup;
    var h := BallotGroup(c);
    forall a: Ballot, b: Ballot | h.has(a) && h.has(b) ensures h.Closed(a, b) && h.Commutes(a, b) {
      BallotPairLaws(c, a, b);
    }
    forall a: Ballot, b: Ballot, d: Ballot | h.has(a) && h.has(b) && h.has(d) ensures h.Associates(a, b, d) {
      BallotTripleLaw(c, a, b, d);
    }
    forall a: Ballot | h.has(a) ensures h.Inverts(a) {
      BallotInverseLaw(c, a);
    }
  }

  /** The i-th coordinate, in the order C1.X, C1.Y, C2.X, C2.Y per field. */
  function Coord(b: Ballot, i: nat): int
    requires i < COORDS_PER_BALLOT
  {
    var ct := b[i / 4];
    match i % 4
    case 0 => ct.c1.x
    case 1 => ct.c1.y
    case 2 => ct.c2.x
    case _ => ct.c2.y
  }

  function BigInts(b: Ballot): (r: seq<int>)
    ensures |r| == COORDS_PER_BALLOT
  {
    seq(COORDS_PER_BALLOT, i requires 0 <= i < COORDS_PER_BALLOT => Coord(b, i))
  }

  function FieldAt(list: seq<int>, i: nat): Ciphertext
    requires |list| == COORDS_PER_BALLOT && i < FIELDS_PER_BALLOT
  {
    Ciphertext(Point(list[4 * i], list[4 * i + 1]), Point(list[4 * i + 2], list[4 * i + 3]))
  }

  /** The ballot with the given coordinates; any other number of values is an error. */
  function SetBigInts(list: seq<int>): Result<Ballot, string> {
    if |list| != COORDS_PER_BALLOT then Err("expected 8*4 BigInts")
    else
      var fields := seq(FIELDS_PER_BALLOT, i requires 0 <= i < FIELDS_PER_BALLOT => FieldAt(list, i));
      Ok(fields)
  }

  lemma FieldReadsBack(b: Ballot, i: nat)
    requires i < FIELDS_PER_BALLOT
    ensures FieldAt(BigInts(b), i) == b[i]
  {
    var list := BigInts(b);
    assert list[4 * i] == Coord(b, 4 * i) && list[4 * i + 1] == Coord(b, 4 * i + 1);
    assert list[4 * i + 2] == Coord(b, 4 * i + 2) && list[4 * i + 3] == Coord(b, 4 * i + 3);
  }

  lemma CoordReadsBack(list: seq<int>, i: nat)
    requires |list| == COORDS_PER_BALLOT && i < COORDS_PER_BALLOT
    ensures Coord(SetBigInts(list).value, i) == list[i]
  {
    assert SetBigInts(list).value[i / 4] == FieldAt(list, i / 4);
    assert i == 4 * (i / 4) + i % 4;
  }

  /** Coordinates determine the ballot, and every list of the right length is a ballot. */
  lemma CoordinatesRoundTrip(b: Ballot, list: seq<int>)
    ensures SetBigInts(BigInts(b)) == Ok(b)
    ensures SetBigInts(list).Ok? <==> |list| == COORDS_PER_BALLOT
    ensures SetBigInts(list).Ok? ==> BigInts(SetBigInts(list).value) == list
  {
    var r := SetBigInts(BigInts(b)).value;
    forall i | 0 <= i < FIELDS_PER_BALLOT ensures r[i] == b[i] {
      FieldReadsBack(b, i);
    }
    assert r == b;
    if |list| == COORDS_PER_BALLOT {
      var s := BigInts(SetBigInts(list).value);
      forall i | 0 <= i < COORDS_PER_BALLOT ensures s[i] == list[i] {
        CoordReadsBack(list, i);
      }
      assert s == list;
    }
  }
}
