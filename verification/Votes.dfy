/** Votes and the layout of the ballot leaves they leave in the state tree. */
module Votes {
  import opened Wrappers
  import opened Params
  import opened Ballots
  import opened Tree

  /** A vote; nil pointers are None. */
  datatype Vote = Vote(
    address: Option<int>,
    ballotIndex: nat,
    voteID: nat,
    ballot: Option<Ballot>,
    overwrittenBallot: Option<Ballot>,
    weight: Option<int>,
    reencryptedBallot: Ballot)

  datatype BallotLeaf = BallotLeaf(ballot: Ballot, address: int, weight: int)

  const VOTE_ID_LEAF: seq<int> := [VOTE_ID_LEAF_VALUE]

  function OrZero(x: Option<int>): int {
    match x case Some(v) => v case None => 0
  }

  /** Ballot coordinates, then address, then weight. */
  function TreeLeafValues(v: Vote): seq<int> {
    BigInts(v.reencryptedBallot) + [OrZero(v.address), OrZero(v.weight)]
  }

  /** Reads a leaf back; missing metadata counts as zero, missing coordinates are an error. */
  function DecodeLeaf(values: seq<int>): Result<BallotLeaf, Error> {
    if |values| < COORDS_PER_BALLOT then Err(Failed("too few ballot values"))
    else
      var ballot := SetBigInts(values[..COORDS_PER_BALLOT]).value;
      var address := if |values| > COORDS_PER_BALLOT then values[COORDS_PER_BALLOT] else 0;
      var weight := if |values| > COORDS_PER_BALLOT + 1 then values[COORDS_PER_BALLOT + 1] else 0;
      Ok(BallotLeaf(ballot, address, weight))
  }

  /** Reading a written ballot leaf gives back the ballot, the address and the weight. */
  lemma LeafRoundTrip(v: Vote)
    ensures DecodeLeaf(TreeLeafValues(v)) == Ok(BallotLeaf(v.reencryptedBallot, OrZero(v.address), OrZero(v.weight)))
  {
    var values := TreeLeafValues(v);
    assert values[..COORDS_PER_BALLOT] == BigInts(v.reencryptedBallot);
    CoordinatesRoundTrip(v.reencryptedBallot, []);
  }

  /** Two well-formed leaves that decode alike are the same leaf. */
  lemma LeafIsDetermined(a: seq<int>, b: seq<int>)
    requires |a| == |b| == COORDS_PER_BALLOT + 2 && DecodeLeaf(a) == DecodeLeaf(b)
    ensures a == b
  {
    var n := COORDS_PER_BALLOT;
    CoordinatesRoundTrip(SetBigInts(a[..n]).value, a[..n]);
    CoordinatesRoundTrip(SetBigInts(b[..n]).value, b[..n]);
    assert a == a[..n] + [a[n], a[n + 1]] && b == b[..n] + [b[n], b[n + 1]];
  }

  /** The stored ballot leaf at an index, if there is a readable one. */
  function StoredLeaf(leaves: Leaves, ballotIndex: nat): Option<BallotLeaf> {
    if ballotIndex in leaves && DecodeLeaf(leaves[ballotIndex]).Ok?
    then Some(DecodeLeaf(leaves[ballotIndex]).value)
    else None
  }

  function ResultsOf(t: Tx): Result<Ballot, Error> {
    match Get(t, KEY_RESULTS)
    case Err(e) => Err(Failed("failed to get results from state"))
    case Ok(values) =>
      match SetBigInts(values)
      case Ok(b) => Ok(b)
      case Err(reason) => Err(Failed(reason))
  }
}
