/** Protocol parameters and the key spaces of the state tree. */
module Params {
  import opened Wrappers

  const FIELDS_PER_BALLOT: nat := 8
  const VOTES_PER_BATCH: nat := 60

  /** Coordinates of one ballot: C1.X, C1.Y, C2.X and C2.Y of every field. */
  const COORDS_PER_BALLOT: nat := 4 * FIELDS_PER_BALLOT

  const VOTE_ID_LEAF_VALUE: int := 0

  const KEY_PROCESS_ID: nat := 0x00
  const KEY_BALLOT_MODE: nat := 0x02
  const KEY_ENCRYPTION_KEY: nat := 0x03
  const KEY_RESULTS: nat := 0x04
  const KEY_CENSUS_ORIGIN: nat := 0x06

  const UINT64_LIMIT: nat := 0x1_0000_0000_0000_0000
  const CONFIG_MAX: nat := 0x0F
  const BALLOT_MIN: nat := CONFIG_MAX + 1
  const BALLOT_MAX: nat := VOTE_ID_MIN - 1
  const VOTE_ID_MIN: nat := 0x8000_0000_0000_0000
  const VOTE_ID_MAX: nat := UINT64_LIMIT - 1
  const VOTER_INDEX_MAX: nat := BALLOT_MAX - BALLOT_MIN

  predicate ValidVoteID(v: int) {
    VOTE_ID_MIN <= v <= VOTE_ID_MAX
  }

  predicate ValidBallotIndex(b: int) {
    BALLOT_MIN <= b <= BALLOT_MAX
  }

  /** A nil, negative or oversized big integer is not a state key. */
  function BigIntToStateKey(x: Option<int>): Result<nat, string> {
    match x
    case None => Err("nil big.Int")
    case Some(v) =>
      if v < 0 then Err("negative value")
      else if v >= UINT64_LIMIT then Err("overflows uint64")
      else Ok(v)
  }

  function BigIntToVoteID(x: Option<int>): Result<nat, string> {
    var k :- BigIntToStateKey(x);
    if ValidVoteID(k) then Ok(k) else Err("out of range")
  }

  function BigIntToBallotIndex(x: Option<int>): Result<nat, string> {
    var k :- BigIntToStateKey(x);
    if ValidBallotIndex(k) then Ok(k) else Err("out of range")
  }

  /** The ballot key of a voter; the Go wrapper panics on the error. */
  function CalculateBallotIndex(voterIndex: nat): Result<nat, string> {
    if voterIndex > VOTER_INDEX_MAX then Err("voterIndex too big")
    else Ok(BALLOT_MIN + voterIndex)
  }

  /**
   The three key spaces are disjoint, cover every 64-bit key, and each
   conversion accepts exactly its own space and leaves the number unchanged.
   */
  lemma KeySpacesPartition(x: int)
    ensures BigIntToVoteID(Some(x)).Ok? <==> ValidVoteID(x)
    ensures BigIntToBallotIndex(Some(x)).Ok? <==> ValidBallotIndex(x)
    ensures BigIntToVoteID(Some(x)).Ok? ==> BigIntToVoteID(Some(x)).value == x
    ensures BigIntToBallotIndex(Some(x)).Ok? ==> BigIntToBallotIndex(Some(x)).value == x
    ensures !(BigIntToVoteID(Some(x)).Ok? && BigIntToBallotIndex(Some(x)).Ok?)
    ensures BigIntToStateKey(Some(x)).Ok? <==>
            (x in {KEY_PROCESS_ID, KEY_BALLOT_MODE, KEY_ENCRYPTION_KEY, KEY_RESULTS, KEY_CENSUS_ORIGIN}
             || (0 <= x <= CONFIG_MAX && x !in {0, 2, 3, 4, 6})
             || BigIntToVoteID(Some(x)).Ok? || BigIntToBallotIndex(Some(x)).Ok?)
  {
  }

  /** Voters get distinct ballot keys, and every ballot key belongs to a voter. */
  lemma BallotIndexBijection(v: nat, w: nat, b: nat)
    ensures v <= VOTER_INDEX_MAX <==> CalculateBallotIndex(v).Ok?
    ensures CalculateBallotIndex(v).Ok? ==> ValidBallotIndex(CalculateBallotIndex(v).value)
    ensures CalculateBallotIndex(v).Ok? && CalculateBallotIndex(v) == CalculateBallotIndex(w) ==> v == w
    ensures ValidBallotIndex(b) ==> CalculateBallotIndex(b - BALLOT_MIN) == Ok(b)
  {
  }
}
