/** The blob codec: a batch written as 4096 field elements, and read back. */
module Blobs {
  import opened Wrappers
  import opened Params
  import opened Ballots
  import opened Votes
  import opened Bytes

  const CELLS_PER_BLOB: nat := 4096
  const BLOB_LENGTH: nat := CELLS_PER_BLOB * CELL_SIZE
  
  /** 4 + COORDS_PER_BALLOT; products with it are written out as 36. */
  const CELLS_PER_VOTE: nat := 36

  type Value = Option<int>

  /** What ParseBlobData extracts from a blob. */
  datatype BlobData = BlobData(results: seq<int>, votersCount: nat, votes: seq<Vote>)

  // The layout, cell by cell

  /** Four cells hold the coordinates of a field. */
  ghost predicate HoldsField(blob: seq<byte>, at: nat, ct: Ciphertext) {
    && Holds(blob, at, ct.c1.x) && Holds(blob, at + 1, ct.c1.y)
    && Holds(blob, at + 2, ct.c2.x) && Holds(blob, at + 3, ct.c2.y)
  }

  ghost predicate HoldsBallot(blob: seq<byte>, at: nat, b: Ballot) {
    forall f :: 0 <= f < |b| ==> HoldsField(blob, at + 4 * f, b[f])
  }

  /** 36 cells hold the vote ID, the address, the ballot index, the weight and the ballot. */
  ghost predicate HoldsVote(blob: seq<byte>, at: nat, v: Vote) {
    && Holds(blob, at, v.voteID)
    && v.address.Some? && Holds(blob, at + 1, v.address.value)
    && Holds(blob, at + 2, v.ballotIndex)
    && v.weight.Some? && Holds(blob, at + 3, v.weight.value)
    && HoldsBallot(blob, at + 4, v.reencryptedBallot)
  }

  /** The results, the count in cell 32, the votes from cell 33 on, and zeros. */
  ghost predicate LaidOut(blob: seq<byte>, results: Ballot, votes: seq<Vote>) {
    && |blob| == 4096 * 32
    && HoldsBallot(blob, 0, results)
    && Holds(blob, 32, |votes|)
    && (forall i :: 0 <= i < |votes| ==> HoldsVote(blob, 33 + 36 * i, votes[i]))
    && (forall n :: 33 + 36 * |votes| <= n < 4096 ==> Holds(blob, n, 0))
  }

  /** The blob holds the data, at most 60 votes of it, under keys in range. */
  ghost predicate Shows(blob: seq<byte>, data: BlobData) {
    && |blob| == 4096 * 32
    && |data.results| == 32 && (forall j :: 0 <= j < 32 ==> Holds(blob, j, data.results[j]))
    && Holds(blob, 32, data.votersCount)
    && data.votersCount == |data.votes| <= 60
    && (forall i :: 0 <= i < |data.votes| ==>
          && HoldsVote(blob, 33 + 36 * i, data.votes[i])
          && data.votes[i].ballot.None? && data.votes[i].overwrittenBallot.None?
          && 0x8000_0000_0000_0000 <= data.votes[i].voteID < 0x1_0000_0000_0000_0000
          && 16 <= data.votes[i].ballotIndex < 0x8000_0000_0000_0000)
  }

  /** A number the blob can commit to. */
  predicate Element(x: int) {
    0 <= x < BLS_MODULUS
  }

  predicate ElementsOf(b: Ballot) {
    forall f :: 0 <= f < |b| ==> Element(b[f].c1.x) && Element(b[f].c1.y) && Element(b[f].c2.x) && Element(b[f].c2.y)
  }

  /** What a batch must meet to be encoded: no nil, only field elements, and no more votes than fit. */
  predicate Committable(results: Ballot, votes: seq<Vote>) {
    && 33 + 36 * |votes| <= 4096
    && ElementsOf(results)
    && (forall i :: 0 <= i < |votes| ==>
          && Element(votes[i].voteID) && Element(votes[i].ballotIndex)
          && votes[i].address.Some? && Element(votes[i].address.value)
          && votes[i].weight.Some? && Element(votes[i].weight.value)
          && ElementsOf(votes[i].reencryptedBallot))
  }

  function Present(xs: seq<int>): (r: seq<Value>)
    ensures |r| == |xs| && forall i :: 0 <= i < |xs| ==> r[i] == Some(xs[i])
  {
    seq(|xs|, i requires 0 <= i < |xs| => Some(xs[i]))
  }

  function VoteValues(v: Vote): (r: seq<Value>)
    ensures |r| == CELLS_PER_VOTE
  {
    [Some(v.voteID), v.address, Some(v.ballotIndex), v.weight] + Present(BigInts(v.reencryptedBallot))
  }

  function VotesValues(votes: seq<Vote>): (r: seq<Value>)
    ensures |r| == 36 * |votes|
  {
    if |votes| == 0 then [] else VotesValues(votes[..|votes| - 1]) + VoteValues(votes[|votes| - 1])
  }

  function HeaderValues(results: Ballot, count: nat): (r: seq<Value>)
    ensures |r| == COORDS_PER_BALLOT + 1
  {
    Present(BigInts(results)) + [Some(count)]
  }

  /** Results, voters count, then the votes: the order the values are pushed in. */
  function BatchValues(results: Ballot, votes: seq<Vote>): seq<Value> {
    HeaderValues(results, |votes|) + VotesValues(votes)
  }

  /** A value that can be pushed: not nil, not negative, at most 32 bytes. */
  predicate Pushable(x: Value) {
    x.Some? && FitsCell(x.value)
  }

  /** Values that can be written into the cells of a blob. */
  predicate Fits(values: seq<Value>) {
    && |values| <= CELLS_PER_BLOB
    && (forall i :: 0 <= i < |values| ==> Pushable(values[i]))
  }

  /** BLS_MODULUS of EIP-4844, section "Parameters". */
  const BLS_MODULUS: nat := 0x73eda753_299d7d48_3339d808_09a1d805_53bda402_fffe5bfe_ffffffff_00000001

  /** Values a blob can commit to: they fit, and each is a field element. */
  predicate Encodable(values: seq<Value>): (r: bool)
    ensures r ==> Fits(values)
  {
    Fits(values) && forall i :: 0 <= i < |values| ==> values[i].value < BLS_MODULUS
  }

  /** The blob's cells after pushing `values`, the rest still zero. */
  function CellsOf(values: seq<Value>): (r: seq<seq<byte>>)
    requires Fits(values)
    ensures |r| == CELLS_PER_BLOB
  {
    seq(CELLS_PER_BLOB, i requires 0 <= i < CELLS_PER_BLOB =>
      if i < |values| then Cell(values[i].value) else ZERO_CELL)
  }

  function BlobOf(values: seq<Value>): seq<byte>
    requires Fits(values)
  {
    Flatten(CellsOf(values))
  }

  method Push(cells: array<seq<byte>>, cell: nat, x: Value, ghost pushed: seq<Value>)
    returns (r: Result<nat, string>)
    requires Fits(pushed) && cell == |pushed|
    requires cells.Length == CELLS_PER_BLOB && cells[..] == CellsOf(pushed)
    modifies cells
    ensures r.Ok? <==> Fits(pushed + [x])
    ensures r.Ok? ==> r.value == cell + 1 && cells[..] == CellsOf(pushed + [x])
  {
    if cell >= CELLS_PER_BLOB {
      return Err("blob overflow");
    }
    assert (pushed + [x])[cell] == x;
    if x.None? {
      return Err("value is nil");
    }
    if x.value < 0 {
      return Err("value is negative");
    }
    if BitLen(x.value) > CELL_SIZE * 8 {
      return Err("value exceeds 32 bytes");
    }
    cells[cell] := Cell(x.value);
    r := Ok(cell + 1);
    assert forall i :: 0 <= i < |pushed| ==> (pushed + [x])[i] == pushed[i];
  }

  /** Whatever cannot be encoded stays so when more values follow. */
  lemma PrefixFits(values: seq<Value>, n: nat)
    requires n <= |values|
    ensures Fits(values) ==> Fits(values[..n])
  {
  }

  method PushAll(cells: array<seq<byte>>, first: nat, xs: seq<Value>, ghost pushed: seq<Value>)
    returns (r: Result<nat, string>)
    requires Fits(pushed) && first == |pushed|
    requires cells.Length == CELLS_PER_BLOB && cells[..] == CellsOf(pushed)
    modifies cells
    ensures r.Ok? <==> Fits(pushed + xs)
    ensures r.Ok? ==> r.value == first + |xs| && cells[..] == CellsOf(pushed + xs)
  {
    var cell := first;
    for i := 0 to |xs|
      invariant cell == first + i
      invariant Fits(pushed + xs[..i])
      invariant cells[..] == CellsOf(pushed + xs[..i])
    {
      assert pushed + xs[..i + 1] == pushed + xs[..i] + [xs[i]];
      var next := Push(cells, cell, xs[i], pushed + xs[..i]);
      if next.Err? {
        assert (pushed + xs)[..first + i + 1] == pushed + xs[..i + 1];
        PrefixFits(pushed + xs, first + i + 1);
        return next;
      }
      cell := next.value;
    }
    assert xs[..|xs|] == xs;
    r := Ok(cell);
  }

  method PushVotes(cells: array<seq<byte>>, first: nat, votes: seq<Vote>, ghost pushed: seq<Value>)
    returns (r: Result<nat, string>)
    requires Fits(pushed) && first == |pushed|
    requires cells.Length == CELLS_PER_BLOB && cells[..] == CellsOf(pushed)
    modifies cells
    ensures r.Ok? <==> Fits(pushed + VotesValues(votes))
    ensures r.Ok? ==> cells[..] == CellsOf(pushed + VotesValues(votes))
  {
    var cell := first;
    assert pushed + VotesValues(votes[..0]) == pushed;
    for i := 0 to |votes|
      invariant Fits(pushed + VotesValues(votes[..i]))
      invariant cell == |pushed + VotesValues(votes[..i])|
      invariant cells[..] == CellsOf(pushed + VotesValues(votes[..i]))
    {
      ghost var sofar := pushed + VotesValues(votes[..i]);
      assert votes[..i + 1][..i] == votes[..i];
      assert pushed + VotesValues(votes[..i + 1]) == sofar + VoteValues(votes[i]);
      var next := PushAll(cells, cell, VoteValues(votes[i]), sofar);
      if next.Err? {
        ghost var all := pushed + VotesValues(votes);
        VotesValuesPrefix(votes, i + 1);
        assert all[..|sofar| + CELLS_PER_VOTE] == sofar + VoteValues(votes[i]);
        PrefixFits(all, |sofar| + CELLS_PER_VOTE);
        return next;
      }
      cell := next.value;
    }
    assert votes[..|votes|] == votes;
    r := Ok(cell);
  }

  /** Every cell of the blob is a field element. */
  predicate Canonical(blob: seq<byte>)
    requires |blob| == BLOB_LENGTH
  {
    forall i :: 0 <= i < CELLS_PER_BLOB ==> GetCell(blob, i) < BLS_MODULUS
  }

  /** The commitment looks at every cell and refuses the first that is no field element. */
  method CheckCells(blob: seq<byte>) returns (ok: bool)
    requires |blob| == BLOB_LENGTH
    ensures ok <==> Canonical(blob)
  {
    hide FromBytes;
    for i := 0 to CELLS_PER_BLOB
      invariant forall j :: 0 <= j < i ==> GetCell(blob, j) < BLS_MODULUS
    {
      if GetCell(blob, i) >= BLS_MODULUS {
        return false;
      }
    }
    ok := true;
  }

  lemma CanonicalIsEncodable(values: seq<Value>)
    requires Fits(values)
    ensures |BlobOf(values)| == BLOB_LENGTH
    ensures Canonical(BlobOf(values)) <==> Encodable(values)
  {
    hide BlobOf, GetCell;
    CellsReadBack(values, 0);
    forall i | 0 <= i < CELLS_PER_BLOB
      ensures GetCell(BlobOf(values), i) == if i < |values| then values[i].value else 0
    {
      CellsReadBack(values, i);
    }
    assert forall i :: 0 <= i < |values| ==> GetCell(BlobOf(values), i) == values[i].value;
  }

  /** Builds the blob of a staged batch, cell by cell, and refuses it if no commitment to it exists. */
  method ComputeBlob(results: Ballot, votes: seq<Vote>) returns (r: Result<seq<byte>, string>)
    ensures r.Ok? <==> Encodable(BatchValues(results, votes))
    ensures r.Ok? ==> r.value == BlobOf(BatchValues(results, votes))
    ensures r.Ok? <==> Committable(results, votes)
    ensures r.Ok? ==> LaidOut(r.value, results, votes)
  {
    hide Encodable, Canonical, Committable, LaidOut;
    EncodableMeans(results, votes);
    var cells := new seq<byte>[CELLS_PER_BLOB](_ => ZERO_CELL);
    var header := HeaderValues(results, |votes|);
    ghost var values := BatchValues(results, votes);
    assert cells[..] == CellsOf([]);
    assert [] + header == header == values[..|header|];
    PrefixFits(values, |header|);
    var next := PushAll(cells, 0, header, []);
    if next.Err? {
      return Err(next.error);
    }
    next := PushVotes(cells, next.value, votes, header);
    if next.Err? {
      return Err(next.error);
    }
    var blob := Concatenate(cells);
    CanonicalIsEncodable(values);
    var canonical := CheckCells(blob);
    if !canonical {
      return Err("failed to compute commitment");
    }
    BatchIsLaidOut(results, votes);
    r := Ok(blob);
  }

  method Concatenate(cells: array<seq<byte>>) returns (blob: seq<byte>)
    ensures blob == Flatten(cells[..])
  {
    blob := [];
    for i := 0 to cells.Length
      invariant blob == Flatten(cells[..i])
    {
      assert cells[..i + 1][..i] == cells[..i];
      blob := blob + cells[i];
    }
    assert cells[..cells.Length] == cells[..];
  }

  /** The j-th value of the n-th vote. */
  lemma {:induction false} VoteValuesAt(votes: seq<Vote>, n: nat, j: nat)
    requires n < |votes| && j < CELLS_PER_VOTE
    ensures VotesValues(votes)[36 * n + j] == VoteValues(votes[n])[j]
  {
    var init := votes[..|votes| - 1];
    if n < |votes| - 1 {
      VoteValuesAt(init, n, j);
      assert 36 * n + j < |VotesValues(init)|;
    }
  }

  lemma {:induction false} VotesValuesPrefix(votes: seq<Vote>, n: nat)
    requires n <= |votes|
    ensures VotesValues(votes[..n]) <= VotesValues(votes)
  {
    if n < |votes| {
      var init := votes[..|votes| - 1];
      VotesValuesPrefix(init, n);
      assert init[..n] == votes[..n];
    } else {
      assert votes[..n] == votes;
    }
  }

  // Reading back

  /** Cells past the end read as zero. */
  function GetCell(blob: seq<byte>, i: nat): nat
    requires |blob| == BLOB_LENGTH
  {
    if i >= CELLS_PER_BLOB then 0 else FromBytes(blob[32 * i..32 * (i + 1)])
  }

  function GetCells(blob: seq<byte>, from: nat, n: nat): (r: seq<int>)
    requires |blob| == BLOB_LENGTH
    ensures |r| == n && forall i :: 0 <= i < n ==> r[i] == GetCell(blob, from + i)
  {
    seq(n, i requires 0 <= i < n => GetCell(blob, from + i))
  }

  function ParseVote(blob: seq<byte>, at: nat): Result<Vote, string>
    requires |blob| == BLOB_LENGTH
  {
    var ballot :- SetBigInts(GetCells(blob, at + 4, COORDS_PER_BALLOT));
    var voteID :- BigIntToVoteID(Some(GetCell(blob, at)));
    var ballotIndex :- BigIntToBallotIndex(Some(GetCell(blob, at + 2)));
    Ok(Vote(Some(GetCell(blob, at + 1)), ballotIndex, voteID, None, None, Some(GetCell(blob, at + 3)), ballot))
  }

  const FIRST_VOTE: nat := COORDS_PER_BALLOT + 1

  function ParseVotes(blob: seq<byte>, n: nat): (r: Result<seq<Vote>, string>)
    requires |blob| == BLOB_LENGTH
    ensures r.Ok? ==> |r.value| == n
  {
    if n == 0 then Ok([])
    else
      var votes :- ParseVotes(blob, n - 1);
      var vote :- ParseVote(blob, FIRST_VOTE + 36 * (n - 1));
      Ok(votes + [vote])
  }

  function Parse(blob: seq<byte>): Result<BlobData, string> {
    if |blob| != BLOB_LENGTH then Err("unexpected blob length")
    else
      var count := GetCell(blob, COORDS_PER_BALLOT);
      if count >= UINT64_LIMIT then Err("invalid voters count in blob")
      else if count > VOTES_PER_BATCH then Err("too many votes in blob")
      else
        var votes :- ParseVotes(blob, count);
        Ok(BlobData(GetCells(blob, 0, COORDS_PER_BALLOT), count, votes))
  }

  lemma {:induction false} ParseVotesStops(blob: seq<byte>, n: nat, m: nat)
    requires |blob| == BLOB_LENGTH && n <= m && ParseVotes(blob, n).Err?
    ensures ParseVotes(blob, m) == ParseVotes(blob, n)
  {
    hide ParseVote;
    if n < m {
      ParseVotesStops(blob, n, m - 1);
    }
  }

  method ReadCells(blob: seq<byte>, from: nat, n: nat) returns (values: seq<int>, cellIndex: nat)
    requires |blob| == BLOB_LENGTH
    ensures values == GetCells(blob, from, n) && cellIndex == from + n
  {
    values := [];
    cellIndex := from;
    for i := 0 to n
      invariant cellIndex == from + i
      invariant values == GetCells(blob, from, i)
    {
      values := values + [GetCell(blob, cellIndex)];
      cellIndex := cellIndex + 1;
    }
  }

  /** Reads one vote, advancing the cell index over its 36 cells. */
  method ReadVote(blob: seq<byte>, at: nat) returns (r: Result<Vote, string>, cellIndex: nat)
    requires |blob| == BLOB_LENGTH
    ensures r == ParseVote(blob, at) && cellIndex == at + CELLS_PER_VOTE
  {
    cellIndex := at;
    var voteIDCell := GetCell(blob, cellIndex);
    cellIndex := cellIndex + 1;
    var address := GetCell(blob, cellIndex);
    cellIndex := cellIndex + 1;
    var ballotIndexCell := GetCell(blob, cellIndex);
    cellIndex := cellIndex + 1;
    var weight := GetCell(blob, cellIndex);
    cellIndex := cellIndex + 1;
    var coords;
    coords, cellIndex := ReadCells(blob, cellIndex, COORDS_PER_BALLOT);
    var ballot := SetBigInts(coords);
    if ballot.Err? {
      // 32 coordinates were read, so the ballot is never refused
      assert false;
    }
    var voteID := BigIntToVoteID(Some(voteIDCell));
    if voteID.Err? {
      return Err(voteID.error), cellIndex;
    }
    var ballotIndex := BigIntToBallotIndex(Some(ballotIndexCell));
    if ballotIndex.Err? {
      return Err(ballotIndex.error), cellIndex;
    }
    r := Ok(Vote(Some(address), ballotIndex.value, voteID.value, None, None, Some(weight), ballot.value));
  }

  method ReadVotes(blob: seq<byte>, count: nat) returns (r: Result<seq<Vote>, string>)
    requires |blob| == BLOB_LENGTH && count <= VOTES_PER_BATCH
    ensures r == ParseVotes(blob, count)
  {
    hide ParseVote;
    var cellIndex := FIRST_VOTE;
    var votes: seq<Vote> := [];
    for i := 0 to count
      invariant cellIndex == FIRST_VOTE + 36 * i
      invariant ParseVotes(blob, i) == Ok(votes)
    {
      if cellIndex + 4 + COORDS_PER_BALLOT > CELLS_PER_BLOB {
        // 60 votes always fit: "incomplete vote data in blob" cannot be returned
        assert false;
      }
      var vote;
      vote, cellIndex := ReadVote(blob, cellIndex);
      if vote.Err? {
        ParseVotesStops(blob, i + 1, count);
        return Err(vote.error);
      }
      votes := votes + [vote.value];
    }
    r := Ok(votes);
  }

  /** The reader, advancing a cell index over the whole blob. */
  method ParseBlobData(blob: seq<byte>) returns (r: Result<BlobData, string>)
    ensures r == Parse(blob)
    ensures r.Ok? <==> exists data :: Shows(blob, data)
    ensures r.Ok? ==> Shows(blob, r.value)
  {
    hide Shows, ParseVotes;
    ParseMeans(blob);
    if |blob| != BLOB_LENGTH {
      return Err("unexpected blob length");
    }
    var results, cellIndex := ReadCells(blob, 0, COORDS_PER_BALLOT);
    var votersCount := GetCell(blob, cellIndex);
    if votersCount >= UINT64_LIMIT {
      return Err("invalid voters count in blob");
    }
    if votersCount > VOTES_PER_BATCH {
      return Err("too many votes in blob");
    }
    var votes := ReadVotes(blob, votersCount);
    if votes.Err? {
      return Err(votes.error);
    }
    r := Ok(BlobData(results, votersCount, votes.value));
  }

  // What is written and read, in terms of the layout

  lemma CellHoldsValue(blob: seq<byte>, i: nat, v: int)
    requires |blob| == BLOB_LENGTH && i < CELLS_PER_BLOB
    ensures Holds(blob, i, v) <==> GetCell(blob, i) == v
  {
    hide Holds, FromBytes;
    CellHolds(blob, i, v);
  }

  /** Consecutive cells read as the list. */
  ghost predicate Reads(blob: seq<byte>, at: nat, list: seq<int>)
    requires |blob| == BLOB_LENGTH
  {
    forall j :: 0 <= j < |list| ==> GetCell(blob, at + j) == list[j]
  }

  lemma CellsHoldField(blob: seq<byte>, at: nat, b: Ballot, f: nat)
    requires |blob| == BLOB_LENGTH && at + 32 <= CELLS_PER_BLOB && f < FIELDS_PER_BALLOT
    ensures HoldsField(blob, at + 4 * f, b[f]) <==> Reads(blob, at + 4 * f, BigInts(b)[4 * f..4 * f + 4])
  {
    hide Holds, GetCell, BigInts;
    var i, list := at + 4 * f, BigInts(b)[4 * f..4 * f + 4];
    FieldReadsBack(b, f);
    assert list[0] == b[f].c1.x && list[1] == b[f].c1.y && list[2] == b[f].c2.x && list[3] == b[f].c2.y;
    hide FieldAt;
    CellHoldsValue(blob, i, list[0]);
    CellHoldsValue(blob, i + 1, list[1]);
    CellHoldsValue(blob, i + 2, list[2]);
    CellHoldsValue(blob, i + 3, list[3]);
    if HoldsField(blob, i, b[f]) {
      forall j | 0 <= j < |list| ensures GetCell(blob, i + j) == list[j] {
        assert j == 0 || j == 1 || j == 2 || j == 3;
      }
    }
    if Reads(blob, i, list) {
      assert GetCell(blob, i + 0) == list[0] && GetCell(blob, i + 1) == list[1];
      assert GetCell(blob, i + 2) == list[2] && GetCell(blob, i + 3) == list[3];
    }
  }

  /** Consecutive cells with the coordinates of a ballot hold it field by field. */
  lemma CellsHoldBallot(blob: seq<byte>, at: nat, b: Ballot)
    requires |blob| == BLOB_LENGTH && at + 32 <= CELLS_PER_BLOB
    ensures HoldsBallot(blob, at, b) <==> Reads(blob, at, BigInts(b))
  {
    hide HoldsField, GetCell, BigInts;
    var list := BigInts(b);
    if HoldsBallot(blob, at, b) {
      forall j | 0 <= j < |list| ensures GetCell(blob, at + j) == list[j] {
        var f, d := j / 4, j % 4;
        assert HoldsField(blob, at + 4 * f, b[f]);
        CellsHoldField(blob, at, b, f);
        assert list[4 * f..4 * f + 4][d] == list[j] && at + 4 * f + d == at + j;
      }
    }
    if Reads(blob, at, list) {
      forall f | 0 <= f < |b| ensures HoldsField(blob, at + 4 * f, b[f]) {
        CellsHoldField(blob, at, b, f);
        var part := list[4 * f..4 * f + 4];
        forall d | 0 <= d < |part| ensures GetCell(blob, at + 4 * f + d) == part[d] {
          assert GetCell(blob, at + (4 * f + d)) == list[4 * f + d];
        }
      }
    }
  }

  /** Cells that read as the values of a vote hold it. */
  lemma CellsHoldVote(blob: seq<byte>, at: nat, v: Vote)
    requires |blob| == BLOB_LENGTH && at + 36 <= CELLS_PER_BLOB
    ensures HoldsVote(blob, at, v) <==>
            && GetCell(blob, at) == v.voteID
            && Some(GetCell(blob, at + 1)) == v.address
            && GetCell(blob, at + 2) == v.ballotIndex
            && Some(GetCell(blob, at + 3)) == v.weight
            && Reads(blob, at + 4, BigInts(v.reencryptedBallot))
  {
    hide Holds, GetCell, HoldsBallot, Reads, BigInts;
    CellHoldsValue(blob, at, v.voteID);
    CellHoldsValue(blob, at + 1, if v.address.Some? then v.address.value else 0);
    CellHoldsValue(blob, at + 2, v.ballotIndex);
    CellHoldsValue(blob, at + 3, if v.weight.Some? then v.weight.value else 0);
    CellsHoldBallot(blob, at + 4, v.reencryptedBallot);
  }

  lemma VoteIsLaidOut(results: Ballot, votes: seq<Vote>, n: nat)
    requires n < |votes| && Fits(BatchValues(results, votes))
    ensures HoldsVote(BlobOf(BatchValues(results, votes)), 33 + 36 * n, votes[n])
  {
    var blob := BlobOf(BatchValues(results, votes));
    var at, v := 33 + 36 * n, votes[n];
    VoteCellsReadBack(results, votes, n);
    hide BlobOf, GetCell, Fits, HoldsVote, BatchValues, BigInts;
    var values, list := VoteValues(v), BigInts(v.reencryptedBallot);
    assert values[0] == Some(GetCell(blob, at + 0)) && values[1] == Some(GetCell(blob, at + 1));
    assert values[2] == Some(GetCell(blob, at + 2)) && values[3] == Some(GetCell(blob, at + 3));
    forall j | 0 <= j < |list| ensures GetCell(blob, at + 4 + j) == list[j] {
      assert values[4 + j] == Some(GetCell(blob, at + (4 + j)));
    }
    CellsHoldVote(blob, at, v);
  }

  lemma BatchIsLaidOut(results: Ballot, votes: seq<Vote>)
    requires Fits(BatchValues(results, votes))
    ensures LaidOut(BlobOf(BatchValues(results, votes)), results, votes)
  {
    var values := BatchValues(results, votes);
    var blob := BlobOf(values);
    hide BlobOf, GetCell, Holds, HoldsBallot, HoldsVote;
    CellsReadBack(values, 0);
    forall j | 0 <= j < 32 ensures GetCell(blob, 0 + j) == BigInts(results)[j] {
      CellsReadBack(values, j);
      assert values[j] == Some(BigInts(results)[j]);
    }
    assert Reads(blob, 0, BigInts(results));
    CellsHoldBallot(blob, 0, results);
    CellsReadBack(values, 32);
    CellHoldsValue(blob, 32, |votes|);
    forall i | 0 <= i < |votes| ensures HoldsVote(blob, 33 + 36 * i, votes[i]) {
      VoteIsLaidOut(results, votes, i);
    }
    forall n | 33 + 36 * |votes| <= n < 4096 ensures Holds(blob, n, 0) {
      CellsReadBack(values, n);
      CellHoldsValue(blob, n, 0);
    }
  }

  lemma BallotIsRead(blob: seq<byte>, at: nat, b: Ballot)
    requires |blob| == BLOB_LENGTH
    ensures SetBigInts(GetCells(blob, at, COORDS_PER_BALLOT)) == Ok(b) <==> Reads(blob, at, BigInts(b))
    ensures SetBigInts(GetCells(blob, at, COORDS_PER_BALLOT)).Ok?
  {
    var coords := GetCells(blob, at, COORDS_PER_BALLOT);
    CoordinatesRoundTrip(b, coords);
    hide SetBigInts, BigInts, GetCell;
    if Reads(blob, at, BigInts(b)) {
      assert coords == BigInts(b);
    }
  }

  lemma KeyIsRead(x: nat)
    ensures BigIntToVoteID(Some(x)) == Ok(x) <==> ValidVoteID(x)
    ensures BigIntToBallotIndex(Some(x)) == Ok(x) <==> ValidBallotIndex(x)
    ensures BigIntToVoteID(Some(x)).Ok? ==> BigIntToVoteID(Some(x)) == Ok(x)
    ensures BigIntToBallotIndex(Some(x)).Ok? ==> BigIntToBallotIndex(Some(x)) == Ok(x)
  {
  }

  /** A vote is read exactly when its keys are in range, and it is the one its cells hold. */
  lemma ParsedVoteMeans(blob: seq<byte>, at: nat, v: Vote)
    requires |blob| == BLOB_LENGTH && at + 36 <= CELLS_PER_BLOB
    ensures ParseVote(blob, at) == Ok(v) <==>
            && HoldsVote(blob, at, v) && v.ballot.None? && v.overwrittenBallot.None?
            && ValidVoteID(v.voteID) && ValidBallotIndex(v.ballotIndex)
  {
    BallotIsRead(blob, at + 4, v.reencryptedBallot);
    CellsHoldVote(blob, at, v);
    KeyIsRead(GetCell(blob, at));
    KeyIsRead(GetCell(blob, at + 2));
    hide GetCell, GetCells, HoldsVote, Reads, SetBigInts, BigInts, BigIntToVoteID, BigIntToBallotIndex, ValidVoteID,
         ValidBallotIndex;
  }

  /** The first n votes the blob holds. */
  ghost predicate ShowsVotes(blob: seq<byte>, votes: seq<Vote>) {
    forall i :: 0 <= i < |votes| ==>
      && HoldsVote(blob, 33 + 36 * i, votes[i]) && votes[i].ballot.None? && votes[i].overwrittenBallot.None?
      && ValidVoteID(votes[i].voteID) && ValidBallotIndex(votes[i].ballotIndex)
  }

  lemma {:induction false} ParsedVotesMean(blob: seq<byte>, n: nat, votes: seq<Vote>)
    requires |blob| == BLOB_LENGTH && n <= VOTES_PER_BATCH
    ensures ParseVotes(blob, n) == Ok(votes) <==> |votes| == n && ShowsVotes(blob, votes)
  {
    hide ParseVote, HoldsVote, ValidVoteID, ValidBallotIndex;
    if n > 0 && |votes| > 0 {
      var init, last := votes[..|votes| - 1], votes[|votes| - 1];
      assert votes == init + [last];
      ParsedVotesMean(blob, n - 1, init);
      ParsedVoteMeans(blob, FIRST_VOTE + 36 * (n - 1), last);
      if |votes| == n && ShowsVotes(blob, votes) {
        assert forall i :: 0 <= i < |init| ==> init[i] == votes[i];
        assert HoldsVote(blob, 33 + 36 * (n - 1), votes[n - 1]);
      }
      if ParseVotes(blob, n) == Ok(votes) {
        assert ParseVotes(blob, n - 1).value + [ParseVote(blob, FIRST_VOTE + 36 * (n - 1)).value] == votes;
        assert ParseVotes(blob, n - 1).value == init;
      }
    }
  }

  /** The parser succeeds exactly on the blobs that show some data, and returns it. */
  lemma ParseMeans(blob: seq<byte>)
    ensures Parse(blob).Ok? <==> exists data :: Shows(blob, data)
    ensures Parse(blob).Ok? ==> Shows(blob, Parse(blob).value)
  {
    if Parse(blob).Ok? {
      ParsedShows(blob);
    }
    if data :| Shows(blob, data) {
      ShownIsParsed(blob, data);
    }
  }

  lemma ParsedShows(blob: seq<byte>)
    requires Parse(blob).Ok?
    ensures Shows(blob, Parse(blob).value)
  {
    hide ParseVotes, GetCell, Holds, HoldsVote;
    var data := Parse(blob).value;
    CellHoldsValue(blob, 32, data.votersCount);
    forall j | 0 <= j < 32 ensures Holds(blob, j, data.results[j]) {
      CellHoldsValue(blob, j, data.results[j]);
    }
    ParsedVotesMean(blob, data.votersCount, data.votes);
  }

  lemma ShownIsParsed(blob: seq<byte>, data: BlobData)
    requires Shows(blob, data)
    ensures Parse(blob) == Ok(data)
  {
    hide ParseVotes, GetCell, Holds, HoldsVote;
    CellHoldsValue(blob, 32, data.votersCount);
    forall j | 0 <= j < 32 ensures GetCell(blob, j) == data.results[j] {
      CellHoldsValue(blob, j, data.results[j]);
    }
    assert GetCells(blob, 0, COORDS_PER_BALLOT) == data.results;
    ParsedVotesMean(blob, data.votersCount, data.votes);
  }

  // What can be encoded

  lemma ElementFits(x: Value)
    ensures Pushable(x) && x.value < BLS_MODULUS <==> x.Some? && Element(x.value)
  {
    if x.Some? && Element(x.value) {
      BitLenBelow(x.value);
    }
  }

  /** All values are elements. */
  predicate AllElements(values: seq<Value>) {
    forall i :: 0 <= i < |values| ==> values[i].Some? && Element(values[i].value)
  }

  lemma AllElementsFit(values: seq<Value>)
    ensures Encodable(values) <==> |values| <= CELLS_PER_BLOB && AllElements(values)
  {
    hide FitsCell, Element;
    forall i | 0 <= i < |values|
      ensures Pushable(values[i]) && values[i].value < BLS_MODULUS <==> values[i].Some? && Element(values[i].value)
    {
      ElementFits(values[i]);
    }
    if Encodable(values) {
      forall i | 0 <= i < |values| ensures values[i].Some? && Element(values[i].value) {
        assert Pushable(values[i]) && values[i].value < BLS_MODULUS;
      }
    }
  }

  lemma JoinedElements(a: seq<Value>, b: seq<Value>)
    ensures AllElements(a + b) <==> AllElements(a) && AllElements(b)
  {
    hide Element;
    if AllElements(a + b) {
      assert forall i :: 0 <= i < |a| ==> (a + b)[i] == a[i];
      assert forall i :: 0 <= i < |b| ==> (a + b)[|a| + i] == b[i];
    }
  }

  lemma BallotElements(b: Ballot)
    ensures AllElements(Present(BigInts(b))) <==> ElementsOf(b)
  {
    hide Element;
    var values := Present(BigInts(b));
    if AllElements(values) {
      forall f | 0 <= f < |b| ensures Element(b[f].c1.x) && Element(b[f].c1.y) && Element(b[f].c2.x) && Element(b[f].c2.y) {
        FieldReadsBack(b, f);
        assert values[4 * f] == Some(b[f].c1.x) && values[4 * f + 1] == Some(b[f].c1.y);
        assert values[4 * f + 2] == Some(b[f].c2.x) && values[4 * f + 3] == Some(b[f].c2.y);
      }
    }
    if ElementsOf(b) {
      forall i | 0 <= i < |values| ensures values[i].Some? && Element(values[i].value) {
        FieldReadsBack(b, i / 4);
        assert Element(b[i / 4].c1.x) && Element(b[i / 4].c1.y) && Element(b[i / 4].c2.x) && Element(b[i / 4].c2.y);
        assert i == 4 * (i / 4) || i == 4 * (i / 4) + 1 || i == 4 * (i / 4) + 2 || i == 4 * (i / 4) + 3;
      }
    }
  }

  predicate VoteElements(v: Vote) {
    && Element(v.voteID) && Element(v.ballotIndex)
    && v.address.Some? && Element(v.address.value)
    && v.weight.Some? && Element(v.weight.value)
    && ElementsOf(v.reencryptedBallot)
  }

  lemma VoteValuesElements(v: Vote)
    ensures AllElements(VoteValues(v)) <==> VoteElements(v)
  {
    hide Element, ElementsOf;
    var head := [Some(v.voteID), v.address, Some(v.ballotIndex), v.weight];
    JoinedElements(head, Present(BigInts(v.reencryptedBallot)));
    BallotElements(v.reencryptedBallot);
    assert head[0] == Some(v.voteID) && head[1] == v.address && head[2] == Some(v.ballotIndex) && head[3] == v.weight;
    assert AllElements(head) <==> (head[0].Some? && Element(head[0].value) && head[1].Some? && Element(head[1].value)
                                   && head[2].Some? && Element(head[2].value) && head[3].Some? && Element(head[3].value));
  }

  lemma {:induction false} VotesValuesElements(votes: seq<Vote>)
    ensures AllElements(VotesValues(votes)) <==> forall i :: 0 <= i < |votes| ==> VoteElements(votes[i])
  {
    hide AllElements, VoteElements, VoteValues;
    if |votes| == 0 {
      NoElements();
    } else {
      var init, v := votes[..|votes| - 1], votes[|votes| - 1];
      VotesValuesElements(init);
      JoinedElements(VotesValues(init), VoteValues(v));
      VoteValuesElements(v);
      assert forall i :: 0 <= i < |init| ==> init[i] == votes[i];
    }
  }

  lemma NoElements()
    ensures AllElements([])
  {
  }

  lemma EncodableMeans(results: Ballot, votes: seq<Vote>)
    ensures Encodable(BatchValues(results, votes)) <==> Committable(results, votes)
  {
    hide Encodable, ElementsOf, Element;
    var values := BatchValues(results, votes);
    AllElementsFit(values);
    JoinedElements(HeaderValues(results, |votes|), VotesValues(votes));
    JoinedElements(Present(BigInts(results)), [Some(|votes|)]);
    BallotElements(results);
    VotesValuesElements(votes);
    CountIsElement(|votes|);
    if |values| <= CELLS_PER_BLOB && AllElements(values) {
      assert Committable(results, votes) by {
        assert forall i :: 0 <= i < |votes| ==> VoteElements(votes[i]);
      }
    }
    if Committable(results, votes) {
      forall i | 0 <= i < |votes| ensures VoteElements(votes[i]) {
      }
    }
  }

  lemma CountIsElement(n: nat)
    ensures n <= 4096 ==> AllElements([Some(n)])
  {
  }

  // Round trip

  /** The part of a vote that a blob carries. */
  function Carried(v: Vote): Vote {
    v.(ballot := None, overwrittenBallot := None)
  }

  function CarriedAll(votes: seq<Vote>): seq<Vote> {
    seq(|votes|, i requires 0 <= i < |votes| => Carried(votes[i]))
  }

  predicate KeysInRange(votes: seq<Vote>) {
    forall i :: 0 <= i < |votes| ==> ValidVoteID(votes[i].voteID) && ValidBallotIndex(votes[i].ballotIndex)
  }

  lemma CellsReadBack(values: seq<Value>, i: nat)
    requires Fits(values)
    ensures |BlobOf(values)| == BLOB_LENGTH
    ensures GetCell(BlobOf(values), i) == if i < |values| then values[i].value else 0
  {
    FlattenSlices(CellsOf(values), i);
    ZeroCellIsZero();
    if i < |values| {
      CellRoundTrip(values[i].value);
    }
  }

  lemma VoteCellsReadBack(results: Ballot, votes: seq<Vote>, n: nat)
    requires n < |votes| && Fits(BatchValues(results, votes))
    ensures |BlobOf(BatchValues(results, votes))| == BLOB_LENGTH && FIRST_VOTE + 36 * (n + 1) <= CELLS_PER_BLOB
    ensures forall j :: 0 <= j < CELLS_PER_VOTE ==>
              VoteValues(votes[n])[j] == Some(GetCell(BlobOf(BatchValues(results, votes)), FIRST_VOTE + 36 * n + j))
  {
    var values := BatchValues(results, votes);
    hide BlobOf, GetCell;
    CellsReadBack(values, 0);
    var at := FIRST_VOTE + 36 * n;
    forall j | 0 <= j < CELLS_PER_VOTE ensures VoteValues(votes[n])[j] == Some(GetCell(BlobOf(values), at + j)) {
      VoteValuesAt(votes, n, j);
      assert values[at + j] == VotesValues(votes)[36 * n + j];
      CellsReadBack(values, at + j);
    }
  }

  lemma VoteReadsBack(results: Ballot, votes: seq<Vote>, n: nat)
    requires n < |votes| && Fits(BatchValues(results, votes))
    ensures |BlobOf(BatchValues(results, votes))| == BLOB_LENGTH
    ensures
      var v := votes[n];
      var r := ParseVote(BlobOf(BatchValues(results, votes)), FIRST_VOTE + 36 * n);
      if ValidVoteID(v.voteID) && ValidBallotIndex(v.ballotIndex) then r == Ok(Carried(v)) else r.Err?
  {
    var blob := BlobOf(BatchValues(results, votes));
    VoteCellsReadBack(results, votes, n);
    hide BlobOf, GetCell, Fits, BatchValues, ValidVoteID, ValidBallotIndex;
    var at, v := FIRST_VOTE + 36 * n, votes[n];
    assert VoteValues(v)[0] == Some(GetCell(blob, at + 0)) && VoteValues(v)[1] == Some(GetCell(blob, at + 1));
    assert VoteValues(v)[2] == Some(GetCell(blob, at + 2)) && VoteValues(v)[3] == Some(GetCell(blob, at + 3));
    var coords := GetCells(blob, at + 4, COORDS_PER_BALLOT);
    forall j | 0 <= j < COORDS_PER_BALLOT ensures coords[j] == BigInts(v.reencryptedBallot)[j] {
      assert VoteValues(v)[4 + j] == Some(GetCell(blob, at + (4 + j)));
    }
    assert coords == BigInts(v.reencryptedBallot);
    CoordinatesRoundTrip(v.reencryptedBallot, coords);
  }

  lemma {:induction false} VotesReadBack(results: Ballot, votes: seq<Vote>, n: nat)
    requires n <= |votes| && Fits(BatchValues(results, votes))
    ensures |BlobOf(BatchValues(results, votes))| == BLOB_LENGTH
    ensures
      var r := ParseVotes(BlobOf(BatchValues(results, votes)), n);
      if KeysInRange(votes[..n]) then r == Ok(CarriedAll(votes[..n])) else r.Err?
  {
    hide ParseVote, BatchValues, BlobOf, ValidVoteID, ValidBallotIndex;
    CellsReadBack(BatchValues(results, votes), 0);
    if n == 0 {
      assert CarriedAll(votes[..0]) == [];
    } else {
      VotesReadBack(results, votes, n - 1);
      VoteReadsBack(results, votes, n - 1);
      KeysInRangeStep(votes, n);
      assert CarriedAll(votes[..n]) == CarriedAll(votes[..n - 1]) + [Carried(votes[n - 1])];
    }
  }

  lemma KeysInRangeStep(votes: seq<Vote>, n: nat)
    requires 0 < n <= |votes|
    ensures KeysInRange(votes[..n]) <==>
            KeysInRange(votes[..n - 1]) && ValidVoteID(votes[n - 1].voteID) && ValidBallotIndex(votes[n - 1].ballotIndex)
  {
    hide ValidVoteID, ValidBallotIndex;
    assert votes[..n][n - 1] == votes[n - 1];
    assert forall i :: 0 <= i < n - 1 ==> votes[..n][i] == votes[..n - 1][i];
  }

  /**
   Parsing the blob of a batch gives back its results, count and votes exactly
   when every vote ID and ballot index lies in its key range, and fails otherwise.
   */
  lemma BlobRoundTrip(results: Ballot, votes: seq<Vote>)
    requires |votes| <= VOTES_PER_BATCH && Fits(BatchValues(results, votes))
    ensures
      var r := Parse(BlobOf(BatchValues(results, votes)));
      if KeysInRange(votes)
      then r == Ok(BlobData(BigInts(results), |votes|, CarriedAll(votes)))
      else r.Err?
  {
    var values := BatchValues(results, votes);
    var blob := BlobOf(values);
    CellsReadBack(values, COORDS_PER_BALLOT);
    VotesReadBack(results, votes, |votes|);
    assert votes[..|votes|] == votes;
    var coords := GetCells(blob, 0, COORDS_PER_BALLOT);
    forall i | 0 <= i < COORDS_PER_BALLOT ensures coords[i] == BigInts(results)[i] {
      CellsReadBack(values, i);
      assert values[i] == Some(BigInts(results)[i]);
    }
    assert coords == BigInts(results);
  }

  /** A batch of at most 60 votes never overflows the blob: only nil, negative or too large values are refused. */
  lemma BatchFitsBlob(results: Ballot, votes: seq<Vote>)
    requires |votes| <= VOTES_PER_BATCH
    ensures Fits(BatchValues(results, votes)) <==>
            forall x :: x in BatchValues(results, votes) ==> Pushable(x)
    ensures Encodable(BatchValues(results, votes)) <==>
            forall x :: x in BatchValues(results, votes) ==> Pushable(x) && x.value < BLS_MODULUS
  {
    var values := BatchValues(results, votes);
    assert forall i :: 0 <= i < |values| ==> values[i] in values;
  }
}
