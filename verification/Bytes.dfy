/** Big-endian integers and the 32-byte cells of an EIP-4844 blob. */
module Bytes {
  import opened Arithmetic

  type byte = b: nat | b < 256

  const CELL_SIZE: nat := 32

  const ZERO_CELL: seq<byte> := seq(CELL_SIZE, _ => 0)

  /** Big-endian value of a byte string. */
  function FromBytes(bs: seq<byte>): nat {
    if |bs| == 0 then 0 else FromBytes(bs[..|bs| - 1]) * 256 + bs[|bs| - 1]
  }

  /** Shortest big-endian byte string of a number; empty for zero. */
  function ToBytes(n: nat): seq<byte> {
    if n == 0 then [] else ToBytes(n / 256) + [n % 256]
  }

  function BitLen(n: nat): nat {
    if n == 0 then 0 else 1 + BitLen(n / 2)
  }

  lemma {:induction false} BytesRoundTrip(n: nat)
    ensures FromBytes(ToBytes(n)) == n
  {
    if n != 0 {
      BytesRoundTrip(n / 256);
      assert ToBytes(n)[..|ToBytes(n)| - 1] == ToBytes(n / 256);
    }
  }

  lemma {:induction false} LeadingZeros(z: nat, bs: seq<byte>)
    ensures FromBytes(seq(z, _ => 0) + bs) == FromBytes(bs)
  {
    var s: seq<byte> := seq(z, _ => 0) + bs;
    if |bs| > 0 {
      LeadingZeros(z, bs[..|bs| - 1]);
      assert s[..|s| - 1] == seq(z, _ => 0) + bs[..|bs| - 1];
    } else if z > 0 {
      LeadingZeros(z - 1, []);
      assert s[..|s| - 1] == seq(z - 1, _ => 0) + [];
    }
  }

  /** Dropping a byte drops eight bits. */
  lemma BitLenOfShift(n: nat)
    ensures BitLen(n / 256) == if BitLen(n) <= 8 then 0 else BitLen(n) - 8
  {
    BitLenOfQuarter(n, n / 4);
    BitLenOfQuarter(n / 4, n / 16);
    BitLenOfQuarter(n / 16, n / 64);
    BitLenOfQuarter(n / 64, n / 256);
  }

  lemma BitLenOfQuarter(n: nat, q: nat)
    requires q == n / 4
    ensures BitLen(q) == if BitLen(n) <= 2 then 0 else BitLen(n) - 2
  {
    assert n / 2 / 2 == q;
    if n / 2 != 0 {
      assert BitLen(n) == 2 + BitLen(q);
    }
  }

  /** A number of at most 8k bits has at most k bytes. */
  lemma {:induction false} ByteLength(n: nat, k: nat)
    requires BitLen(n) <= 8 * k
    ensures |ToBytes(n)| <= k
  {
    if n != 0 {
      BitLenOfShift(n);
      ByteLength(n / 256, k - 1);
    }
  }

  /** A number fits a cell when it has at most 256 bits. */
  predicate FitsCell(n: int) {
    n >= 0 && BitLen(n) <= 8 * CELL_SIZE
  }

  /** Dropping four bytes drops at most 32 bits. */
  lemma BitLenOfWord(n: nat)
    ensures BitLen(n) <= BitLen(n / 0x1_0000_0000) + 32
  {
    BitLenOfShift(n);
    BitLenOfShift(n / 256);
    BitLenOfShift(n / 256 / 256);
    BitLenOfShift(n / 256 / 256 / 256);
    assert n / 256 / 256 / 256 / 256 == n / 0x1_0000_0000;
  }

  lemma BitLenBelow(n: nat)
    requires n < 0x1_00000000_00000000_00000000_00000000_00000000_00000000_00000000_00000000
    ensures FitsCell(n)
  {
    var w := 0x1_0000_0000;
    BitLenOfWord(n);
    BitLenOfWord(n / w);
    BitLenOfWord(n / w / w);
    BitLenOfWord(n / w / w / w);
    BitLenOfWord(n / w / w / w / w);
    BitLenOfWord(n / w / w / w / w / w);
    BitLenOfWord(n / w / w / w / w / w / w);
    BitLenOfWord(n / w / w / w / w / w / w / w);
    assert n / w / w / w / w / w / w / w / w == 0;
  }

  /** The cell of a number: its bytes, padded in front to 32. */
  function Cell(n: int): (r: seq<byte>)
    requires FitsCell(n)
    ensures |r| == CELL_SIZE
  {
    ByteLength(n, CELL_SIZE);
    var bs := ToBytes(n);
    seq(CELL_SIZE - |bs|, _ => 0) + bs
  }

  lemma CellRoundTrip(n: int)
    requires FitsCell(n)
    ensures FromBytes(Cell(n)) == n
  {
    ByteLength(n, CELL_SIZE);
    LeadingZeros(CELL_SIZE - |ToBytes(n)|, ToBytes(n));
    BytesRoundTrip(n);
  }

  lemma ZeroCellIsZero()
    ensures FromBytes(ZERO_CELL) == 0
    ensures |ZERO_CELL| == CELL_SIZE
  {
    LeadingZeros(CELL_SIZE, []);
    assert ZERO_CELL == seq(CELL_SIZE, _ => 0) + [];
  }

  /** The cells of a blob, one after the other. */
  function Flatten(cells: seq<seq<byte>>): seq<byte> {
    if |cells| == 0 then [] else Flatten(cells[..|cells| - 1]) + cells[|cells| - 1]
  }

  lemma {:induction false} FlattenSlices(cells: seq<seq<byte>>, i: nat)
    requires forall j :: 0 <= j < |cells| ==> |cells[j]| == CELL_SIZE
    ensures |Flatten(cells)| == 32 * |cells|
    ensures i < |cells| ==> Flatten(cells)[32 * i..32 * (i + 1)] == cells[i]
  {
    if |cells| > 0 {
      FlattenSlices(cells[..|cells| - 1], i);
    }
  }

  // Bytes of a cell

  function Power256(n: nat): (r: nat)
    ensures r > 0
  {
    if n == 0 then 1 else 256 * Power256(n - 1)
  }

  /** The digit of v at 256^k. */
  function Digit(v: nat, k: nat): nat {
    v / Power256(k) % 256
  }

  /** The bytes are the digits of v, all of them, most significant first. */
  ghost predicate BigEndian(bs: seq<byte>, v: int) {
    && 0 <= v < Power256(|bs|)
    && (forall j :: 0 <= j < |bs| ==> bs[j] == Digit(v, |bs| - 1 - j))
  }

  /** The 32 bytes of cell i hold v. */
  ghost predicate Holds(blob: seq<byte>, i: nat, v: int) {
    32 * (i + 1) <= |blob| && BigEndian(blob[32 * i..32 * (i + 1)], v)
  }

  /** The last digit, and the digits of what is above it. */
  lemma DigitAbove(v: nat, k: nat)
    ensures Digit(v, 0) == v % 256 && Digit(v, k + 1) == Digit(v / 256, k)
  {
    var w := Power256(k);
    var d, r := v / (256 * w), v % (256 * w);
    assert v == 256 * (w * d) + r;
    assert v / 256 == w * d + r / 256 && 0 <= r / 256 < w;
    QuotientIs(v / 256, w, d, r / 256);
  }

  lemma {:induction false} ReadsBigEndian(bs: seq<byte>)
    ensures BigEndian(bs, FromBytes(bs))
  {
    if |bs| > 0 {
      var n := |bs| - 1;
      var v := FromBytes(bs);
      ReadsBigEndian(bs[..n]);
      hide Digit;
      assert v / 256 == FromBytes(bs[..n]) && v % 256 == bs[n];
      forall j | 0 <= j < |bs| ensures bs[j] == Digit(v, n - j) {
        if j < n {
          DigitAbove(v, n - 1 - j);
          assert bs[..n][j] == Digit(v / 256, n - 1 - j);
        } else {
          DigitAbove(v, 0);
        }
      }
    }
  }

  /** The bytes leave no choice: only one number is written that way. */
  lemma {:induction false} BigEndianIsRead(bs: seq<byte>, v: int)
    requires BigEndian(bs, v)
    ensures FromBytes(bs) == v
  {
    if |bs| > 0 {
      var n := |bs| - 1;
      hide Digit;
      forall j | 0 <= j < n ensures bs[..n][j] == Digit(v / 256, n - 1 - j) {
        DigitAbove(v, n - 1 - j);
        assert bs[j] == Digit(v, n - j);
      }
      DigitAbove(v, 0);
      BigEndianIsRead(bs[..n], v / 256);
    }
  }

  lemma CellHolds(blob: seq<byte>, i: nat, v: int)
    requires 32 * (i + 1) <= |blob|
    ensures Holds(blob, i, v) <==> FromBytes(blob[32 * i..32 * (i + 1)]) == v
  {
    hide BigEndian, FromBytes;
    var cell := blob[32 * i..32 * (i + 1)];
    ReadsBigEndian(cell);
    if BigEndian(cell, v) {
      BigEndianIsRead(cell, v);
    }
  }
}
