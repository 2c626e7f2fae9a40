/** Bytes of a disk block: the bits of the free map, and the 32-bit little-endian block
    numbers of an indirect block. */
module FsBytes {
  import opened Basics

  const BSIZE: nat := 1024
  /** BSIZE / 4 block numbers to an indirect block, and BSIZE * 8 bits to a bitmap block */
  const NINDIRECT: nat := 256
  const BPB: nat := 8192
  const WORD: int := 0x1_0000_0000

  type Byte = b: int | 0 <= b < 256
  type Block = b: seq<Byte> | |b| == BSIZE witness seq(BSIZE, _ => 0)

  function ZeroBlock(): (z: Block)
    ensures forall i :: 0 <= i < BSIZE ==> z[i] == 0
  {
    seq(BSIZE, _ => 0)
  }

  // ----- Bits -----

  /** (v & (1 << k)) != 0 */
  predicate HasBit(v: nat, k: nat) {
    if k == 0 then v % 2 == 1 else HasBit(v / 2, k - 1)
  }

  /** v | (1 << k) when `on`, and v & ~(1 << k) otherwise */
  function WithBit(v: nat, k: nat, on: bool): (r: nat) {
    if k == 0 then v - v % 2 + (if on then 1 else 0) else 2 * WithBit(v / 2, k - 1, on) + v % 2
  }

  lemma {:induction false} WithBitAt(v: nat, k: nat, on: bool, j: nat)
    ensures HasBit(WithBit(v, k, on), j) == if j == k then on else HasBit(v, j)
  {
    if k > 0 && j > 0 {
      WithBitAt(v / 2, k - 1, on, j - 1);
    }
  }

  lemma {:induction false} WithBitFits(v: nat, k: nat, on: bool, width: nat)
    requires k < width && v < Pow2(width)
    ensures WithBit(v, k, on) < Pow2(width)
  {
    assert Pow2(width) == 2 * Pow2(width - 1);
    if k > 0 {
      assert v / 2 < Pow2(width - 1);
      WithBitFits(v / 2, k - 1, on, width - 1);
      assert WithBit(v, k, on) == 2 * WithBit(v / 2, k - 1, on) + v % 2;
    }
  }

  predicate BitAt(b: Block, bi: nat)
    requires bi < BPB
  {
    HasBit(b[bi / 8], bi % 8)
  }

  function ByteWithBit(v: Byte, k: nat, on: bool): (r: Byte)
    requires k < 8
    ensures r == WithBit(v, k, on)
  {
    WithBitFits(v, k, on, 8);
    assert Pow2(8) == 256;
    WithBit(v, k, on)
  }

  function SetBitAt(b: Block, bi: nat, on: bool): (r: Block)
    requires bi < BPB
  {
    b[bi / 8 := ByteWithBit(b[bi / 8], bi % 8, on)]
  }

  lemma SetBitAtBits(b: Block, bi: nat, on: bool, bj: nat)
    requires bi < BPB && bj < BPB
    ensures BitAt(SetBitAt(b, bi, on), bj) == if bj == bi then on else BitAt(b, bj)
  {
    if bj / 8 == bi / 8 {
      WithBitAt(b[bi / 8], bi % 8, on, bj % 8);
    }
  }

  // ----- Words -----

  /** ((uint*)b)[j] */
  function WordAt(b: Block, j: nat): (w: nat)
    requires j < NINDIRECT
    ensures w < WORD
  {
    var (b0: int, b1: int, b2: int, b3: int) := (b[4 * j], b[4 * j + 1], b[4 * j + 2], b[4 * j + 3]);
    b0 + 256 * b1 + 0x1_0000 * b2 + 0x100_0000 * b3
  }

  /** ((uint*)b)[j] = w */
  function PutWord(b: Block, j: nat, w: nat): (r: Block)
    requires j < NINDIRECT && w < WORD
  {
    b[4 * j := w % 256][4 * j + 1 := (w / 256) % 256]
     [4 * j + 2 := (w / 0x1_0000) % 256][4 * j + 3 := w / 0x100_0000]
  }

  lemma Digits(w: nat)
    requires w < WORD
    ensures w == w % 256 + 256 * ((w / 256) % 256) + 0x1_0000 * ((w / 0x1_0000) % 256) + 0x100_0000 * (w / 0x100_0000)
  {
  }

  lemma PutWordAt(b: Block, j: nat, w: nat, i: nat)
    requires j < NINDIRECT && w < WORD && i < NINDIRECT
    ensures WordAt(PutWord(b, j, w), i) == if i == j then w else WordAt(b, i)
  {
    Digits(w);
  }

  lemma SameDivMod(x: nat, y: nat)
    ensures x / BPB == y / BPB && x % BPB == y % BPB ==> x == y
  {
  }

  lemma ZeroWords(j: nat)
    requires j < NINDIRECT
    ensures WordAt(ZeroBlock(), j) == 0
  {
  }
}
