/** Disk blocks as bytes, with the 32-bit words and the bits that the file system keeps in them. */
module FsBytes {
  import opened Common
  type ByteBlock = seq<Byte>

  const BSIZE: nat := 1024
  const NWORDS: nat := 256     // BSIZE / sizeof(uint)
  const U32: nat := 0x1_0000_0000
  /** Bits per bitmap block. */
  const BPB: nat := 8192       // BSIZE * 8

  /** Block number and offset of a byte of a file, and where a block starts. */
  function BlockNo(a: nat): (bn: nat) { a / 1024 }

  function Offset(a: nat): (o: nat) ensures o < BSIZE { a % 1024 }

  function Start(bn: nat): (a: nat) { bn * 1024 }

  /** Which bitmap block, and which bit of it, stands for a disk block. */
  function MapNo(b: nat): (r: nat) { b / 8192 }

  function BitNo(b: nat): (i: nat) ensures i < BPB { b % 8192 }

  /** The bytes o..o+n, within one block, by block number and offset. */
  lemma InChunk(o: nat, n: nat, a: nat)
    requires Offset(o) + n <= BSIZE
    ensures o <= a < o + n <==> BlockNo(a) == BlockNo(o) && Offset(o) <= Offset(a) < Offset(o) + n
    ensures o <= a < o + n ==> Offset(a) == Offset(o) + (a - o)
  {
  }

  lemma NextBlock(o: nat, m: nat, hi: nat)
    requires Offset(o) + m <= BSIZE
    ensures m == BSIZE - Offset(o) ==> Offset(o + m) == 0
    ensures o < Start(hi) ==> BlockNo(o) < hi
  {
  }

  function ZeroBlock(): (b: ByteBlock)
    ensures |b| == BSIZE && forall i :: 0 <= i < BSIZE ==> b[i] == 0
  {
    seq(BSIZE, _ => 0)
  }

  // ------------------------------------------------------------------ words

  /** The i-th little-endian 32-bit word of a block. */
  function Word(b: ByteBlock, i: nat): (w: nat)
    requires |b| == BSIZE && i < NWORDS
    ensures w < U32
  {
    b[4 * i] as int + 0x100 * (b[4 * i + 1] as int) + 0x1_0000 * (b[4 * i + 2] as int)
        + 0x100_0000 * (b[4 * i + 3] as int)
  }

  function SetWord(b: ByteBlock, i: nat, w: nat): (r: ByteBlock)
    requires |b| == BSIZE && i < NWORDS && w < U32
    ensures |r| == BSIZE
  {
    b[4 * i := w % 0x100]
     [4 * i + 1 := w / 0x100 % 0x100]
     [4 * i + 2 := w / 0x1_0000 % 0x100]
     [4 * i + 3 := w / 0x100_0000]
  }

  lemma BytesOfWord(w: nat)
    requires w < U32
    ensures w % 0x100 + 0x100 * (w / 0x100 % 0x100) + 0x1_0000 * (w / 0x1_0000 % 0x100) + 0x100_0000 * (w / 0x100_0000)
            == w
  {
    var w1 := w / 0x100;
    assert w == 0x100 * w1 + w % 0x100;
    var w2 := w1 / 0x100;
    assert w1 == 0x100 * w2 + w1 % 0x100 && w2 == w / 0x1_0000;
    var w3 := w2 / 0x100;
    assert w2 == 0x100 * w3 + w2 % 0x100 && w3 == w / 0x100_0000;
  }

  /** A stored word is read back, and no other word changes. */
  lemma WordSet(b: ByteBlock, i: nat, w: nat, j: nat)
    requires |b| == BSIZE && i < NWORDS && w < U32 && j < NWORDS
    ensures Word(SetWord(b, i, w), j) == if j == i then w else Word(b, j)
  {
    BytesOfWord(w);
  }

  lemma WordZero(i: nat)
    requires i < NWORDS
    ensures Word(ZeroBlock(), i) == 0
  {
  }

  // ------------------------------------------------------------------- bits

  /** Bit i of a number: `x & (1 << i)`. */
  predicate NatBit(x: nat, i: nat) {
    if i == 0 then x % 2 == 1 else NatBit(x / 2, i - 1)
  }

  /** The number with bit i set or cleared: `x | (1 << i)`, `x & ~(1 << i)`. */
  function PutBit(x: nat, i: nat, v: bool): (y: nat) {
    if i == 0 then x / 2 * 2 + (if v then 1 else 0) else PutBit(x / 2, i - 1, v) * 2 + x % 2
  }

  lemma {:induction false} NoBit(i: nat)
    ensures !NatBit(0, i)
  {
    if i > 0 { NoBit(i - 1); }
  }

  lemma {:induction false} PutBitAt(x: nat, i: nat, v: bool, j: nat)
    ensures NatBit(PutBit(x, i, v), j) == if j == i then v else NatBit(x, j)
  {
    var y := PutBit(x, i, v);
    if i == 0 {
      assert y / 2 == x / 2;
    } else {
      assert y / 2 == PutBit(x / 2, i - 1, v) && y % 2 == x % 2;
      if j > 0 { PutBitAt(x / 2, i - 1, v, j - 1); }
    }
  }

  function Exp2(n: nat): (r: nat) {
    if n == 0 then 1 else 2 * Exp2(n - 1)
  }

  lemma {:induction false} PutBitBound(x: nat, i: nat, v: bool, n: nat)
    requires x < Exp2(n) && i < n
    ensures PutBit(x, i, v) < Exp2(n)
  {
    if i > 0 { PutBitBound(x / 2, i - 1, v, n - 1); }
  }

  function PutByteBit(x: Byte, i: nat, v: bool): (y: Byte)
    requires i < 8
  {
    assert Exp2(8) == 256 by { assert Exp2(4) == 16; }
    PutBitBound(x, i, v, 8);
    PutBit(x, i, v)
  }

  function Bit(b: ByteBlock, i: nat): (r: bool)
    requires |b| == BSIZE && i < BPB
  {
    NatBit(b[i / 8], i % 8)
  }

  function SetBit(b: ByteBlock, i: nat, v: bool): (r: ByteBlock)
    requires |b| == BSIZE && i < BPB
    ensures |r| == BSIZE
  {
    b[i / 8 := PutByteBit(b[i / 8], i % 8, v)]
  }

  /** Setting or clearing a bit changes that bit only. */
  lemma BitSet(b: ByteBlock, i: nat, v: bool, j: nat)
    requires |b| == BSIZE && i < BPB && j < BPB
    ensures Bit(SetBit(b, i, v), j) == if j == i then v else Bit(b, j)
  {
    PutBitAt(b[i / 8], i % 8, v, j % 8);
    if i / 8 == j / 8 && i % 8 == j % 8 {
      assert i == j;
    }
  }
}
